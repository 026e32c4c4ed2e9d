/** The leveraged-position calculator page: a form of seven text fields, the
    rule that enables its Calculate button, and the calculation itself, which
    runs in one of two modes depending on whether a close price is known. */
module PositionCalculator {
  import opened Options

  /** What the result view shows (the page's CalculationResult record). */
  datatype CalculationResult = CalculationResult(
    targetPrice: real,
    expectedProfit: real,
    investment: real,
    leverage: real,
    positionType: string,
    openPrice: real,
    totalPositionSize: real)

  /** The names of the form's fields. */
  datatype Field =
    | Investment | Leverage | PositionType | OpenPrice
    | HasClosePrice | ClosePrice | RequiredProfit

  /** The form, as the raw text of each field (the select boxes hold
      "long"/"short" and "yes"/"no"). */
  datatype FormData = FormData(
    investment: string,
    leverage: string,
    positionType: string,
    openPrice: string,
    hasClosePrice: string,
    closePrice: string,
    requiredProfit: string)
  {
    /** The form with one field overwritten. */
    function With(field: Field, value: string): (f: FormData)
      ensures f.Get(field) == value
      ensures forall other: Field :: other != field ==> f.Get(other) == Get(other)
    {
      match field
      case Investment => this.(investment := value)
      case Leverage => this.(leverage := value)
      case PositionType => this.(positionType := value)
      case OpenPrice => this.(openPrice := value)
      case HasClosePrice => this.(hasClosePrice := value)
      case ClosePrice => this.(closePrice := value)
      case RequiredProfit => this.(requiredProfit := value)
    }

    function Get(field: Field): string {
      match field
      case Investment => investment
      case Leverage => leverage
      case PositionType => positionType
      case OpenPrice => openPrice
      case HasClosePrice => hasClosePrice
      case ClosePrice => closePrice
      case RequiredProfit => requiredProfit
    }
  }

  const EmptyForm := FormData("", "", "", "", "", "", "")

  function Abs(x: real): (r: real)
    ensures r >= 0.0 && (r == x || r == -x)
  {
    if x < 0.0 then -x else x
  }

  /** Close-price mode: the profit is the relative size of the price move
      (in either direction) times the position size. */
  function CloseProfit(openPrice: real, closePrice: real, totalPositionSize: real): (p: real)
    requires openPrice != 0.0
    ensures p * openPrice == Abs(closePrice - openPrice) * totalPositionSize
  {
    var move := Abs(closePrice - openPrice);
    assert (move / openPrice) * openPrice == move;
    (move / openPrice) * totalPositionSize
  }

  /** Required-profit mode: the price a "long" position must rise to, or any
      other position fall to, for the required profit. */
  function RequiredTarget(positionType: string, openPrice: real, requiredProfit: real,
                          totalPositionSize: real): (target: real)
    requires totalPositionSize != 0.0
    ensures positionType == "long" ==> (target - openPrice) * totalPositionSize == openPrice * requiredProfit
    ensures positionType != "long" ==> (openPrice - target) * totalPositionSize == openPrice * requiredProfit
  {
    var priceChangePercent := requiredProfit / totalPositionSize;
    if positionType == "long" then openPrice * (1.0 + priceChangePercent)
    else openPrice * (1.0 - priceChangePercent)
  }

  /** `calculatePosition`, on the already-parsed numbers. Only the answer
      "yes" selects close-price mode; every other answer runs the
      required-profit mode. */
  function Calculate(investment: real, leverage: real, positionType: string, openPrice: real,
                     hasClosePrice: string, closePrice: real, requiredProfit: real): (r: CalculationResult)
    requires hasClosePrice == "yes" ==> openPrice != 0.0
    requires hasClosePrice != "yes" ==> investment * leverage != 0.0
    ensures r.totalPositionSize == investment * leverage
    ensures r.investment == investment && r.leverage == leverage
    ensures r.positionType == positionType && r.openPrice == openPrice
    ensures hasClosePrice == "yes" ==>
              r.targetPrice == closePrice
              && r.expectedProfit == CloseProfit(openPrice, closePrice, investment * leverage)
    ensures hasClosePrice != "yes" ==>
              r.expectedProfit == requiredProfit
              && r.targetPrice == RequiredTarget(positionType, openPrice, requiredProfit, investment * leverage)
  {
    var totalPositionSize := investment * leverage;
    var (targetPrice, expectedProfit) :=
      if hasClosePrice == "yes" then
        (closePrice, CloseProfit(openPrice, closePrice, totalPositionSize))
      else
        (RequiredTarget(positionType, openPrice, requiredProfit, totalPositionSize), requiredProfit);
    CalculationResult(targetPrice, expectedProfit, investment, leverage, positionType, openPrice,
                      totalPositionSize)
  }

  /** In close-price mode the position's direction plays no part. */
  lemma CloseModeIgnoresDirection(investment: real, leverage: real, openPrice: real, closePrice: real,
                                  requiredProfit: real, long: string, other: string)
    requires openPrice != 0.0
    ensures Calculate(investment, leverage, long, openPrice, "yes", closePrice, requiredProfit).expectedProfit
         == Calculate(investment, leverage, other, openPrice, "yes", closePrice, requiredProfit).expectedProfit
  {
  }

  /** A positive open price and a non-negative position never give a negative profit. */
  lemma CloseProfitNonNegative(openPrice: real, closePrice: real, totalPositionSize: real)
    requires openPrice > 0.0 && totalPositionSize >= 0.0
    ensures CloseProfit(openPrice, closePrice, totalPositionSize) >= 0.0
  {
    var ratio := Abs(closePrice - openPrice) / openPrice;
    assert ratio >= 0.0;
    assert ratio * totalPositionSize >= 0.0;
  }

  /** Close prices the same distance above and below the open price give the same profit. */
  lemma CloseProfitSymmetric(openPrice: real, distance: real, totalPositionSize: real)
    requires openPrice != 0.0
    ensures CloseProfit(openPrice, openPrice + distance, totalPositionSize)
         == CloseProfit(openPrice, openPrice - distance, totalPositionSize)
  {
    assert Abs(openPrice + distance - openPrice) == Abs(openPrice - distance - openPrice);
  }

  /** For a positive required profit the long target lies above the open
      price and the short one below it. */
  lemma RequiredTargetDirection(positionType: string, openPrice: real, requiredProfit: real,
                                totalPositionSize: real)
    requires openPrice > 0.0 && requiredProfit > 0.0 && totalPositionSize > 0.0
    ensures positionType == "long" ==> RequiredTarget(positionType, openPrice, requiredProfit, totalPositionSize) > openPrice
    ensures positionType != "long" ==> RequiredTarget(positionType, openPrice, requiredProfit, totalPositionSize) < openPrice
  {
    var pct := requiredProfit / totalPositionSize;
    assert pct > 0.0;
    assert openPrice * pct > 0.0;
    assert openPrice * (1.0 + pct) == openPrice + openPrice * pct;
    assert openPrice * (1.0 - pct) == openPrice - openPrice * pct;
  }

  /** Feeding the required-profit mode's target back in as the close price
      gives back the required profit, for either direction. */
  lemma RequiredProfitRoundTrip(investment: real, leverage: real, positionType: string, openPrice: real,
                                requiredProfit: real, closePrice: real, otherProfit: real)
    requires openPrice > 0.0 && investment * leverage > 0.0 && requiredProfit >= 0.0
    ensures var target := Calculate(investment, leverage, positionType, openPrice, "no", closePrice, requiredProfit).targetPrice;
            Calculate(investment, leverage, positionType, openPrice, "yes", target, otherProfit).expectedProfit
              == requiredProfit
  {
    var size := investment * leverage;
    var pct := requiredProfit / size;
    var target := RequiredTarget(positionType, openPrice, requiredProfit, size);
    assert pct >= 0.0;
    assert Abs(target - openPrice) == openPrice * pct by {
      assert openPrice * (1.0 + pct) - openPrice == openPrice * pct;
      assert openPrice * (1.0 - pct) - openPrice == -(openPrice * pct);
      assert openPrice * pct >= 0.0;
    }
    assert (openPrice * pct) / openPrice == pct;
    assert pct * size == requiredProfit;
  }

  /** The Calculate button's `disabled` expression. */
  predicate CalculateDisabled(f: FormData) {
    f.investment == "" || f.leverage == "" || f.positionType == "" || f.openPrice == ""
    || f.hasClosePrice == ""
    || (f.hasClosePrice == "yes" && f.closePrice == "")
    || (f.hasClosePrice == "no" && f.requiredProfit == "")
  }

  /** Calculate is enabled exactly when the five common fields are filled in
      and so is the field the chosen mode reads. */
  lemma CalculateEnabledIff(f: FormData)
    ensures !CalculateDisabled(f) <==>
              (f.investment != "" && f.leverage != "" && f.positionType != "" && f.openPrice != ""
               && f.hasClosePrice != "")
              && (f.hasClosePrice == "yes" ==> f.closePrice != "")
              && (f.hasClosePrice == "no" ==> f.requiredProfit != "")
  {
  }

  /** A freshly reset form cannot be submitted. */
  lemma EmptyFormDisabled()
    ensures CalculateDisabled(EmptyForm)
  {
  }

  /** The page's state: the form, the last result and whether the result view is shown. */
  class PositionCalculatorPage {
    var form: FormData
    var result: Option<CalculationResult>
    var showResult: bool

    constructor ()
      ensures form == EmptyForm && result == None && !showResult
    {
      form := EmptyForm;
      result := None;
      showResult := false;
    }

    /** `handleInputChange`: overwrite one field. */
    method HandleInputChange(field: Field, value: string)
      modifies this
      ensures form == old(form).With(field, value)
      ensures result == old(result) && showResult == old(showResult)
    {
      form := form.With(field, value);
    }

    /** `calculatePosition`: the parsed field values come in as numbers. */
    method CalculatePosition(investment: real, leverage: real, openPrice: real,
                             closePrice: real, requiredProfit: real)
      requires form.hasClosePrice == "yes" ==> openPrice != 0.0
      requires form.hasClosePrice != "yes" ==> investment * leverage != 0.0
      modifies this
      ensures result == Some(Calculate(investment, leverage, old(form).positionType, openPrice,
                                       old(form).hasClosePrice, closePrice, requiredProfit))
      ensures showResult && form == old(form)
    {
      result := Some(Calculate(investment, leverage, form.positionType, openPrice,
                               form.hasClosePrice, closePrice, requiredProfit));
      showResult := true;
    }

    /** `resetCalculator`: every field back to "", no result, form view shown. */
    method ResetCalculator()
      modifies this
      ensures form == EmptyForm && result == None && !showResult
      ensures CalculateDisabled(form)
    {
      showResult := false;
      form := EmptyForm;
      result := None;
    }
  }
}
