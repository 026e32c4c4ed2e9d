/** The portfolio page: a list of holdings, each with a price, a quantity,
    their product as value and a selection flag; the total value of the
    selected holdings; adding, toggling, refreshing and resetting holdings;
    and the compact rendering of small prices. */
module Portfolio {
  import opened Options
  import opened Lists

  /** One holding (the page's CoinData record). */
  datatype CoinData = CoinData(
    coinId: string,
    symbol: string,
    name: string,
    price: real,
    quantity: real,
    value: real,
    isSelected: bool)

  /** The key holdings are looked up by. */
  function IdOf(c: CoinData): string { c.coinId }

  /** The sum of `value` over a list of holdings. */
  function SumValues(coins: seq<CoinData>): real {
    if |coins| == 0 then 0.0 else coins[0].value + SumValues(coins[1..])
  }

  /** The holdings whose flag is set, in order. */
  function SelectedOnly(coins: seq<CoinData>): (r: seq<CoinData>)
    ensures |r| <= |coins|
    ensures forall i :: 0 <= i < |r| ==> r[i].isSelected && r[i] in coins
    ensures forall i :: 0 <= i < |coins| && coins[i].isSelected ==> coins[i] in r
  {
    if |coins| == 0 then []
    else
      var rest := SelectedOnly(coins[1..]);
      assert forall i :: 1 <= i < |coins| ==> coins[i] == coins[1..][i - 1];
      if coins[0].isSelected then [coins[0]] + rest else rest
  }

  /** Filtering distributes over concatenation: the selected holdings keep
      their order in the list. */
  lemma {:induction false} SelectedOnlyAppend(a: seq<CoinData>, b: seq<CoinData>)
    ensures SelectedOnly(a + b) == SelectedOnly(a) + SelectedOnly(b)
  {
    if |a| == 0 {
      assert a + b == b;
    } else {
      assert (a + b)[1..] == a[1..] + b;
      SelectedOnlyAppend(a[1..], b);
    }
  }

  /** The total-value effect: `filter(isSelected)` then `reduce` over `value`. */
  function TotalValue(coins: seq<CoinData>): real {
    SumValues(SelectedOnly(coins))
  }

  /** Each holding's share of the total: its value when selected, else nothing. */
  function Share(c: CoinData): real {
    if c.isSelected then c.value else 0.0
  }

  /** The total is the sum of the shares: unselected holdings add nothing. */
  lemma {:induction false} TotalValueIsSumOfShares(coins: seq<CoinData>)
    ensures |coins| > 0 ==> TotalValue(coins) == Share(coins[0]) + TotalValue(coins[1..])
    ensures |coins| == 0 ==> TotalValue(coins) == 0.0
  {
  }

  lemma {:induction false} TotalValueAppend(a: seq<CoinData>, b: seq<CoinData>)
    ensures TotalValue(a + b) == TotalValue(a) + TotalValue(b)
  {
    if |a| > 0 {
      assert (a + b)[1..] == a[1..] + b;
      TotalValueAppend(a[1..], b);
      TotalValueIsSumOfShares(a + b);
      TotalValueIsSumOfShares(a);
    } else {
      assert a + b == b;
    }
  }

  /** A list with no selected holding is worth nothing, whatever its values. */
  lemma {:induction false} NothingSelectedTotalsZero(coins: seq<CoinData>)
    requires forall i :: 0 <= i < |coins| ==> !coins[i].isSelected
    ensures TotalValue(coins) == 0.0
  {
    if |coins| > 0 {
      NothingSelectedTotalsZero(coins[1..]);
      TotalValueIsSumOfShares(coins);
    }
  }

  /** The value is the price times the quantity. */
  predicate Consistent(c: CoinData) {
    c.value == c.price * c.quantity
  }

  predicate AllConsistent(coins: seq<CoinData>) {
    forall i :: 0 <= i < |coins| ==> Consistent(coins[i])
  }

  /** What the price lookup returns for a coin name. */
  datatype PriceLookup = PriceLookup(id: string, name: string, symbol: string, price: real)

  /** The holding `handleAddCoin` builds: selected, valued at price times quantity. */
  function NewCoin(lookup: PriceLookup, quantity: real): (c: CoinData)
    ensures Consistent(c) && c.isSelected
    ensures c.coinId == lookup.id && c.name == lookup.name && c.symbol == lookup.symbol
    ensures c.price == lookup.price && c.quantity == quantity
  {
    CoinData(lookup.id, lookup.symbol, lookup.name, lookup.price, quantity, lookup.price * quantity, true)
  }

  /** Adding a holding raises the total by exactly its price times quantity. */
  lemma AddedCoinRaisesTotal(coins: seq<CoinData>, lookup: PriceLookup, quantity: real)
    ensures TotalValue(coins + [NewCoin(lookup, quantity)]) == TotalValue(coins) + lookup.price * quantity
  {
    var c := NewCoin(lookup, quantity);
    TotalValueAppend(coins, [c]);
    TotalValueIsSumOfShares([c]);
    assert [c][1..] == [];
  }

  /** The outcome of one price request on refresh. */
  datatype Quote =
    | FetchFailed          // the request or its decoding threw
    | NoQuote              // the answer has no price for the coin
    | Quoted(usd: real)

  /** The refresh of one holding: a missing price falls back to the stored
      one, the value is recomputed from the price; a failed request keeps the
      holding as stored. */
  function Refresh(coin: CoinData, quote: Quote): (c: CoinData)
    ensures quote.FetchFailed? ==> c == coin
    ensures !quote.FetchFailed? ==> Consistent(c)
    ensures quote.NoQuote? ==> c.price == coin.price
    ensures quote.Quoted? ==> c.price == quote.usd
    ensures c.coinId == coin.coinId && c.symbol == coin.symbol && c.name == coin.name
    ensures c.quantity == coin.quantity && c.isSelected == coin.isSelected
  {
    match quote
    case FetchFailed => coin
    case NoQuote => coin.(value := coin.price * coin.quantity)
    case Quoted(usd) => coin.(price := usd, value := usd * coin.quantity)
  }

  /** Refreshing a consistent holding without a new price changes nothing. */
  lemma RefreshWithoutQuoteKeepsConsistent(coin: CoinData, quote: Quote)
    requires Consistent(coin) && !quote.Quoted?
    ensures Refresh(coin, quote) == coin
  {
  }

  function RefreshAll(rows: seq<CoinData>, quotes: seq<Quote>): (r: seq<CoinData>)
    requires |quotes| == |rows|
    ensures |r| == |rows|
    ensures forall i :: 0 <= i < |rows| ==> r[i] == Refresh(rows[i], quotes[i])
  {
    seq(|rows|, i requires 0 <= i < |rows| => Refresh(rows[i], quotes[i]))
  }

  /** The toggled copy of a holding: only the selection flag changes. */
  function FlipSelected(c: CoinData): (r: CoinData)
    ensures r.isSelected == !c.isSelected
    ensures r.coinId == c.coinId && r.symbol == c.symbol && r.name == c.name
    ensures r.price == c.price && r.quantity == c.quantity && r.value == c.value
  {
    c.(isSelected := !c.isSelected)
  }

  /** `toggleCoinSelection`'s update: every holding with the id becomes a
      copy of the first such holding with its flag flipped; an unknown id
      changes nothing. */
  function ToggleSelection(coins: seq<CoinData>, coinId: string): (r: seq<CoinData>)
    ensures |r| == |coins|
    ensures forall i :: 0 <= i < |coins| && coins[i].coinId != coinId ==> r[i] == coins[i]
    ensures FindFirst(coins, IdOf, coinId).None? ==> r == coins
    ensures FindFirst(coins, IdOf, coinId).Some? ==>
              forall i :: 0 <= i < |coins| && coins[i].coinId == coinId ==> r[i] == FlipSelected(FindFirst(coins, IdOf, coinId).value)
  {
    match FindFirst(coins, IdOf, coinId)
    case None => coins
    case Some(coin) =>
      seq(|coins|, i requires 0 <= i < |coins| => if coins[i].coinId == coinId then FlipSelected(coin) else coins[i])
  }

  /** With unique ids, toggling flips exactly the holding that has the id. */
  lemma ToggleFlipsOne(coins: seq<CoinData>, k: nat)
    requires UniqueKeys(coins, IdOf) && k < |coins|
    ensures ToggleSelection(coins, coins[k].coinId) == coins[k := FlipSelected(coins[k])]
  {
    var id := coins[k].coinId;
    var found := FindFirst(coins, IdOf, id);
    var j :| 0 <= j < |coins| && coins[j] == found.value && found.value.coinId == id
             && forall i :: 0 <= i < j ==> coins[i].coinId != id;
    assert j == k;
    var r := ToggleSelection(coins, id);
    assert forall i :: 0 <= i < |coins| ==> r[i] == coins[k := FlipSelected(coins[k])][i];
  }

  /** Flipping one entry's flag changes the total by that entry's share. */
  lemma {:induction false} FlipChangesTotalByShare(coins: seq<CoinData>, k: nat)
    requires k < |coins|
    ensures TotalValue(coins[k := FlipSelected(coins[k])])
         == TotalValue(coins) - Share(coins[k]) + Share(FlipSelected(coins[k]))
  {
    var flipped := coins[k := FlipSelected(coins[k])];
    TotalValueIsSumOfShares(coins);
    TotalValueIsSumOfShares(flipped);
    if k > 0 {
      assert flipped[1..] == coins[1..][k - 1 := FlipSelected(coins[k])];
      FlipChangesTotalByShare(coins[1..], k - 1);
    } else {
      assert flipped[1..] == coins[1..];
    }
  }

  /** With unique ids, toggling a selected holding takes its value off the
      total and toggling an unselected one adds it. */
  lemma ToggleChangesTotal(coins: seq<CoinData>, k: nat)
    requires UniqueKeys(coins, IdOf) && k < |coins|
    ensures coins[k].isSelected ==>
              TotalValue(ToggleSelection(coins, coins[k].coinId)) == TotalValue(coins) - coins[k].value
    ensures !coins[k].isSelected ==>
              TotalValue(ToggleSelection(coins, coins[k].coinId)) == TotalValue(coins) + coins[k].value
  {
    ToggleFlipsOne(coins, k);
    FlipChangesTotalByShare(coins, k);
  }

  /** How `formatPrice` renders a price. */
  datatype PriceText =
    | TwoDecimals                             // `$` and `toFixed(2)`, for prices of at least 1
    | Plain                                   // `$` and the number as JavaScript prints it
    | ZeroMarker(zeros: nat, digits: string)  // `$0.`, the marker `0x{zeros}`, then `digits`

  /** The length of the run of '0' characters the string starts with (`/^0+/`). */
  function LeadingZeros(s: string): (n: nat)
    ensures n <= |s|
    ensures forall i :: 0 <= i < n ==> s[i] == '0'
    ensures n < |s| ==> s[n] != '0'
  {
    if |s| > 0 && s[0] == '0' then 1 + LeadingZeros(s[1..]) else 0
  }

  /** JavaScript's `String.prototype.substring`: both ends are clamped to the
      string, and the smaller one is taken as the start. */
  function JsSubstring(s: string, start: int, end: int): (r: string)
    ensures |r| <= |s|
    ensures 0 <= start <= end <= |s| ==> r == s[start..end]
    ensures 0 <= end <= start <= |s| ==> r == s[end..start]
    ensures start <= end && end > |s| && 0 <= start <= |s| ==> r == s[start..]
    ensures start >= end && start > |s| && 0 <= end <= |s| ==> r == s[end..]
  {
    var a := if start < 0 then 0 else if start > |s| then |s| else start;
    var b := if end < 0 then 0 else if end > |s| then |s| else end;
    if a <= b then s[a..b] else s[b..a]
  }

  /** The order of the two ends does not matter. */
  lemma JsSubstringSymmetric(s: string, a: int, b: int)
    ensures JsSubstring(s, a, b) == JsSubstring(s, b, a)
  {
  }

  /** `formatPrice` as written: `fraction` is the part after the point of
      `price.toFixed(8)`, and the digits shown after the marker are
      `fraction.substring(zeros, 6)`. */
  function FormatPriceAsWritten(price: real, fraction: string): (t: PriceText)
    ensures t.TwoDecimals? <==> price >= 1.0
    ensures t.Plain? <==> price < 1.0 && LeadingZeros(fraction) <= 2
    ensures t.ZeroMarker? <==> price < 1.0 && LeadingZeros(fraction) > 2
    ensures t.ZeroMarker? ==> t.zeros == LeadingZeros(fraction) > 2
    ensures t.ZeroMarker? && t.zeros <= 6 <= |fraction| ==> t.digits == fraction[t.zeros..6]
    ensures t.ZeroMarker? && 6 < t.zeros ==> t.digits == fraction[6..t.zeros]
    ensures t.ZeroMarker? && |fraction| < 6 ==> t.digits == fraction[t.zeros..]
  {
    if price >= 1.0 then TwoDecimals
    else
      var zeros := LeadingZeros(fraction);
      if zeros <= 2 then Plain else ZeroMarker(zeros, JsSubstring(fraction, zeros, 6))
  }

  function Zeros(n: nat): (s: string)
    ensures |s| == n && forall i :: 0 <= i < n ==> s[i] == '0'
  {
    if n == 0 then "" else Zeros(n - 1) + "0"
  }

  /** With up to six leading zeros the rendering as written reads exactly as
      the first six fraction digits. */
  lemma AsWrittenShowsSixDigits(price: real, fraction: string)
    requires price < 1.0 && |fraction| == 8 && 2 < LeadingZeros(fraction) <= 6
    ensures var t := FormatPriceAsWritten(price, fraction);
            t.ZeroMarker? && Zeros(t.zeros) + t.digits == fraction[..6]
  {
    var n := LeadingZeros(fraction);
    assert Zeros(n) == fraction[..n];
  }

  /** With seven leading zeros the substring's ends are swapped: for
      0.00000005 (fraction "00000005") the marker says seven zeros and the
      digit shown is "0", a reading that is not the price's. */
  lemma AsWrittenMisreadsSevenZeros()
    ensures FormatPriceAsWritten(0.00000005, "00000005") == ZeroMarker(7, "0")
    ensures !(Zeros(7) + "0" <= "00000005")
  {
    var f := "00000005";
    assert LeadingZeros(f[7..]) == 0;
    assert LeadingZeros(f) == 7 by {
      assert f[1..][1..][1..][1..][1..][1..][1..] == f[7..];
    }
    assert JsSubstring(f, 7, 6) == f[6..7];
    assert (Zeros(7) + "0")[7] != f[7];
  }

  /** `formatPrice` as evidently intended: the digits after the marker are the
      (up to six) digits that follow the leading zeros. */
  function FormatPrice(price: real, fraction: string): (t: PriceText)
    ensures t.TwoDecimals? <==> price >= 1.0
    ensures t.Plain? <==> price < 1.0 && LeadingZeros(fraction) <= 2
    ensures t.ZeroMarker? <==> price < 1.0 && LeadingZeros(fraction) > 2
    ensures t.ZeroMarker? ==>
              && t.zeros == LeadingZeros(fraction) > 2
              && Zeros(t.zeros) + t.digits <= fraction
              && (t.zeros < |fraction| ==> |t.digits| > 0 && t.digits[0] != '0')
              && |t.digits| <= 6
    ensures t.ZeroMarker? ==>
              t.digits == fraction[t.zeros..if t.zeros + 6 > |fraction| then |fraction| else t.zeros + 6]
  {
    if price >= 1.0 then TwoDecimals
    else
      var zeros := LeadingZeros(fraction);
      if zeros <= 2 then Plain
      else
        var digits := JsSubstring(fraction, zeros, zeros + 6);
        assert digits == fraction[zeros..if zeros + 6 > |fraction| then |fraction| else zeros + 6];
        assert Zeros(zeros) == fraction[..zeros];
        ZeroMarker(zeros, digits)
  }

  /** The correction also changes prices with three to six leading zeros:
      for 0.00012345 the code as written stops at the sixth fraction digit
      and shows "123", the corrected rendering shows the six digits after
      the zeros, "12345". */
  lemma CorrectionShowsMoreDigits()
    ensures FormatPriceAsWritten(0.00012345, "00012345") == ZeroMarker(3, "123")
    ensures FormatPrice(0.00012345, "00012345") == ZeroMarker(3, "12345")
  {
    var f := "00012345";
    assert LeadingZeros(f[3..]) == 0;
    assert LeadingZeros(f) == 3 by {
      assert f[1..][1..][1..] == f[3..];
    }
  }

  /** The page's state. `totalValue` is not stored: its effect keeps it equal
      to `TotalValueNow()` after every change of the list. */
  class PortfolioPage {
    var coins: seq<CoinData>
    var newName: string
    var newQuantity: string
    var dialogOpen: bool

    constructor ()
      ensures coins == [] && newName == "" && newQuantity == "" && !dialogOpen
    {
      coins := [];
      newName, newQuantity := "", "";
      dialogOpen := false;
    }

    function TotalValueNow(): real
      reads this
    {
      TotalValue(coins)
    }

    /** The initial load: `rows` is the stored list (None when the store gave
        nothing) and `quotes` the outcome of each price request. */
    method FetchCoins(signedIn: bool, rows: Option<seq<CoinData>>, quotes: seq<Quote>)
      requires |quotes| == |rows.GetOr([])|
      modifies this
      ensures signedIn ==> coins == RefreshAll(rows.GetOr([]), quotes)
      ensures !signedIn ==> coins == old(coins)
      ensures signedIn && (forall i :: 0 <= i < |quotes| ==> !quotes[i].FetchFailed?) ==> AllConsistent(coins)
      ensures newName == old(newName) && newQuantity == old(newQuantity) && dialogOpen == old(dialogOpen)
    {
      if !signedIn { return; }
      coins := RefreshAll(rows.GetOr([]), quotes);
    }

    /** The add dialog's two inputs. */
    method SetNewCoin(name: string, quantity: string)
      modifies this
      ensures newName == name && newQuantity == quantity
      ensures coins == old(coins) && dialogOpen == old(dialogOpen)
    {
      newName, newQuantity := name, quantity;
    }

    method OpenDialog()
      modifies this
      ensures dialogOpen
      ensures coins == old(coins) && newName == old(newName) && newQuantity == old(newQuantity)
    {
      dialogOpen := true;
    }

    /** `handleAddCoin`: `parsedQuantity` is `parseFloat(newQuantity)` (None
        for NaN), `lookup` the price lookup (None when it failed) and
        `upsertOk` whether the store accepted the row. An empty name, an
        unparsable quantity, no user or a failed lookup change nothing. */
    method HandleAddCoin(signedIn: bool, parsedQuantity: Option<real>, lookup: Option<PriceLookup>, upsertOk: bool)
      modifies this
      ensures var accepted := old(newName) != "" && parsedQuantity.Some? && signedIn
                              && lookup.Some? && lookup.value.id != "";
              && (accepted && upsertOk ==> coins == old(coins) + [NewCoin(lookup.value, parsedQuantity.value)])
              && (!(accepted && upsertOk) ==> coins == old(coins))
              && (accepted ==> newName == "" && newQuantity == "" && !dialogOpen)
              && (!accepted ==> newName == old(newName) && newQuantity == old(newQuantity) && dialogOpen == old(dialogOpen))
      ensures old(AllConsistent(coins)) ==> AllConsistent(coins)
    {
      if newName == "" || parsedQuantity.None? || !signedIn { return; }
      if lookup.None? || lookup.value.id == "" { return; }
      var coin := NewCoin(lookup.value, parsedQuantity.value);
      if upsertOk {
        coins := coins + [coin];
      }
      newName, newQuantity := "", "";
      dialogOpen := false;
    }

    /** `toggleCoinSelection`. */
    method ToggleCoinSelection(signedIn: bool, coinId: string)
      modifies this
      ensures signedIn ==> coins == ToggleSelection(old(coins), coinId)
      ensures !signedIn ==> coins == old(coins)
      ensures newName == old(newName) && newQuantity == old(newQuantity) && dialogOpen == old(dialogOpen)
    {
      var coin := FindFirst(coins, IdOf, coinId);
      if coin.None? || !signedIn { return; }
      coins := ToggleSelection(coins, coinId);
    }

    /** `resetCoins`: `confirmed` is the answer to the confirmation prompt. */
    method ResetCoins(signedIn: bool, confirmed: bool)
      modifies this
      ensures signedIn && confirmed ==> coins == [] && TotalValueNow() == 0.0
      ensures !(signedIn && confirmed) ==> coins == old(coins)
      ensures newName == old(newName) && newQuantity == old(newQuantity) && dialogOpen == old(dialogOpen)
    {
      if !signedIn { return; }
      if !confirmed { return; }
      coins := [];
    }
  }
}
