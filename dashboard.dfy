/** The dashboard's portfolio valuation: the ids of the selected holdings are
    joined into one price request, and the quoted prices are folded into a
    USD total, which is also shown in bitcoin. */
module Dashboard {
  import opened Strings
  import opened Options

  /** The columns of a stored, selected holding that the valuation reads. */
  datatype Holding = Holding(coinId: string, quantity: real)

  /** `prices[id]?.usd || 0`: a missing (or zero) quote counts as 0. */
  function PriceOrZero(prices: map<string, real>, coinId: string): (p: real)
    ensures coinId !in prices ==> p == 0.0
    ensures coinId in prices ==> p == prices[coinId]
  {
    if coinId in prices then prices[coinId] else 0.0
  }

  /** The USD value of a list of holdings at the quoted prices. */
  function UsdValue(coins: seq<Holding>, prices: map<string, real>): real {
    if |coins| == 0 then 0.0
    else UsdValue(coins[..|coins| - 1], prices) + PriceOrZero(prices, coins[|coins| - 1].coinId) * coins[|coins| - 1].quantity
  }

  lemma {:induction false} UsdValueAppend(a: seq<Holding>, b: seq<Holding>, prices: map<string, real>)
    ensures UsdValue(a + b, prices) == UsdValue(a, prices) + UsdValue(b, prices)
    decreases |b|
  {
    if |b| == 0 {
      assert a + b == a;
    } else {
      assert (a + b)[..|a + b| - 1] == a + b[..|b| - 1];
      UsdValueAppend(a, b[..|b| - 1], prices);
    }
  }

  /** A holding without a quote adds nothing to the total. */
  lemma UnquotedHoldingAddsNothing(coins: seq<Holding>, c: Holding, prices: map<string, real>)
    requires c.coinId !in prices
    ensures UsdValue(coins + [c], prices) == UsdValue(coins, prices)
  {
    assert (coins + [c])[..|coins|] == coins;
  }

  /** The fold adds the holdings from the front as well: the first holding's
      contribution can be taken off the front of the list. */
  lemma {:induction false} UsdValueFront(coins: seq<Holding>, prices: map<string, real>)
    requires |coins| > 0
    ensures UsdValue(coins, prices) == PriceOrZero(prices, coins[0].coinId) * coins[0].quantity + UsdValue(coins[1..], prices)
  {
    assert coins == [coins[0]] + coins[1..];
    UsdValueAppend([coins[0]], coins[1..], prices);
    assert [coins[0]][..0] == [];
  }

  /** The `forEach` fold that accumulates `price * quantity` into `total`. */
  method SumHoldings(coins: seq<Holding>, prices: map<string, real>) returns (total: real)
    ensures total == UsdValue(coins, prices)
  {
    total := 0.0;
    var i := 0;
    while i < |coins|
      invariant 0 <= i <= |coins|
      invariant total == UsdValue(coins[..i], prices)
    {
      var price := if coins[i].coinId in prices then prices[coins[i].coinId] else 0.0;
      total := total + price * coins[i].quantity;
      assert coins[..i + 1][..i] == coins[..i];
      i := i + 1;
    }
    assert coins[..|coins|] == coins;
  }

  /** The ids that are not empty, in order (`.filter(Boolean)`). */
  function ValidIds(coins: seq<Holding>): (ids: seq<string>)
    ensures |ids| <= |coins|
    ensures forall i :: 0 <= i < |ids| ==> ids[i] != ""
    ensures forall i :: 0 <= i < |coins| && coins[i].coinId != "" ==> coins[i].coinId in ids
    ensures forall id :: id in ids ==> exists i :: 0 <= i < |coins| && coins[i].coinId == id
    ensures ids == [] <==> forall i :: 0 <= i < |coins| ==> coins[i].coinId == ""
  {
    if |coins| == 0 then []
    else
      var rest := ValidIds(coins[1..]);
      assert forall i :: 1 <= i < |coins| ==> coins[i] == coins[1..][i - 1];
      if coins[0].coinId != "" then [coins[0].coinId] + rest else rest
  }

  /** Filtering distributes over concatenation, so the kept ids stay in order. */
  lemma {:induction false} ValidIdsAppend(a: seq<Holding>, b: seq<Holding>)
    ensures ValidIds(a + b) == ValidIds(a) + ValidIds(b)
  {
    if |a| > 0 {
      assert (a + b)[1..] == a[1..] + b;
      ValidIdsAppend(a[1..], b);
    } else {
      assert a + b == b;
    }
  }

  /** The comma-joined id list of the price request. */
  function CoinIds(coins: seq<Holding>): string {
    Join(ValidIds(coins), ",")
  }

  /** The id list is empty exactly when every id was dropped as empty. */
  lemma CoinIdsEmptyIff(coins: seq<Holding>)
    ensures CoinIds(coins) == "" <==> forall i :: 0 <= i < |coins| ==> coins[i].coinId == ""
  {
    JoinEmptyIff(ValidIds(coins), ",");
  }

  /** `prices["bitcoin"]?.usd || 1`: a missing (or zero) bitcoin quote counts as 1. */
  function BtcPrice(prices: map<string, real>): (p: real)
    ensures p != 0.0
    ensures "bitcoin" in prices && prices["bitcoin"] != 0.0 ==> p == prices["bitcoin"]
    ensures !("bitcoin" in prices && prices["bitcoin"] != 0.0) ==> p == 1.0
  {
    if "bitcoin" in prices && prices["bitcoin"] != 0.0 then prices["bitcoin"] else 1.0
  }

  /** The dashboard's two totals. */
  class DashboardPage {
    var totalUsd: real
    var totalBtc: real

    constructor ()
      ensures totalUsd == 0.0 && totalBtc == 0.0
    {
      totalUsd, totalBtc := 0.0, 0.0;
    }

    /** `fetchPortfolio`: `rows` is the store's list of selected holdings
        (None on a store error) and `prices` the price answer (None when the
        request failed). */
    method FetchPortfolio(signedIn: bool, rows: Option<seq<Holding>>, prices: Option<map<string, real>>)
      modifies this
      ensures !signedIn || rows.None? ==> totalUsd == old(totalUsd) && totalBtc == old(totalBtc)
      ensures signedIn && rows.Some? && CoinIds(rows.value) == "" ==> totalUsd == 0.0 && totalBtc == 0.0
      ensures signedIn && rows.Some? && CoinIds(rows.value) != "" && prices.None? ==>
                totalUsd == old(totalUsd) && totalBtc == old(totalBtc)
      ensures signedIn && rows.Some? && CoinIds(rows.value) != "" && prices.Some? ==>
                totalUsd == UsdValue(rows.value, prices.value)
                && totalBtc == totalUsd / BtcPrice(prices.value)
    {
      if !signedIn || rows.None? { return; }
      var coins := rows.value;
      if CoinIds(coins) == "" {
        totalUsd := 0.0;
        totalBtc := 0.0;
        return;
      }
      if prices.None? { return; }
      var total := SumHoldings(coins, prices.value);
      totalUsd := total;
      totalBtc := total / BtcPrice(prices.value);
    }
  }
}
