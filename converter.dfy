/** The converter page: a list of coins loaded from the markets endpoint and
    filtered to plain-letter symbols, a case-insensitive search over it, a
    from/to pair of coins, an amount typed on a number pad, and the converted
    amount, recomputed from the two coins' prices. */
module Converter {
  import opened Strings
  import opened Options
  import opened Lists

  /** A coin as the markets endpoint returns it. */
  datatype MarketCoin = MarketCoin(id: string, name: string, symbol: string, currentPrice: real, image: string)

  /** A coin as the page keeps it (the page's CryptoOption record). */
  datatype CryptoOption = CryptoOption(id: string, name: string, symbol: string, price: real, icon: string)

  /** The key coins are looked up by. */
  function IdOf(c: CryptoOption): string { c.id }

  /** Non-empty and upper-case ASCII letters only. */
  predicate IsUpperWord(s: string) {
    |s| > 0 && forall i :: 0 <= i < |s| ==> IsUpper(s[i])
  }

  /** The per-coin `map` of the loader: the symbol is upper-cased. */
  function ToCryptoOption(c: MarketCoin): (o: CryptoOption)
    ensures o.id == c.id && o.name == c.name && o.price == c.currentPrice && o.icon == c.image
    ensures o.symbol == ToUpper(c.symbol)
    ensures IsAsciiWord(c.symbol) ==> IsUpperWord(o.symbol) && |o.symbol| == |c.symbol|
    ensures ToLower(o.symbol) == ToLower(c.symbol)
  {
    CryptoOption(c.id, c.name, ToUpper(c.symbol), c.currentPrice, c.image)
  }

  /** The loaded coin list: only symbols matching `^[a-zA-Z]+$`, upper-cased. */
  function LoadCoins(data: seq<MarketCoin>): (coins: seq<CryptoOption>)
    ensures |coins| <= |data|
    ensures forall i :: 0 <= i < |coins| ==> IsUpperWord(coins[i].symbol)
    ensures forall i :: 0 <= i < |data| && IsAsciiWord(data[i].symbol) ==> ToCryptoOption(data[i]) in coins
    ensures forall c :: c in coins ==>
              exists i :: 0 <= i < |data| && IsAsciiWord(data[i].symbol) && c == ToCryptoOption(data[i])
  {
    if |data| == 0 then []
    else
      var rest := LoadCoins(data[1..]);
      assert forall i :: 1 <= i < |data| ==> data[i] == data[1..][i - 1];
      if IsAsciiWord(data[0].symbol) then [ToCryptoOption(data[0])] + rest else rest
  }

  /** Loading distributes over concatenation: the kept coins stay in their order. */
  lemma {:induction false} LoadCoinsAppend(a: seq<MarketCoin>, b: seq<MarketCoin>)
    ensures LoadCoins(a + b) == LoadCoins(a) + LoadCoins(b)
  {
    if |a| > 0 {
      assert (a + b)[1..] == a[1..] + b;
      LoadCoinsAppend(a[1..], b);
    } else {
      assert a + b == b;
    }
  }

  /** A list whose symbols all pass the filter is kept whole. */
  lemma {:induction false} LoadCoinsKeepsLetterSymbols(data: seq<MarketCoin>)
    requires forall i :: 0 <= i < |data| ==> IsAsciiWord(data[i].symbol)
    ensures |LoadCoins(data)| == |data|
    ensures forall i :: 0 <= i < |data| ==> LoadCoins(data)[i] == ToCryptoOption(data[i])
  {
    if |data| > 0 {
      LoadCoinsKeepsLetterSymbols(data[1..]);
    }
  }

  /** The search test: the lower-cased name or symbol contains the query. */
  predicate Matches(coin: CryptoOption, query: string) {
    Contains(ToLower(coin.name), query) || Contains(ToLower(coin.symbol), query)
  }

  /** The order-preserving sub-list of the coins that match. */
  function FilterMatching(coins: seq<CryptoOption>, query: string): (r: seq<CryptoOption>)
    ensures |r| <= |coins|
    ensures forall i :: 0 <= i < |r| ==> Matches(r[i], query) && r[i] in coins
    ensures forall i :: 0 <= i < |coins| && Matches(coins[i], query) ==> coins[i] in r
  {
    if |coins| == 0 then []
    else
      var rest := FilterMatching(coins[1..], query);
      assert forall i :: 1 <= i < |coins| ==> coins[i] == coins[1..][i - 1];
      if Matches(coins[0], query) then [coins[0]] + rest else rest
  }

  lemma {:induction false} FilterMatchingAppend(a: seq<CryptoOption>, b: seq<CryptoOption>, query: string)
    ensures FilterMatching(a + b, query) == FilterMatching(a, query) + FilterMatching(b, query)
  {
    if |a| > 0 {
      assert (a + b)[1..] == a[1..] + b;
      FilterMatchingAppend(a[1..], b, query);
    } else {
      assert a + b == b;
    }
  }

  /** The search effect: a blank query shows every coin, any other query the
      matching ones for its trimmed, lower-cased form. */
  function SearchFilter(allCoins: seq<CryptoOption>, searchQuery: string): (r: seq<CryptoOption>)
    ensures Trim(searchQuery) == "" ==> r == allCoins
    ensures Trim(searchQuery) != "" ==> r == FilterMatching(allCoins, ToLower(Trim(searchQuery)))
  {
    var query := ToLower(Trim(searchQuery));
    if query == "" then allCoins else FilterMatching(allCoins, query)
  }

  /** A query of white space alone filters nothing out. */
  lemma BlankQueryShowsAll(allCoins: seq<CryptoOption>, searchQuery: string)
    requires forall i :: 0 <= i < |searchQuery| ==> IsSpace(searchQuery[i])
    ensures SearchFilter(allCoins, searchQuery) == allCoins
  {
    TrimEmptyIffBlank(searchQuery);
  }

  /** After a coin is picked the query is "", so the whole list shows again. */
  lemma EmptyQueryShowsAll(allCoins: seq<CryptoOption>)
    ensures SearchFilter(allCoins, "") == allCoins
  {
    assert Trim("") == "";
  }

  /** The upper-case symbol a coin is shown with is found by searching for
      its lower-case form. */
  lemma SymbolSearchFindsCoin(allCoins: seq<CryptoOption>, k: nat)
    requires k < |allCoins| && IsUpperWord(allCoins[k].symbol)
    ensures allCoins[k] in SearchFilter(allCoins, ToLower(allCoins[k].symbol))
  {
    var sym := allCoins[k].symbol;
    var q := ToLower(sym);
    assert forall i :: 0 <= i < |q| ==> IsLower(q[i]);
    LowerWordFixed(q);
    assert Contains(ToLower(sym), q);
    assert Matches(allCoins[k], q);
  }

  /** The ratio conversion: equal value in the reference currency on both sides. */
  function Convert(amt: real, fromPrice: real, toPrice: real): (r: real)
    requires toPrice != 0.0
    ensures r * toPrice == amt * fromPrice
  {
    (amt * fromPrice) / toPrice
  }

  /** Converting there and back returns the original amount. */
  lemma ConvertRoundTrip(amt: real, a: real, b: real)
    requires a > 0.0 && b > 0.0
    ensures Convert(Convert(amt, a, b), b, a) == amt
  {
    var there := Convert(amt, a, b);
    assert there * b == amt * a;
    assert Convert(there, b, a) * a == amt * a;
  }

  /** `parseFloat(amount) || 0`: an amount that does not parse counts as 0. */
  function AmountOrZero(parsed: Option<real>): (a: real)
    ensures parsed.Some? ==> a == parsed.value
    ensures parsed.None? ==> a == 0.0
  {
    parsed.GetOr(0.0)
  }

  /** The keys of the number pad. */
  const PadKeys: seq<string> := ["1", "2", "3", "4", "5", "6", "7", "8", "9", ".", "0", "clear"]

  /** `handleNumberPad`: clear resets to "0", a second point is ignored, a
      digit replaces a lone "0" and is appended to anything else. */
  function NumberPad(amount: string, key: string): (r: string)
    ensures key == "clear" ==> r == "0"
    ensures key == "." ==> ('.' in amount ==> r == amount) && ('.' !in amount ==> r == amount + ".")
    ensures key != "clear" && key != "." ==> r == if amount == "0" then key else amount + key
  {
    if key == "clear" then "0"
    else if key == "." then (if '.' in amount then amount else amount + ".")
    else if amount == "0" then key else amount + key
  }

  /** The shape every amount the pad can build has: a leading digit, no
      leading zero before another digit, only digits and at most one point. */
  predicate WellFormedAmount(s: string) {
    && |s| > 0
    && IsDigit(s[0])
    && !(s[0] == '0' && |s| > 1 && IsDigit(s[1]))
    && (forall i :: 0 <= i < |s| ==> IsDigit(s[i]) || s[i] == '.')
    && multiset(s)['.'] <= 1
  }

  lemma InitialAmountWellFormed()
    ensures WellFormedAmount("1")
  {
  }

  /** Every pad key keeps the amount well formed. */
  lemma NumberPadKeepsWellFormed(amount: string, key: string)
    requires WellFormedAmount(amount) && key in PadKeys
    ensures WellFormedAmount(NumberPad(amount, key))
  {
    var r := NumberPad(amount, key);
    if key == "." && '.' !in amount {
      assert multiset(r) == multiset(amount) + multiset{'.'};
      assert multiset(amount)['.'] == 0;
    } else if key != "clear" && key != "." && amount != "0" {
      assert |key| == 1 && IsDigit(key[0]);
      assert multiset(r) == multiset(amount) + multiset(key);
      assert multiset(key)['.'] == 0;
      assert amount[0] == '0' ==> |amount| > 1 && amount[1] == '.';
    }
  }

  /** `swapCryptos` on the pair: exchange only when both coins are chosen. */
  function Swap(from: Option<CryptoOption>, to: Option<CryptoOption>): (r: (Option<CryptoOption>, Option<CryptoOption>))
    ensures from.Some? && to.Some? ==> r == (to, from)
    ensures from.None? || to.None? ==> r == (from, to)
  {
    if from.Some? && to.Some? then (to, from) else (from, to)
  }

  /** Swapping twice restores the pair. */
  lemma SwapTwice(from: Option<CryptoOption>, to: Option<CryptoOption>)
    ensures Swap(Swap(from, to).0, Swap(from, to).1) == (from, to)
  {
  }

  /** The page's state. `filteredCoins` is not stored: the search effect keeps
      it equal to `FilteredCoins()` after every change of its inputs. */
  class ConverterPage {
    var amount: string
    var fromCrypto: Option<CryptoOption>
    var toCrypto: Option<CryptoOption>
    var convertedAmount: real
    var showFromSearch: bool
    var showToSearch: bool
    var searchQuery: string
    var allCoins: seq<CryptoOption>

    constructor ()
      ensures amount == "1" && fromCrypto == None && toCrypto == None && convertedAmount == 0.0
      ensures !showFromSearch && !showToSearch && searchQuery == "" && allCoins == []
      ensures WellFormedAmount(amount)
    {
      amount := "1";
      fromCrypto, toCrypto := None, None;
      convertedAmount := 0.0;
      showFromSearch, showToSearch := false, false;
      searchQuery := "";
      allCoins := [];
    }

    function FilteredCoins(): seq<CryptoOption>
      reads this
    {
      SearchFilter(allCoins, searchQuery)
    }

    /** The loader: `fetched` is the endpoint's list, or None when the fetch failed. */
    method LoadCoinList(fetched: Option<seq<MarketCoin>>)
      modifies this
      ensures fetched.Some? ==> allCoins == LoadCoins(fetched.value)
      ensures fetched.None? ==> allCoins == old(allCoins)
      ensures amount == old(amount) && fromCrypto == old(fromCrypto) && toCrypto == old(toCrypto)
      ensures convertedAmount == old(convertedAmount) && searchQuery == old(searchQuery)
      ensures showFromSearch == old(showFromSearch) && showToSearch == old(showToSearch)
    {
      if fetched.Some? {
        allCoins := LoadCoins(fetched.value);
      }
    }

    /** The default-pair effect: bitcoin to tether, once both are listed. */
    method SelectDefaultPair()
      modifies this
      ensures var btc, usdt := FindFirst(allCoins, IdOf, "bitcoin"), FindFirst(allCoins, IdOf, "tether");
              if btc.Some? && usdt.Some? then fromCrypto == btc && toCrypto == usdt
              else fromCrypto == old(fromCrypto) && toCrypto == old(toCrypto)
      ensures amount == old(amount) && allCoins == old(allCoins) && convertedAmount == old(convertedAmount)
      ensures searchQuery == old(searchQuery)
      ensures showFromSearch == old(showFromSearch) && showToSearch == old(showToSearch)
    {
      if |allCoins| > 0 {
        var btc := FindFirst(allCoins, IdOf, "bitcoin");
        var usdt := FindFirst(allCoins, IdOf, "tether");
        if btc.Some? && usdt.Some? {
          fromCrypto := btc;
          toCrypto := usdt;
        }
      }
    }

    /** The conversion effect; `parsedAmount` is `parseFloat(amount)`, None for NaN. */
    method UpdateConversion(parsedAmount: Option<real>)
      requires toCrypto.Some? ==> toCrypto.value.price != 0.0
      modifies this
      ensures amount == old(amount) && fromCrypto == old(fromCrypto) && toCrypto == old(toCrypto)
      ensures fromCrypto.Some? && toCrypto.Some? ==>
                convertedAmount == Convert(AmountOrZero(parsedAmount), fromCrypto.value.price, toCrypto.value.price)
      ensures fromCrypto.None? || toCrypto.None? ==> convertedAmount == old(convertedAmount)
      ensures allCoins == old(allCoins) && searchQuery == old(searchQuery)
      ensures showFromSearch == old(showFromSearch) && showToSearch == old(showToSearch)
    {
      if fromCrypto.Some? && toCrypto.Some? {
        var amt := AmountOrZero(parsedAmount);
        convertedAmount := Convert(amt, fromCrypto.value.price, toCrypto.value.price);
      }
    }

    method OpenFromSearch()
      modifies this
      ensures showFromSearch && showToSearch == old(showToSearch)
      ensures amount == old(amount) && fromCrypto == old(fromCrypto) && toCrypto == old(toCrypto)
      ensures allCoins == old(allCoins) && searchQuery == old(searchQuery) && convertedAmount == old(convertedAmount)
    {
      showFromSearch := true;
    }

    method OpenToSearch()
      modifies this
      ensures showToSearch && showFromSearch == old(showFromSearch)
      ensures amount == old(amount) && fromCrypto == old(fromCrypto) && toCrypto == old(toCrypto)
      ensures allCoins == old(allCoins) && searchQuery == old(searchQuery) && convertedAmount == old(convertedAmount)
    {
      showToSearch := true;
    }

    /** The search box's `onChange`. */
    method SetSearchQuery(query: string)
      modifies this
      ensures searchQuery == query
      ensures showFromSearch == old(showFromSearch) && showToSearch == old(showToSearch)
      ensures amount == old(amount) && fromCrypto == old(fromCrypto) && toCrypto == old(toCrypto)
      ensures allCoins == old(allCoins) && convertedAmount == old(convertedAmount)
    {
      searchQuery := query;
    }

    /** The close button of the search view. */
    method CloseSearch()
      modifies this
      ensures !showFromSearch && !showToSearch && searchQuery == ""
      ensures amount == old(amount) && fromCrypto == old(fromCrypto) && toCrypto == old(toCrypto)
      ensures allCoins == old(allCoins) && convertedAmount == old(convertedAmount)
    {
      showFromSearch := false;
      showToSearch := false;
      searchQuery := "";
    }

    /** `handleSelectCoin`: the from side when its search was open, else the
        to side; then both searches close and the query is cleared, so the
        full list is shown again. */
    method HandleSelectCoin(coin: CryptoOption)
      modifies this
      ensures old(showFromSearch) ==> fromCrypto == Some(coin) && toCrypto == old(toCrypto)
      ensures !old(showFromSearch) ==> toCrypto == Some(coin) && fromCrypto == old(fromCrypto)
      ensures !showFromSearch && !showToSearch && searchQuery == ""
      ensures amount == old(amount) && allCoins == old(allCoins) && convertedAmount == old(convertedAmount)
    {
      if showFromSearch {
        fromCrypto := Some(coin);
      } else {
        toCrypto := Some(coin);
      }
      showFromSearch := false;
      showToSearch := false;
      searchQuery := "";
    }

    /** `swapCryptos`. */
    method SwapCryptos()
      modifies this
      ensures (fromCrypto, toCrypto) == Swap(old(fromCrypto), old(toCrypto))
      ensures amount == old(amount) && allCoins == old(allCoins) && convertedAmount == old(convertedAmount)
      ensures searchQuery == old(searchQuery)
      ensures showFromSearch == old(showFromSearch) && showToSearch == old(showToSearch)
    {
      if fromCrypto.Some? && toCrypto.Some? {
        fromCrypto, toCrypto := toCrypto, fromCrypto;
      }
    }

    /** `handleNumberPad`; a pad key keeps the amount well formed. */
    method HandleNumberPad(key: string)
      modifies this
      ensures amount == NumberPad(old(amount), key)
      ensures old(WellFormedAmount(amount)) && key in PadKeys ==> WellFormedAmount(amount)
      ensures fromCrypto == old(fromCrypto) && toCrypto == old(toCrypto) && allCoins == old(allCoins)
      ensures convertedAmount == old(convertedAmount) && searchQuery == old(searchQuery)
      ensures showFromSearch == old(showFromSearch) && showToSearch == old(showToSearch)
    {
      if WellFormedAmount(amount) && key in PadKeys {
        NumberPadKeepsWellFormed(amount, key);
      }
      if key == "clear" {
        amount := "0";
      } else if key == "." {
        if '.' !in amount {
          amount := amount + ".";
        }
      } else {
        amount := if amount == "0" then key else amount + key;
      }
    }
  }
}
