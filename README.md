# CryptoCompanion pages, modelled in Dafny

CryptoCompanion is a React web client for tracking crypto holdings. It stores
its data in a hosted backend and reads prices from a public price API. What it
computes itself is small: the state and the arithmetic inside six pages. This
project models that local logic, one Dafny module per page, and proves what
each page promises.

- `PositionCalculator` (`position_calculator.dfy`): the leveraged-position
  calculator. It runs in close-price mode ("yes") or required-profit mode
  (any other answer). The module also has the rule that enables the Calculate
  button and the form state with its reset.
- `DailyCompounding` (`daily_compounding.dfy`): the daily-compounding loop,
  capped at 365 days, and the plan row it exports to the to-do list.
- `Converter` (`converter.dfy`): the coin list filtered to letter-only
  symbols, the case-insensitive search, the ratio conversion, the number-pad
  editor of the amount, the from/to pair with swap, coin selection and the
  bitcoin/tether default.
- `Todo` (`todo.dfy`): loading the plan row into items, the prefix toggle of
  plan items, and adding, toggling and deleting custom tasks.
- `Portfolio` (`portfolio.dfy`): the holdings list. It covers the
  selected-only total, adding, toggling, the price refresh with its
  fallback, reset and `formatPrice`.
- `Dashboard` (`dashboard.dfy`): the coin-id join and the `forEach`
  valuation in USD and BTC.
- `Strings`, `Lists` and `Options` are shared helpers: ASCII case mapping,
  trimming, substring search, decimal rendering, joining, the first-match
  lookup by key, and an `Option` type.

Modelling conventions:
- Numbers are Dafny `real`, so the arithmetic is exact.
- A value the page gets from `parseFloat` is a parameter. It is an
  `Option<real>` wherever the page checks for NaN.
- Each call to the backend or the price API is reduced to its outcome. It
  becomes a parameter: success as a boolean, or the returned data as an
  `Option`.
- A page whose fields its handlers overwrite is a class. Each handler is a
  method whose `ensures` gives the complete new state.
- A state value that an effect always recomputes from other fields is a
  function of those fields, not a stored field. This applies to the
  converter's `filteredCoins` and the portfolio's `totalValue`.
- The converter's `convertedAmount` is a stored field. Its effect leaves it
  unchanged while a coin is missing.
- The converter's two other effects, `SelectDefaultPair` and
  `UpdateConversion`, are methods. The caller invokes them after the
  handlers whose state they react to: `SelectDefaultPair` after the coin
  list loads, `UpdateConversion` after the amount or either coin changes.

## Model

| member | source | states |
|---|---|---|
| `PositionCalculator.Calculate` | src/pages/PositionCalculator.tsx:44-84 | position size is investment × leverage in both modes; only "yes" selects close-price mode, which reports the close price as target; every other answer runs required-profit mode, which passes the required profit through unchanged; inputs are echoed in the result |
| `PositionCalculator.CloseProfit` | src/pages/PositionCalculator.tsx:56-57 | profit × open price equals the absolute price move × position size: the relative move scaled by the size |
| `PositionCalculator.RequiredTarget` | src/pages/PositionCalculator.tsx:62-68 | for "long" the target's rise over the open price, and for every other type its fall below it, times the size equals open price × required profit |
| `PositionCalculator.CloseModeIgnoresDirection` | src/pages/PositionCalculator.tsx:53-58 | in close-price mode the expected profit is the same for every position type |
| `PositionCalculator.CloseProfitNonNegative` | src/pages/PositionCalculator.tsx:56-57 | with a positive open price and a non-negative size the close-price profit is never negative |
| `PositionCalculator.CloseProfitSymmetric` | src/pages/PositionCalculator.tsx:56-57 | close prices equally far above and below the open price give equal profits |
| `PositionCalculator.RequiredTargetDirection` | src/pages/PositionCalculator.tsx:62-68 | for positive profit, price and size, the "long" target is above the open price and any other type's is below |
| `PositionCalculator.RequiredProfitRoundTrip` | src/pages/PositionCalculator.tsx:56-69 | for a non-negative required profit, feeding the required-profit target back as close price reproduces the required profit, for every position type |
| `PositionCalculator.CalculateEnabledIff` | src/pages/PositionCalculator.tsx:318-326 | Calculate is enabled iff the five common fields are non-empty, the close price is non-empty for "yes" and the required profit is non-empty for "no" |
| `PositionCalculator.CalculateDisabled` | src/pages/PositionCalculator.tsx:318-326 | the button's `disabled` expression, defined directly; `CalculateEnabledIff` and `EmptyFormDisabled` state what it means |
| `PositionCalculator.EmptyFormDisabled` | src/pages/PositionCalculator.tsx:318-326 | the all-empty form (what reset leaves) has Calculate disabled |
| `PositionCalculator.FormData.With` | src/pages/PositionCalculator.tsx:40-42 | overwriting one field sets that field and leaves every other field as it was |
| `PositionCalculator.PositionCalculatorPage.constructor` | src/pages/PositionCalculator.tsx:27-38 | the page starts with an empty form, no result and the form view |
| `PositionCalculator.PositionCalculatorPage.HandleInputChange` | src/pages/PositionCalculator.tsx:40-42 | only the named field changes; result and view are kept |
| `PositionCalculator.PositionCalculatorPage.CalculatePosition` | src/pages/PositionCalculator.tsx:44-84 | the result becomes `Calculate` of the parsed fields with the form's type and mode, and the result view is shown |
| `PositionCalculator.PositionCalculatorPage.ResetCalculator` | src/pages/PositionCalculator.tsx:86-98 | every field is "", the result is null, the form view is shown, and Calculate is disabled |
| `DailyCompounding.CalculateCompounding` | src/pages/DailyCompounding.tsx:36-62 | the loop ends within 365 days; days is the first day the target is reached or 365; there is one breakdown entry per day, entry k being day k+1 with the amount compounded k+1 times; the final amount is that of the last day; start ≥ target gives no days |
| `DailyCompounding.AmountAfter` | src/pages/DailyCompounding.tsx:46 | the amount after n daily steps of × (1 + rate/100), defined by recursion; the loop is proved against it and the lemmas below describe it |
| `DailyCompounding.ProjectionShape` | src/pages/DailyCompounding.tsx:41-53 | final amount is the last entry's, or the start when no day ran; fewer than 365 days means the target was reached; every entry before the last is below target; entry 0 is start × (1 + rate/100) and each later entry is the previous one × (1 + rate/100) |
| `DailyCompounding.ProjectionUnique` | src/pages/DailyCompounding.tsx:45-49 | the projection's promises determine its result completely |
| `DailyCompounding.AmountsIncrease` | src/pages/DailyCompounding.tsx:46 | with positive start and rate, a later day's amount is strictly greater than an earlier day's, and all are positive |
| `DailyCompounding.AmountPositive` | src/pages/DailyCompounding.tsx:46 | with positive start and a rate above -100% the amount stays positive |
| `DailyCompounding.BreakdownIncreases` | src/pages/DailyCompounding.tsx:45-49 | with positive start and rate the breakdown amounts strictly increase |
| `DailyCompounding.AmountNeverGrows` | src/pages/DailyCompounding.tsx:46 | with a rate between -100% and 0 the amount stays between 0 and the start |
| `DailyCompounding.AmountBounded` | src/pages/DailyCompounding.tsx:46 | with a rate between -200% and 0 the daily factor lies in [-1, 1], so the amount may change sign but stays within [-start, start] |
| `DailyCompounding.NonPositiveRateHitsCeiling` | src/pages/DailyCompounding.tsx:45 | for a rate between -200% and 0 and a target above a non-negative start, the loop runs the full 365 days and ends below the target |
| `DailyCompounding.SteepLossCanReachTarget` | src/pages/DailyCompounding.tsx:45-46 | at -300% a day from 1 the target 2 is reached on day 2 (the amount's sign alternates and its size triples), so below -200% a non-positive rate does not force 365 days |
| `DailyCompounding.DayLabel` | src/pages/DailyCompounding.tsx:79-82 | the text of one plan entry, "Day - " then the day number then ": " then the formatted amount, defined directly; `PlanPayload` uses it |
| `DailyCompounding.PlanPayload` | src/pages/DailyCompounding.tsx:77-85 | the text and completed arrays both have one entry per breakdown day, text k is "Day - {day}: {amount}", every completed flag is false |
| `DailyCompounding.ExportedPlanLoadsUnchecked` | src/pages/DailyCompounding.tsx:77-92 | loading the exported row on the to-do page gives one unchecked item per simulated day, item k with id "plan-k" and the label of day k+1 |
| `Converter.ToCryptoOption` | src/pages/Converter.tsx:39-45 | id, name, price and icon are copied; the symbol is the upper-cased input symbol, equal to it ignoring case; a letter-only symbol comes out as upper-case letters of the same length |
| `Converter.LoadCoins` | src/pages/Converter.tsx:37-45 | the list contains every coin with a `^[a-zA-Z]+$` symbol, converted, and nothing else; every symbol in it is upper-case letters |
| `Converter.LoadCoinsAppend` | src/pages/Converter.tsx:37-45 | loading distributes over concatenation, so the kept coins keep their order |
| `Converter.LoadCoinsKeepsLetterSymbols` | src/pages/Converter.tsx:37-45 | a list whose symbols are all letter-only is kept whole, position by position |
| `Converter.Matches` | src/pages/Converter.tsx:62-64 | a coin matches when its lower-cased name or symbol contains the query, defined directly; `FilterMatching` and `SymbolSearchFindsCoin` state what the search does with it |
| `Converter.FilterMatching` | src/pages/Converter.tsx:61-65 | the result holds exactly the coins whose lower-cased name or symbol contains the query |
| `Converter.FilterMatchingAppend` | src/pages/Converter.tsx:61-65 | the search filter distributes over concatenation, so it preserves order |
| `Converter.SearchFilter` | src/pages/Converter.tsx:56-68 | an empty trimmed query gives all coins; otherwise the coins matching the trimmed, lower-cased query |
| `Converter.BlankQueryShowsAll` | src/pages/Converter.tsx:57-59 | a query made only of white space filters nothing out |
| `Converter.EmptyQueryShowsAll` | src/pages/Converter.tsx:88-94 | the empty query a coin selection leaves shows the whole list |
| `Converter.SymbolSearchFindsCoin` | src/pages/Converter.tsx:61-65 | searching for the lower-case form of a coin's symbol finds that coin |
| `Converter.Convert` | src/pages/Converter.tsx:73 | the converted amount is worth as much in the reference currency as the original |
| `Converter.ConvertRoundTrip` | src/pages/Converter.tsx:73 | converting from A to B and back to A returns the original amount |
| `Converter.AmountOrZero` | src/pages/Converter.tsx:72 | a parsed amount is used as is; an amount that does not parse (NaN) counts as 0 |
| `Converter.NumberPad` | src/pages/Converter.tsx:103-111 | "clear" gives "0"; "." is appended only when there is no "." yet; another key replaces an amount of exactly "0" and is appended otherwise |
| `Converter.InitialAmountWellFormed` | src/pages/Converter.tsx:18 | the initial amount "1" is well formed |
| `Converter.NumberPadKeepsWellFormed` | src/pages/Converter.tsx:103-111 | every pad key keeps the amount non-empty, starting with a digit, never "0" followed by a digit, only digits and at most one "." |
| `Lists.FindFirst` | src/pages/Converter.tsx:79-80 | the result is the first element with the key, or none exactly when no element has it; the converter's default pair, `toggleCustom` (src/pages/Todo.tsx:129) and `toggleCoinSelection` (src/pages/Portfolio.tsx:112) all look entries up through it |
| `Converter.Swap` | src/pages/Converter.tsx:96-101 | the pair is exchanged when both coins are set and unchanged otherwise |
| `Converter.SwapTwice` | src/pages/Converter.tsx:96-101 | swapping twice restores the pair |
| `Converter.ConverterPage.constructor` | src/pages/Converter.tsx:17-27 | initial state: amount "1" (well formed), no coins chosen, converted amount 0, searches closed, empty query and list |
| `Converter.ConverterPage.LoadCoinList` | src/pages/Converter.tsx:29-54 | a successful fetch sets the list to the filtered, upper-cased coins; a failed one changes nothing |
| `Converter.ConverterPage.SelectDefaultPair` | src/pages/Converter.tsx:77-86 | when both bitcoin and tether are listed they become from and to; otherwise the pair is kept |
| `Converter.ConverterPage.UpdateConversion` | src/pages/Converter.tsx:70-75 | with both coins set the converted amount is amount × from price / to price, an unparsable amount counting as 0; with a coin missing it is kept |
| `Converter.ConverterPage.OpenFromSearch` | src/pages/Converter.tsx:181 | opens the from-side search |
| `Converter.ConverterPage.OpenToSearch` | src/pages/Converter.tsx:205 | opens the to-side search |
| `Converter.ConverterPage.SetSearchQuery` | src/pages/Converter.tsx:136 | sets the query, nothing else |
| `Converter.ConverterPage.CloseSearch` | src/pages/Converter.tsx:119-123 | closes both searches and clears the query |
| `Converter.ConverterPage.HandleSelectCoin` | src/pages/Converter.tsx:88-94 | the coin becomes from when the from search is open and to otherwise; both searches close and the query is cleared |
| `Converter.ConverterPage.SwapCryptos` | src/pages/Converter.tsx:96-101 | the pair becomes `Swap` of the old pair, nothing else changes |
| `Converter.ConverterPage.HandleNumberPad` | src/pages/Converter.tsx:103-111 | the amount becomes `NumberPad` of the old amount and the key, and stays well formed for pad keys |
| `Strings.ContainsAt` | src/pages/Converter.tsx:63-64 | the recursive `includes` holds exactly when the query occurs at some index |
| `Strings.Contains` | src/pages/Converter.tsx:63-64 | `includes`, defined by recursion on the string; `ContainsAt` states what it means |
| `Strings.Trim` | src/pages/Converter.tsx:57 | the result is a slice `s[i..j]` of the input with only white space outside it, starts and ends with a non-space, and is the input itself when the input holds no white space |
| `Strings.ToLower` | src/pages/Converter.tsx:57 | same length; each character is lowered: an ASCII upper-case letter becomes its lower-case letter and every other character is kept |
| `Strings.ToUpper` | src/pages/Converter.tsx:43 | same length; each ASCII lower-case letter becomes its upper-case letter and every other character is kept |
| `Strings.TrimEmptyIffBlank` | src/pages/Converter.tsx:57-58 | a string trims to "" exactly when it is all white space |
| `Strings.Join` | src/pages/Dashboard.tsx:48 | `join(sep)`, defined by recursion on the list; `JoinEmptyIff` states what the page relies on |
| `Strings.JoinEmptyIff` | src/pages/Dashboard.tsx:45-50 | joining non-empty ids gives "" only for the empty list |
| `Strings.DigitChar` | src/pages/Todo.tsx:41 | the character of a decimal digit d is a digit whose code is d above the code of '0' |
| `Strings.NatText` | src/pages/Todo.tsx:41 | the decimal text a template literal prints for a number: non-empty, digits only, and no leading zero unless the number is 0 |
| `Strings.NatTextValue` | src/pages/Todo.tsx:41 | the printed text, read back digit by digit from the left (`DigitsValue`), is the number printed |
| `Strings.NatTextInjective` | src/pages/Todo.tsx:41 | distinct numbers print as distinct texts |
| `Todo.LoadPlan` | src/pages/Todo.tsx:39-45 | item k has id "plan-k", the k-th text and the k-th completed flag, one item per text |
| `Todo.PlanId` | src/pages/Todo.tsx:41 | the id is "plan-" followed by decimal digits only |
| `Todo.PlanIdInjective` | src/pages/Todo.tsx:41 | distinct positions get distinct plan ids |
| `Todo.LoadPlanUniqueIds` | src/pages/Todo.tsx:39-45 | no two items of a loaded plan share an id, so the toggle-by-id lemmas apply to it |
| `Todo.CompletedAt` | src/pages/Todo.tsx:43 | the k-th stored completed flag, defined directly; a flag missing from a shorter array reads as unchecked |
| `Todo.ToPlanRow` | src/pages/Todo.tsx:83-84 | the written-back text and completed arrays are aligned with the items |
| `Todo.PlanRowRoundTrip` | src/pages/Todo.tsx:39-84 | loading a stored row and writing it back gives the same row; writing loaded items back and loading them gives the same items |
| `Todo.TogglePrefix` | src/pages/Todo.tsx:77-80 | length, ids, texts and types are kept; every item at position ≤ index is flipped and every later one is unchanged |
| `Todo.TogglePrefixTwice` | src/pages/Todo.tsx:77-80 | the same toggle twice restores the list |
| `Todo.TogglePrefixKeepsTexts` | src/pages/Todo.tsx:77-84 | the text array written back is unchanged and the completed array stays aligned with it |
| `Todo.ToggleAfterCheckedPrefix` | src/pages/Todo.tsx:77-80 | with the first m days checked, toggling day index ≥ m leaves exactly days m..index checked |
| `Todo.ToggleFromUnchecked` | src/pages/Todo.tsx:77-80 | from an unchecked plan, toggling day index checks exactly the days up to it |
| `Todo.Flip` | src/pages/Todo.tsx:132 | only the completed flag changes, and it is negated |
| `Todo.ToggleById` | src/pages/Todo.tsx:128-138 | items with other ids are unchanged; an unknown id changes nothing; every item with the id becomes the flipped first match |
| `Todo.ToggleByIdFlipsOne` | src/pages/Todo.tsx:128-138 | with unique ids, exactly the item with the id is flipped |
| `Todo.ToggleByIdTwice` | src/pages/Todo.tsx:128-138 | with unique ids, toggling the same id twice restores the list |
| `Todo.DeleteById` | src/pages/Todo.tsx:143 | no item with the id remains, every item with another id remains, and nothing new appears |
| `Todo.DeleteByIdAppend` | src/pages/Todo.tsx:143 | deleting distributes over concatenation, so the kept items stay in order |
| `Todo.DeleteUnknownId` | src/pages/Todo.tsx:143 | deleting an id no item has changes nothing |
| `Todo.AddThenDelete` | src/pages/Todo.tsx:114-143 | appending a task under a fresh id and deleting that id restores the list |
| `Todo.TodoPage.constructor` | src/pages/Todo.tsx:22-24 | both lists start empty and the input is blank |
| `Todo.TodoPage.LoadPlanRows` | src/pages/Todo.tsx:27-49 | with a user and at least one plan row, the plan list is the first row loaded; otherwise nothing changes |
| `Todo.TodoPage.TogglePlanItem` | src/pages/Todo.tsx:75-90 | with a user and a non-empty plan the plan list is prefix-toggled; otherwise nothing changes |
| `Todo.TodoPage.ResetPlanTodos` | src/pages/Todo.tsx:92-96 | with a user the plan list becomes empty |
| `Todo.TodoPage.SetNewTask` | src/pages/Todo.tsx:236 | sets the input text |
| `Todo.TodoPage.AddNewTask` | src/pages/Todo.tsx:98-126 | a non-blank task with a user and a successful insert is appended once, unchecked, under the new row's id, and the input is cleared; otherwise nothing changes |
| `Todo.TodoPage.ToggleCustom` | src/pages/Todo.tsx:128-139 | with a user the custom list becomes `ToggleById`; otherwise nothing changes |
| `Todo.TodoPage.DeleteCustom` | src/pages/Todo.tsx:141-144 | the custom list loses exactly the items with the id |
| `Portfolio.SelectedOnly` | src/pages/Portfolio.tsx:168 | exactly the selected holdings are kept |
| `Portfolio.SelectedOnlyAppend` | src/pages/Portfolio.tsx:168 | the filter distributes over concatenation, so the selected holdings keep their order |
| `Portfolio.TotalValue` | src/pages/Portfolio.tsx:167-170 | `filter(isSelected)` then the sum of `value`, defined directly; `TotalValueIsSumOfShares`, `TotalValueAppend` and `NothingSelectedTotalsZero` state what it means |
| `Portfolio.TotalValueIsSumOfShares` | src/pages/Portfolio.tsx:167-170 | the total is the sum of shares, a share being the value of a selected holding and 0 for an unselected one |
| `Portfolio.TotalValueAppend` | src/pages/Portfolio.tsx:167-170 | the total of two lists joined is the sum of their totals |
| `Portfolio.NothingSelectedTotalsZero` | src/pages/Portfolio.tsx:167-170 | with nothing selected the total is 0 |
| `Portfolio.NewCoin` | src/pages/Portfolio.tsx:85-93 | the new holding is selected, carries the looked-up id, name, symbol and price, and its value is price × quantity |
| `Portfolio.AddedCoinRaisesTotal` | src/pages/Portfolio.tsx:85-106 | appending the new holding raises the total by price × quantity |
| `Portfolio.Refresh` | src/pages/Portfolio.tsx:144-156 | a failed request keeps the holding; otherwise the price is the quote or, without one, the stored price, and the value is recomputed as price × quantity; other fields are kept |
| `Portfolio.RefreshWithoutQuoteKeepsConsistent` | src/pages/Portfolio.tsx:148-152 | refreshing a consistent holding without a new quote leaves it as it was |
| `Portfolio.RefreshAll` | src/pages/Portfolio.tsx:143-158 | holding i is refreshed with quote i, in order |
| `Portfolio.FlipSelected` | src/pages/Portfolio.tsx:115 | the selection flag is negated; id, symbol, name, price, quantity and value are unchanged |
| `Portfolio.ToggleSelection` | src/pages/Portfolio.tsx:111-118 | holdings with other ids are unchanged; an unknown id changes nothing; every holding with the id becomes the flipped first match |
| `Portfolio.ToggleFlipsOne` | src/pages/Portfolio.tsx:111-118 | with unique ids, exactly the holding with the id is flipped |
| `Portfolio.FlipChangesTotalByShare` | src/pages/Portfolio.tsx:167-170 | flipping one holding changes the total by its share before and after |
| `Portfolio.ToggleChangesTotal` | src/pages/Portfolio.tsx:111-118 | with unique ids, toggling a selected holding takes its value off the total and toggling an unselected one adds it |
| `Portfolio.LeadingZeros` | src/pages/Portfolio.tsx:176 | the count is the length of the run of '0' the fraction starts with |
| `Portfolio.JsSubstring` | src/pages/Portfolio.tsx:179 | never longer than the string; with both ends in range it is the slice between them in either order; an end past the string is clamped to its length |
| `Portfolio.JsSubstringSymmetric` | src/pages/Portfolio.tsx:179 | exchanging the two ends gives the same substring |
| `Portfolio.FormatPriceAsWritten` | src/pages/Portfolio.tsx:172-187 | as written: two decimals exactly when the price is ≥ 1, plain exactly when it is < 1 with up to 2 leading zeros, the marker exactly when it is < 1 with more; in the marker case the marker counts the leading zeros and the digits are the fraction from the zeros to its sixth digit, or, with more than six zeros, the swapped slice from the sixth digit to the end of the zeros; a fraction shorter than six digits shows all of it after the zeros |
| `Portfolio.AsWrittenShowsSixDigits` | src/pages/Portfolio.tsx:174-185 | as written, with 3 to 6 leading zeros the marker and digits read as the first six fraction digits |
| `Portfolio.AsWrittenMisreadsSevenZeros` | src/pages/Portfolio.tsx:179-185 | as written, fraction "00000005" renders as 7 zeros followed by "0", a reading that is not the fraction's |
| `Portfolio.FormatPrice` | src/pages/Portfolio.tsx:172-187 | two decimals exactly when the price is ≥ 1, plain exactly when it is < 1 with up to 2 leading zeros, the marker exactly when it is < 1 with more; the marker counts the leading zeros and the digits are exactly the (up to six) fraction digits that follow them, starting with a non-zero one (corrected rendering, see Findings) |
| `Portfolio.CorrectionShowsMoreDigits` | src/pages/Portfolio.tsx:179 | the correction also changes three to six leading zeros: for fraction "00012345" the code as written shows marker 3 and "123", the corrected rendering marker 3 and "12345" |
| `Portfolio.PortfolioPage.constructor` | src/pages/Portfolio.tsx:32-37 | the list starts empty, the add form blank and the dialog closed |
| `Portfolio.PortfolioPage.FetchCoins` | src/pages/Portfolio.tsx:135-165 | with a user the list is the stored rows refreshed with their quotes, and every holding is consistent when no request failed |
| `Portfolio.PortfolioPage.SetNewCoin` | src/pages/Portfolio.tsx:229-236 | sets the add form's name and quantity |
| `Portfolio.PortfolioPage.OpenDialog` | src/pages/Portfolio.tsx:217 | opens the add dialog |
| `Portfolio.PortfolioPage.HandleAddCoin` | src/pages/Portfolio.tsx:70-109 | an empty name, an unparsable quantity, no user or a failed lookup change nothing; otherwise the holding is appended when the upsert succeeded, and the form is cleared and the dialog closed either way; consistency is kept |
| `Portfolio.PortfolioPage.ToggleCoinSelection` | src/pages/Portfolio.tsx:111-125 | with a user the list becomes `ToggleSelection`; otherwise nothing changes |
| `Portfolio.PortfolioPage.ResetCoins` | src/pages/Portfolio.tsx:127-133 | with a user and a confirmed prompt the list is emptied and the total is 0; otherwise nothing changes |
| `Dashboard.PriceOrZero` | src/pages/Dashboard.tsx:66 | a coin without a quote is priced 0 |
| `Dashboard.UsdValue` | src/pages/Dashboard.tsx:63-68 | the USD value of the holdings at the quoted prices, defined by recursion; `SumHoldings` is proved against it and the lemmas below describe it |
| `Dashboard.UsdValueAppend` | src/pages/Dashboard.tsx:63-68 | the valuation of two lists joined is the sum of their valuations |
| `Dashboard.UnquotedHoldingAddsNothing` | src/pages/Dashboard.tsx:66-67 | a holding without a quote adds nothing to the total |
| `Dashboard.UsdValueFront` | src/pages/Dashboard.tsx:63-68 | the total is the first holding's price × quantity plus the total of the rest |
| `Dashboard.SumHoldings` | src/pages/Dashboard.tsx:63-68 | the loop's total is the sum of price × quantity over the holdings |
| `Dashboard.ValidIds` | src/pages/Dashboard.tsx:45-47 | every empty id is dropped and every non-empty id is kept, nothing else appears; the list is empty exactly when every id was empty |
| `Dashboard.ValidIdsAppend` | src/pages/Dashboard.tsx:45-47 | the filter distributes over concatenation, so the kept ids stay in order |
| `Dashboard.CoinIds` | src/pages/Dashboard.tsx:45-48 | the comma-joined list of the non-empty ids, defined directly; `CoinIdsEmptyIff` states when it is empty |
| `Dashboard.CoinIdsEmptyIff` | src/pages/Dashboard.tsx:45-54 | the joined id list is empty exactly when no holding has a non-empty id |
| `Dashboard.BtcPrice` | src/pages/Dashboard.tsx:71 | the bitcoin quote when it is present and non-zero, 1 otherwise |
| `Dashboard.DashboardPage.constructor` | src/pages/Dashboard.tsx:19-20 | both totals start at 0 |
| `Dashboard.DashboardPage.FetchPortfolio` | src/pages/Dashboard.tsx:29-79 | no user or a store error keeps the totals; no valid id sets both to 0; a failed price request keeps them; otherwise USD is the fold over the holdings and BTC is USD over the bitcoin price |

## Findings

| source | as written | input that shows it | evidently intended | confidence | as-written member | corrected member |
|---|---|---|---|---|---|---|
| src/pages/Portfolio.tsx:179 | `after.substring(leadingZeros, 6)`. With 7 or 8 leading zeros the start is past the end, and JavaScript's `substring` swaps them, so it returns `after[6..7]` or `after[6..8]` | price 0.00000005, whose `toFixed(8)` fraction is "00000005". It renders as marker 0x7 followed by "0", showing eight zero digits where the eighth digit is 5 | show the next six digits after the leading zeros: `after.substring(leadingZeros, leadingZeros + 6)`. This also changes prices with three to six leading zeros, which as written stop at the sixth fraction digit: "00012345" shows "123" as written and "12345" corrected (`Portfolio.CorrectionShowsMoreDigits`) | medium, not executed | `Portfolio.AsWrittenMisreadsSevenZeros` | `Portfolio.FormatPrice` |

Other behaviour the model keeps as written:
- Close-price mode reports the size of the price move whatever its direction.
  A losing move shows the same profit as a winning one
  (`PositionCalculator.CloseModeIgnoresDirection`).
- The plan toggle flips items; it does not extend the checked range. With
  days 1..m checked, clicking a later day unchecks days 1..m
  (`Todo.ToggleAfterCheckedPrefix`).
- `toggleCustom` and `toggleCoinSelection` replace every entry that has the
  id with a flipped copy of the first such entry. When ids are unique this
  flips exactly one entry.
- A daily rate between -200% and 0 never reaches a target above a
  non-negative start, so the loop runs the full 365 days
  (`DailyCompounding.NonPositiveRateHitsCeiling`). Between -200% and -100% the
  amount alternates in sign without growing in size. Below -200% it
  alternates and grows, and it can reach the target early
  (`DailyCompounding.SteepLossCanReachTarget`). So a non-positive rate does
  not always run 365 days: that holds for rates down to -200% only.

## Left out

- Remote calls are not modelled: the hosted store, authentication and the
  price API (search, coin details, markets, simple price). Each becomes an
  outcome parameter. Their async ordering and `Promise.all` fan-out are left
  out as well.
- `parseFloat`, `toFixed`, `toLocaleString`, `Intl.NumberFormat` and the
  printing of a JavaScript number are left out, as are IEEE-754 rounding,
  NaN and Infinity. Parsed values are parameters. `Portfolio.FormatPrice`
  takes the fraction digits of `toFixed(8)` as an input. The `Plain` and
  `TwoDecimals` renderings are named, not spelled out.
- Division by zero is excluded by preconditions, where the page would produce
  Infinity or NaN: open price in close-price mode, position size in
  required-profit mode, and the to-coin price in the conversion.
- `Strings.ToLower`, `Strings.ToUpper`: case mapping covers ASCII letters
  only. The symbol filter admits only ASCII letters, but coin names may hold
  other letters, which the page's `toLowerCase` would also lower.
- `Strings.Trim`: trims ASCII white space, the no-break space and the
  byte-order mark. It does not cover the other Unicode space characters that
  `trim` removes.
- `Todo.CompletedAt`: a completed flag missing from a shorter stored array
  reads as unchecked. The page would hold `undefined` there.
- `Todo.TodoPage.AddNewTask` takes the inserted row's text to be the task
  text. The page reads it back from the store's answer.
- The custom-task loader (`loadCustom`, src/pages/Todo.tsx:52-73) is left
  out. It reads the first element of each stored array, and the store does not
  guarantee those elements exist.
- The daily-compounding page's form state is left out: its input fields, its
  Calculate-button rule, `resetCalculator` and the result/showResult fields.
  The loop and the exported payload are modelled. After the insert, the page
  only handles navigation.
- `DailyCompounding.CalculateCompounding` returns the result record; the page
  stores it in `result` and sets `showResult`.
- The page's handling of a missing user in `addToTodoList` is left out.
  Without a user it simply does nothing.
- Rendering, CSS, navigation, dialogs, `alert` and `confirm` are left out.
  Confirmation is a boolean input. So are the pages Auth, Profile,
  ResetPassword and NotFound, App, both ProtectedRoute files and the useAuth
  hook. They hold routing and session gating, with no local logic.
- The 70-day example (100 → 200 at 1% a day) is not proved. It would need
  exact powers of 1.01 with 140-digit numerators.
