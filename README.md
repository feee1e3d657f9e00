# Daily stock trade processing — a Dafny model

This project models `ProcessStockDataAction`, the processing core of the
StockTrading repository. The core takes a list of trade records (`Stock`) and
does two things per settlement date:

- **Day amount.** It keeps the trades of one direction: buys (`B`) are
  outgoing and sells (`S`) are incoming. It groups them by settlement date and
  sums their total trade amounts exactly, starting from zero.
- **Day ranking.** It keeps the trades of one direction and groups them into a
  *set* per settlement date, so records equal by value collapse into one. It
  sorts each date's set by amount, largest first, and numbers the sorted
  records 1, 2, 3, … with a counter. One `StockRanking(rank, entity, date)` per
  record is appended to a shared result list.

Layout, one module per file:

- `stock_model.dfy`, module `StockModel`: the `Stock` record, `OrderType`,
  `LocalDate` and `StockRanking`.
- `direction_filter.dfy`, module `DirectionFilter`: the two direction
  predicates and the stream `filter` step.
- `day_amount.dfy`, module `DayAmount`: the aggregation. It is pure code,
  modelled as functions. The `groupingBy`/`reducing` collector is a fold over
  the filtered records, and it is proved equal to an independent per-date
  total `DayTotal`.
- `day_ranking.dfy`, module `DayRanking`: the ranking. It is imperative code,
  modelled as methods.
  - `ComputeDayRanking` loops over the date groups and appends to a result
    list, which only grows.
  - `ComputeSortingAndRanking` sorts one date's set and numbers it with a
    counter.
  - A date is picked from the pending dates by nondeterministic choice
    (`:|`). This models the unspecified `HashMap.forEach` order.
  - The sort takes a largest remaining record next, again by `:|`. This models
    the unspecified order among equal amounts that the `HashSet` iteration
    order leaves.
  - A ghost out-parameter `orders` records, for each date, the sorted records
    behind the results, because a `StockRanking` carries no amount.
- `process_stock_data_action.dfy`, module `ProcessStockDataAction`: the four
  public `compute*` operations and the direction-isolation lemmas.

Modelling choices:

- **Amounts** are `real`, an exact quantity standing in for `BigDecimal`.
- **Dates** are a `LocalDate(year, month, day)` value.
- **Settlement date** is the plain field `updatedSettlementDate`.
- **Record equality** is structural. It stands in for `Stock.equals` in the
  set collector, which is assumed to compare the records by value (see
  "Left out").
- **Predicates** are passed as `Stock -> bool` values, as the source passes
  `Predicate<Stock>`.
- **Names** keep the source's spelling (`ComputeDayAmoutTransaction`,
  `ComputeIncomingDayAmout`, `couter`).

## Model

| member | source | states |
|---|---|---|
| DirectionFilter.PredicateOutgoing | src/main/java/com/jpmorgan/daily/trade/action/ProcessStockDataAction.java:37 | a record is outgoing exactly when its order type is not S, i.e. exactly the buys |
| DirectionFilter.PredicateIncoming | src/main/java/com/jpmorgan/daily/trade/action/ProcessStockDataAction.java:42 | a record is incoming exactly when its order type is not B, i.e. exactly the sells |
| DirectionFilter.DirectionsAreComplementary | src/main/java/com/jpmorgan/daily/trade/action/ProcessStockDataAction.java:37-42 | a record is outgoing (order type B) exactly when it is not incoming (order type S) |
| DirectionFilter.Filter | src/main/java/com/jpmorgan/daily/trade/action/ProcessStockDataAction.java:85 | the filter step keeps exactly the input records the predicate accepts, and no more records than the input has |
| DirectionFilter.FilterKeepsOccurrences | src/main/java/com/jpmorgan/daily/trade/action/ProcessStockDataAction.java:85 | the filter keeps every accepted record at each of its occurrences: an accepted record occurs in the output exactly as often as in the input, a rejected one not at all |
| DirectionFilter.FilterAppend | src/main/java/com/jpmorgan/daily/trade/action/ProcessStockDataAction.java:85 | filtering a concatenation is the concatenation of the filtered parts |
| DirectionFilter.FilterRejectsAll | src/main/java/com/jpmorgan/daily/trade/action/ProcessStockDataAction.java:85 | when the predicate accepts no input record, the filter yields nothing |
| DirectionFilter.RejectedRecordIgnored | src/main/java/com/jpmorgan/daily/trade/action/ProcessStockDataAction.java:85 | a record the predicate rejects can be removed from any position without changing the filter's output |
| DirectionFilter.DirectionsPartition | src/main/java/com/jpmorgan/daily/trade/action/ProcessStockDataAction.java:37-42 | together, the outgoing and incoming selections are exactly as long as the input: every record goes to exactly one direction |
| DayAmount.Accumulate | src/main/java/com/jpmorgan/daily/trade/action/ProcessStockDataAction.java:86-88 | one collector step adds the record's date to the keys and adds the record's amount to that date's running total (zero if the date is new); every other date keeps its total |
| DayAmount.Reduce | src/main/java/com/jpmorgan/daily/trade/action/ProcessStockDataAction.java:86-88 | running the grouping-and-reducing collector over the records adds exactly the records' settlement dates as keys |
| DayAmount.ReduceSumsPerDate | src/main/java/com/jpmorgan/daily/trade/action/ProcessStockDataAction.java:86-88 | running the grouping-and-reducing collector adds to each date's running total (zero if new) the exact total of that date's records |
| DayAmount.ComputeDayAmoutTransaction | src/main/java/com/jpmorgan/daily/trade/action/ProcessStockDataAction.java:82-89 | the keys are exactly the settlement dates of the selected records (no missing date, no zero entry for an absent date); each value is the exact sum of the amounts of the selected records of that date |
| DayAmount.NoMatchNoDays | src/main/java/com/jpmorgan/daily/trade/action/ProcessStockDataAction.java:84-88 | with no record the predicate selects, including an empty input, the aggregation is the empty map |
| DayAmount.DayTotalAppend | src/main/java/com/jpmorgan/daily/trade/action/ProcessStockDataAction.java:87-88 | a day's total over a concatenation is the sum of the parts' totals |
| DayAmount.DayTotalPermutation | src/main/java/com/jpmorgan/daily/trade/action/ProcessStockDataAction.java:87-88 | a day's total is the same for any reordering of the records |
| DayAmount.FilterPermutation | src/main/java/com/jpmorgan/daily/trade/action/ProcessStockDataAction.java:85 | filtering two reorderings of one input gives reorderings of one output |
| DayAmount.DayAmountOrderIndependent | src/main/java/com/jpmorgan/daily/trade/action/ProcessStockDataAction.java:84-88 | the aggregation depends only on the multiset of input records, not on their order |
| DayRanking.CollectInto | src/main/java/com/jpmorgan/daily/trade/action/ProcessStockDataAction.java:100 | one grouping-into-sets step adds the record's date to the keys and the record to that date's set (empty if the date is new); every other date keeps its set |
| DayRanking.Collect | src/main/java/com/jpmorgan/daily/trade/action/ProcessStockDataAction.java:100 | running the grouping-into-sets collector over the records adds exactly the records' settlement dates as keys |
| DayRanking.CollectGroupsPerDate | src/main/java/com/jpmorgan/daily/trade/action/ProcessStockDataAction.java:100 | running the grouping-into-sets collector adds each record to the set of its own date, and nothing else |
| DayRanking.GroupBySettlementDate | src/main/java/com/jpmorgan/daily/trade/action/ProcessStockDataAction.java:100 | one key per settlement date present; under each, the set of distinct records of that date |
| DayRanking.HasLargest | src/main/java/com/jpmorgan/daily/trade/action/ProcessStockDataAction.java:116 | every non-empty set of records has a member whose amount is at least every other member's |
| DayRanking.SortByAmountDescending | src/main/java/com/jpmorgan/daily/trade/action/ProcessStockDataAction.java:115-116 | the sorted list holds every record of the set exactly once, and its amounts do not increase |
| DayRanking.ComputeSortingAndRanking | src/main/java/com/jpmorgan/daily/trade/action/ProcessStockDataAction.java:110-124 | for one date: the earlier results are kept unchanged (append only); one result is appended per record of the date's set; the appended results number that set's descending order 1, 2, 3, … and carry each record's entity and the group's date |
| DayRanking.RankingsOnAppend | src/main/java/com/jpmorgan/daily/trade/action/ProcessStockDataAction.java:119 | the results about one date in an appended list are the old list's results about it followed by the new block's |
| DayRanking.RanksDatesStep | src/main/java/com/jpmorgan/daily/trade/action/ProcessStockDataAction.java:101-119 | appending a new date's numbered block ranks that date and leaves every date already ranked as it was |
| DayRanking.RankingLoopStep | src/main/java/com/jpmorgan/daily/trade/action/ProcessStockDataAction.java:100-101 | one date-group pass of the loop keeps its invariant: the dates done are ranked, no other date appears, and there is one result per distinct record of the dates done |
| DayRanking.ComputeDayRanking | src/main/java/com/jpmorgan/daily/trade/action/ProcessStockDataAction.java:97-103 | the result ranks each settlement date of the selected records by its distinct records sorted largest first, numbered 1..k in that order; no other date appears; the length is the number of distinct selected records |
| DayRanking.RankedResultSource | src/main/java/com/jpmorgan/daily/trade/action/ProcessStockDataAction.java:117 | every result's date is a date of the selected records; its rank lies between 1 and that date's distinct-record count; its entity is that of the record at position rank in the date's descending order, which is a selected record of that date |
| DayRanking.RanksIncreaseWithinDate | src/main/java/com/jpmorgan/daily/trade/action/ProcessStockDataAction.java:113-117 | among results about one date, later results have larger ranks, so no rank repeats within a date |
| DayRanking.RanksAreContiguous | src/main/java/com/jpmorgan/daily/trade/action/ProcessStockDataAction.java:113-117 | the ranks given for a date are exactly 1..k, where k is the number of distinct selected records of that date |
| DayRanking.RanksFollowAmounts | src/main/java/com/jpmorgan/daily/trade/action/ProcessStockDataAction.java:116-117 | of two results about one date, the smaller rank stands for a record whose amount is at least the other's |
| DayRanking.EmptyRanking | src/main/java/com/jpmorgan/daily/trade/action/ProcessStockDataAction.java:99-102 | with no selected record, the ranking is empty |
| ProcessStockDataAction.ComputeIncomingDayAmout | src/main/java/com/jpmorgan/daily/trade/action/ProcessStockDataAction.java:47-50 | a date is a key exactly when some sell (S) settles on it; its value is the exact total of the sells of that date |
| ProcessStockDataAction.ComputeOutgoingDayAmout | src/main/java/com/jpmorgan/daily/trade/action/ProcessStockDataAction.java:55-58 | a date is a key exactly when some buy (B) settles on it; its value is the exact total of the buys of that date |
| ProcessStockDataAction.RankingFromSelected | src/main/java/com/jpmorgan/daily/trade/action/ProcessStockDataAction.java:100-117 | every result of a ranking carries the entity and date of some input record the predicate selects |
| ProcessStockDataAction.NothingSelectedNothingRanked | src/main/java/com/jpmorgan/daily/trade/action/ProcessStockDataAction.java:99-102 | a ranking with one result per distinct selected record is empty when nothing is selected |
| ProcessStockDataAction.ComputeIncomingDayRanking | src/main/java/com/jpmorgan/daily/trade/action/ProcessStockDataAction.java:63-66 | the result is a day ranking of the sells; every result comes from a sell of its date; there is one result per distinct sell; with no sell the list is empty |
| ProcessStockDataAction.ComputeOutgoingDayRanking | src/main/java/com/jpmorgan/daily/trade/action/ProcessStockDataAction.java:71-74 | the result is a day ranking of the buys; every result comes from a buy of its date; there is one result per distinct buy; with no buy the list is empty |
| ProcessStockDataAction.OutgoingIgnoresSells | src/main/java/com/jpmorgan/daily/trade/action/ProcessStockDataAction.java:37 | a sell inserted anywhere in the input changes neither the buy totals nor which lists are valid buy rankings |
| ProcessStockDataAction.IncomingIgnoresBuys | src/main/java/com/jpmorgan/daily/trade/action/ProcessStockDataAction.java:42 | a buy inserted anywhere in the input changes neither the sell totals nor which lists are valid sell rankings |
| ProcessStockDataAction.EmptyInputNoDays | src/main/java/com/jpmorgan/daily/trade/action/ProcessStockDataAction.java:48-57 | an empty input gives an empty map in both directions |

## Left out

- `StockTradingException`: no statement in the core raises it. The `try`/`catch` around the per-date step only rethrows it, so the model has no error path.
- `Stock`, `OrderType` and `StockRanking` are not part of this model, so their fields are modelled from the accessors the core calls.
  - Only the four fields the core reads are modelled.
  - `Stock.equals` is assumed to be value equality over those fields. If it also compares other fields, records that differ only there would collapse in the model's sets but not in the source's. If `Stock` keeps identity equality instead, the source's sets never collapse two records, and the model's one-result-per-distinct-record count is then smaller than the source's for equal records.
- How `getUpdatedSettlementDate` and `getTotalTradeAmt` are derived is not part of this model; both are assumed to be plain stored values and are modelled as fields.
- Filter: its own contract states membership and a length bound only; how often each record occurs in the output is stated by the separate lemma `FilterKeepsOccurrences`, because as an `ensures` of `Filter` that quantifier made every use of `Filter` markedly more expensive to verify.
- `BigDecimal` scale is not modelled. Amounts are exact reals, so `1.0` and `1.00` are equal here. In the source, `BigDecimal.equals` is scale-sensitive, so two records differing only in an amount's scale stay distinct in the `HashSet`.
- `ComputeSortingAndRanking`: the shared `ArrayList` is passed in and the extended list is returned. The in-place `addAll` through an alias is not modelled.
- `ComputeSortingAndRanking`: the `AtomicInteger` counter is modelled as an unbounded integer. Wrap-around after 2^31 − 1 results is not modelled.
- `SortByAmountDescending` does not follow the stream's own sort algorithm. It repeatedly takes a largest remaining record, choosing freely among equal amounts. This gives exactly the orders a stable sort can produce from an unspecified set iteration order.
- `ComputeDayRanking` does not state an order across dates: the source's `HashMap.forEach` order is unspecified. For the same reason, the order among records of equal amount within a date is left open.
- The ranking operations are nondeterministic, so direction isolation for rankings is stated on the specification predicate `IsDayRankingOf`, not as equality of two runs' outputs.
- Null values are not modelled; the model has none. In the source:
  - A null list or a null record raises `NullPointerException` (:84, :37/:42 of `ProcessStockDataAction.java`).
  - So do a null order type (:37/:42) and a null settlement date, because `groupingBy` rejects null keys (:86/:100).
  - A null amount raises on the amount path, where it is added (:88). On the ranking path it raises only when the comparator compares it, i.e. when its date's set holds two or more records (:116).
  - A null entity is never dereferenced: it is copied into `StockRanking` unchanged (:117).
- The interface `IProcessStockData` that the class implements is not part of this model.
