/** The day ranker: the filtered records are grouped by settlement date into
    sets (so records equal by value collapse into one), each date's set is
    sorted by amount, largest first, and numbered 1, 2, 3, ...; the numbered
    results of every date are appended to one output list. */
module DayRanking {
  import opened StockModel
  import opened DirectionFilter

  /** The distinct records of `xs`. */
  function DistinctRecords(xs: seq<Stock>): set<Stock> {
    set s | s in xs
  }

  /** The distinct records of `xs` that settle on `date`. */
  function DayGroup(xs: seq<Stock>, date: LocalDate): set<Stock> {
    set s | s in xs && s.updatedSettlementDate == date
  }

  /** The distinct records of `xs` that settle on one of `dates`. */
  function RecordsOn(xs: seq<Stock>, dates: set<LocalDate>): set<Stock> {
    set s | s in xs && s.updatedSettlementDate in dates
  }

  /** One step of the grouping-into-sets collector: the record joins the set
      of its date, which starts empty when the date is new. */
  function CollectInto(acc: map<LocalDate, set<Stock>>, s: Stock): (r: map<LocalDate, set<Stock>>)
    ensures r.Keys == acc.Keys + SettlementDates([s])
    ensures forall date | date in r :: r[date] == (if date in acc then acc[date] else {}) + DayGroup([s], date)
  {
    var date := s.updatedSettlementDate;
    acc[date := (if date in acc then acc[date] else {}) + {s}]
  }

  /** The grouping-into-sets collector run over `xs`, element by element,
      from `acc`: it adds exactly the dates of `xs` to the keys. */
  function Collect(acc: map<LocalDate, set<Stock>>, xs: seq<Stock>): (r: map<LocalDate, set<Stock>>)
    ensures r.Keys == acc.Keys + SettlementDates(xs)
    decreases |xs|
  {
    if xs == [] then acc
    else
      SettlementDatesStep(xs);
      Collect(CollectInto(acc, xs[0]), xs[1..])
  }

  /** Running the collector adds each record of `xs` to the set of its own
      date. */
  lemma {:induction false} CollectGroupsPerDate(acc: map<LocalDate, set<Stock>>, xs: seq<Stock>)
    ensures forall date | date in Collect(acc, xs) ::
      Collect(acc, xs)[date] == (if date in acc then acc[date] else {}) + DayGroup(xs, date)
    decreases |xs|
  {
    if xs != [] {
      var next := CollectInto(acc, xs[0]);
      CollectGroupsPerDate(next, xs[1..]);
      forall date | date in Collect(acc, xs)
        ensures Collect(acc, xs)[date] == (if date in acc then acc[date] else {}) + DayGroup(xs, date)
      {
        DayGroupStep(xs, date);
      }
    }
  }

  /** The records of a non-empty input on a date are its first record, if it
      settles then, and the rest's. */
  lemma DayGroupStep(xs: seq<Stock>, date: LocalDate)
    requires xs != []
    ensures DayGroup(xs, date) ==
      (if xs[0].updatedSettlementDate == date then {xs[0]} else {}) + DayGroup(xs[1..], date)
  {
    assert forall s :: s in xs <==> s == xs[0] || s in xs[1..];
  }

  /** The records grouped into a set per settlement date: one key per date
      that occurs, and under it every distinct record of that date. */
  function GroupBySettlementDate(xs: seq<Stock>): (groups: map<LocalDate, set<Stock>>)
    ensures groups.Keys == SettlementDates(xs)
    ensures forall date | date in groups :: groups[date] == DayGroup(xs, date)
  {
    CollectGroupsPerDate(map[], xs);
    Collect(map[], xs)
  }

  /** `order` lists every record of `group` exactly once, largest amount first
      (records of equal amount in any order). */
  ghost predicate IsDescendingArrangement(order: seq<Stock>, group: set<Stock>) {
    && |order| == |group|
    && (forall s :: s in order <==> s in group)
    && (forall i, j | 0 <= i < j < |order| :: order[i] != order[j])
    && (forall i, j | 0 <= i < j < |order| :: order[i].totalTradeAmt >= order[j].totalTradeAmt)
  }

  /** `top` is a record of `group` with the largest amount. */
  predicate IsLargest(top: Stock, group: set<Stock>) {
    top in group && forall s | s in group :: s.totalTradeAmt <= top.totalTradeAmt
  }

  /** Every non-empty set of records has one of largest amount. */
  lemma HasLargest(group: set<Stock>) returns (top: Stock)
    requires group != {}
    ensures IsLargest(top, group)
  {
    var x :| x in group;
    if group == {x} {
      top := x;
    } else {
      var y := HasLargest(group - {x});
      top := if x.totalTradeAmt <= y.totalTradeAmt then y else x;
    }
  }

  /** The descending sort of one date's set: the largest remaining record is
      taken next, whichever of several equal ones the choice falls on. */
  method SortByAmountDescending(group: set<Stock>) returns (order: seq<Stock>)
    ensures IsDescendingArrangement(order, group)
  {
    order := [];
    var rest := group;
    while rest != {}
      invariant rest <= group
      invariant |order| + |rest| == |group|
      invariant forall s :: s in order <==> s in group && s !in rest
      invariant forall i, j | 0 <= i < j < |order| :: order[i] != order[j]
      invariant forall i, j | 0 <= i < j < |order| :: order[i].totalTradeAmt >= order[j].totalTradeAmt
      invariant forall i, s | 0 <= i < |order| && s in rest :: order[i].totalTradeAmt >= s.totalTradeAmt
      decreases |rest|
    {
      ghost var largest := HasLargest(rest);
      var top :| IsLargest(top, rest);
      assert IsLargest(top, rest);
      order := order + [top];
      rest := rest - {top};
    }
  }

  /** `block` numbers the records of `order` 1, 2, 3, ... in that order,
      each result carrying the record's entity and the group's date. */
  ghost predicate RanksInOrder(block: seq<StockRanking>, order: seq<Stock>, date: LocalDate) {
    && |block| == |order|
    && forall i | 0 <= i < |block| :: block[i] == StockRanking(i + 1, order[i].entity, date)
  }

  /** The per-date step: sorts the date's set descending, numbers it from 1
      with a counter, and appends the numbered results to `rankingObj`,
      leaving what is already there untouched. `order` is the sorted set. */
  method ComputeSortingAndRanking(rankingObj: seq<StockRanking>, date: LocalDate, stocks2: set<Stock>)
    returns (result: seq<StockRanking>, ghost order: seq<Stock>)
    ensures IsDescendingArrangement(order, stocks2)
    ensures |result| == |rankingObj| + |stocks2|
    ensures result[..|rankingObj|] == rankingObj
    ensures RanksInOrder(result[|rankingObj|..], order, date)
  {
    var sorted := SortByAmountDescending(stocks2);
    var couter := 1;
    var ranking: seq<StockRanking> := [];
    for i := 0 to |sorted|
      invariant couter == i + 1
      invariant RanksInOrder(ranking, sorted[..i], date)
    {
      ranking := ranking + [StockRanking(couter, sorted[i].entity, date)];
      couter := couter + 1;
    }
    assert sorted[..|sorted|] == sorted;
    result := rankingObj + ranking;
    assert result[..|rankingObj|] == rankingObj;
    assert result[|rankingObj|..] == ranking;
    order := sorted;
  }

  /** The results of `rs` that are about `date`, in output order. */
  function RankingsOn(rs: seq<StockRanking>, date: LocalDate): (on: seq<StockRanking>)
    ensures |on| <= |rs|
    ensures forall r :: r in on <==> r in rs && r.date == date
  {
    if rs == [] then []
    else (if rs[0].date == date then [rs[0]] else []) + RankingsOn(rs[1..], date)
  }

  /** Selecting one date's results distributes over concatenation. */
  lemma {:induction false} RankingsOnAppend(a: seq<StockRanking>, b: seq<StockRanking>, date: LocalDate)
    ensures RankingsOn(a + b, date) == RankingsOn(a, date) + RankingsOn(b, date)
  {
    if a == [] {
      assert a + b == b;
    } else {
      assert (a + b)[1..] == a[1..] + b;
      RankingsOnAppend(a[1..], b, date);
    }
  }

  /** A block whose results all carry `day` is all of `day`'s results and
      none of any other date's. */
  lemma {:induction false} RankingsOnOneDay(block: seq<StockRanking>, day: LocalDate, date: LocalDate)
    requires forall i | 0 <= i < |block| :: block[i].date == day
    ensures RankingsOn(block, date) == if date == day then block else []
  {
    if block != [] {
      RankingsOnOneDay(block[1..], day, date);
      assert block == [block[0]] + block[1..];
    }
  }

  /** The results in `rs` rank exactly the dates of `orders`: under each
      such date, `orders` sorts that date's set of `groups` largest amount
      first, and the results about the date number it 1, 2, 3, ... in that
      order. */
  ghost predicate RanksDates(rs: seq<StockRanking>, groups: map<LocalDate, set<Stock>>, orders: map<LocalDate, seq<Stock>>) {
    && orders.Keys <= groups.Keys
    && (forall date | date in orders ::
          IsDescendingArrangement(orders[date], groups[date])
          && RanksInOrder(RankingsOn(rs, date), orders[date], date))
    && (forall date | date !in orders :: RankingsOn(rs, date) == [])
  }

  /** Appending the numbered, sorted set of a date not yet ranked ranks that
      date too and leaves the other dates as they were. */
  lemma RanksDatesStep(before: seq<StockRanking>, block: seq<StockRanking>,
                       groups: map<LocalDate, set<Stock>>, orders: map<LocalDate, seq<Stock>>,
                       date: LocalDate, order: seq<Stock>)
    requires RanksDates(before, groups, orders)
    requires date in groups && date !in orders
    requires IsDescendingArrangement(order, groups[date])
    requires RanksInOrder(block, order, date)
    ensures RanksDates(before + block, groups, orders[date := order])
  {
    var after, orders' := before + block, orders[date := order];
    forall day | day != date
      ensures RankingsOn(after, day) == RankingsOn(before, day)
    {
      RankingsOnAppend(before, block, day);
      RankingsOnOneDay(block, date, day);
    }
    assert RankingsOn(after, date) == block by {
      RankingsOnAppend(before, block, date);
      RankingsOnOneDay(block, date, date);
    }
    forall day | day in orders'
      ensures IsDescendingArrangement(orders'[day], groups[day])
      ensures RanksInOrder(RankingsOn(after, day), orders'[day], day)
    {
      if day != date {
        assert orders'[day] == orders[day];
      }
    }
  }

  /** What the ranker produces from the filtered records `xs`: `orders` holds,
      for each settlement date of `xs`, that date's distinct records sorted
      largest amount first, and the results about each date are exactly those
      records numbered 1, 2, 3, ... in that order; no result is about any
      other date. */
  ghost predicate IsDayRankingOf(rs: seq<StockRanking>, xs: seq<Stock>, orders: map<LocalDate, seq<Stock>>) {
    && orders.Keys == SettlementDates(xs)
    && (forall date | date in orders ::
          IsDescendingArrangement(orders[date], DayGroup(xs, date))
          && RanksInOrder(RankingsOn(rs, date), orders[date], date))
    && (forall date | date !in orders :: RankingsOn(rs, date) == [])
  }

  /** Once every date of the grouping of `xs` is ranked, `rs` is a day
      ranking of `xs`. */
  lemma RanksAllDates(rs: seq<StockRanking>, xs: seq<Stock>, orders: map<LocalDate, seq<Stock>>)
    requires RanksDates(rs, GroupBySettlementDate(xs), orders)
    requires orders.Keys == SettlementDates(xs)
    ensures IsDayRankingOf(rs, xs, orders)
  {
    var groups := GroupBySettlementDate(xs);
    forall date | date in orders
      ensures IsDescendingArrangement(orders[date], DayGroup(xs, date))
    {
      assert groups[date] == DayGroup(xs, date);
    }
  }

  /** Records on all of their own dates are all the distinct records. */
  lemma RecordsOnAllDates(xs: seq<Stock>)
    ensures RecordsOn(xs, SettlementDates(xs)) == DistinctRecords(xs)
  {
  }

  /** The records settled on the dates done so far, plus one more date. */
  lemma RecordsOnStep(xs: seq<Stock>, done: set<LocalDate>, date: LocalDate)
    requires date !in done
    ensures RecordsOn(xs, done + {date}) == RecordsOn(xs, done) + DayGroup(xs, date)
    ensures |RecordsOn(xs, done + {date})| == |RecordsOn(xs, done)| + |DayGroup(xs, date)|
  {
    assert RecordsOn(xs, done) * DayGroup(xs, date) == {};
  }

  /** A sequence that starts with `prefix` is `prefix` followed by the rest. */
  lemma PrefixThenRest(rs: seq<StockRanking>, prefix: seq<StockRanking>)
    requires |prefix| <= |rs| && rs[..|prefix|] == prefix
    ensures rs == prefix + rs[|prefix|..]
  {
  }

  /** Appending one result per distinct record of a new date keeps one
      result per distinct record of the dates done so far. */
  lemma RankingLengthStep(before: seq<StockRanking>, block: seq<StockRanking>, xs: seq<Stock>,
                          done: set<LocalDate>, date: LocalDate, group: set<Stock>)
    requires |before| == |RecordsOn(xs, done)|
    requires date !in done && group == DayGroup(xs, date) && |block| == |group|
    ensures |before + block| == |RecordsOn(xs, done + {date})|
  {
    RecordsOnStep(xs, done, date);
  }

  /** The ranking loop's invariant: the dates taken from `pending` so far
      are those of `orders`, each is ranked in `rs`, no other date is, and
      `rs` has one result per distinct record of those dates. */
  ghost predicate RankingLoopInv(rs: seq<StockRanking>, xs: seq<Stock>, groups: map<LocalDate, set<Stock>>,
                                 orders: map<LocalDate, seq<Stock>>, pending: set<LocalDate>) {
    && pending <= groups.Keys
    && orders.Keys == groups.Keys - pending
    && RanksDates(rs, groups, orders)
    && |rs| == |RecordsOn(xs, orders.Keys)|
  }

  /** One pass of the ranking loop: appending the numbered, sorted set of a
      pending date keeps every date done so far ranked, ranks the new one,
      and keeps one result per distinct record of the dates done. */
  lemma RankingLoopStep(before: seq<StockRanking>, after: seq<StockRanking>, xs: seq<Stock>,
                        groups: map<LocalDate, set<Stock>>, orders: map<LocalDate, seq<Stock>>,
                        pending: set<LocalDate>, date: LocalDate, order: seq<Stock>)
    requires RankingLoopInv(before, xs, groups, orders, pending)
    requires date in pending && groups[date] == DayGroup(xs, date)
    requires IsDescendingArrangement(order, groups[date])
    requires |after| == |before| + |groups[date]| && after[..|before|] == before
    requires RanksInOrder(after[|before|..], order, date)
    ensures RankingLoopInv(after, xs, groups, orders[date := order], pending - {date})
  {
    PrefixThenRest(after, before);
    var block := after[|before|..];
    RanksDatesStep(before, block, groups, orders, date, order);
    RankingLengthStep(before, block, xs, orders.Keys, date, groups[date]);
    assert orders[date := order].Keys == orders.Keys + {date};
  }

  /** The ranking shared by both directions: every settlement date of the
      records that `keep` selects is ranked once, in an order the caller
      cannot rely on, and its results are appended to one list. The list has
      one result per distinct selected record. */
  method ComputeDayRanking(stocks: seq<Stock>, keep: Stock -> bool)
    returns (rankingObj: seq<StockRanking>, ghost orders: map<LocalDate, seq<Stock>>)
    ensures IsDayRankingOf(rankingObj, Filter(stocks, keep), orders)
    ensures |rankingObj| == |DistinctRecords(Filter(stocks, keep))|
  {
    var filtered := Filter(stocks, keep);
    var groups := GroupBySettlementDate(filtered);
    rankingObj := [];
    orders := map[];
    var pending := groups.Keys;
    while pending != {}
      invariant RankingLoopInv(rankingObj, filtered, groups, orders, pending)
      decreases pending
    {
      var date :| date in pending;
      ghost var before := rankingObj;
      ghost var order;
      rankingObj, order := ComputeSortingAndRanking(rankingObj, date, groups[date]);
      RankingLoopStep(before, rankingObj, filtered, groups, orders, pending, date, order);
      orders := orders[date := order];
      pending := pending - {date};
    }
    RanksAllDates(rankingObj, filtered, orders);
    RecordsOnAllDates(filtered);
  }

  /** The result at index `i` is, among the results about its date, the one
      that comes after those of its date that precede it in `rs`. */
  lemma RankingsOnAt(rs: seq<StockRanking>, i: int)
    requires 0 <= i < |rs|
    ensures |RankingsOn(rs[..i], rs[i].date)| < |RankingsOn(rs, rs[i].date)|
    ensures RankingsOn(rs, rs[i].date)[|RankingsOn(rs[..i], rs[i].date)|] == rs[i]
  {
    var date := rs[i].date;
    assert rs == rs[..i] + ([rs[i]] + rs[i + 1..]);
    RankingsOnAppend(rs[..i], [rs[i]] + rs[i + 1..], date);
    RankingsOnAppend([rs[i]], rs[i + 1..], date);
    assert [rs[i]][1..] == [];
  }

  /** Of two results about one date, the later one has more results of its
      date before it. */
  lemma RankingsOnGrows(rs: seq<StockRanking>, i: int, j: int)
    requires 0 <= i < j < |rs| && rs[i].date == rs[j].date
    ensures |RankingsOn(rs[..i], rs[i].date)| < |RankingsOn(rs[..j], rs[i].date)|
  {
    var date := rs[i].date;
    assert rs[..j] == rs[..i] + ([rs[i]] + rs[i + 1..j]);
    RankingsOnAppend(rs[..i], [rs[i]] + rs[i + 1..j], date);
    RankingsOnAppend([rs[i]], rs[i + 1..j], date);
    assert [rs[i]][1..] == [];
  }

  /** Provenance: every result is about a settlement date of the filtered
      records, its rank is between 1 and the number of distinct records of
      that date, and it carries the entity of the record at that place in
      the date's descending order, a filtered record of that date. */
  lemma RankedResultSource(rs: seq<StockRanking>, xs: seq<Stock>, orders: map<LocalDate, seq<Stock>>)
    requires IsDayRankingOf(rs, xs, orders)
    ensures forall i | 0 <= i < |rs| ::
      && rs[i].date in orders
      && 1 <= rs[i].rank <= |DayGroup(xs, rs[i].date)|
      && orders[rs[i].date][rs[i].rank - 1] in DayGroup(xs, rs[i].date)
      && rs[i].entity == orders[rs[i].date][rs[i].rank - 1].entity
  {
    forall i | 0 <= i < |rs|
      ensures rs[i].date in orders
      ensures 1 <= rs[i].rank <= |DayGroup(xs, rs[i].date)|
      ensures orders[rs[i].date][rs[i].rank - 1] in DayGroup(xs, rs[i].date)
      ensures rs[i].entity == orders[rs[i].date][rs[i].rank - 1].entity
    {
      RankingsOnAt(rs, i);
      var date := rs[i].date;
      var p := |RankingsOn(rs[..i], date)|;
      assert RankingsOn(rs, date)[p] == rs[i];
      assert date in orders;
      assert rs[i] == StockRanking(p + 1, orders[date][p].entity, date);
      assert orders[date][p] in orders[date];
    }
  }

  /** Within one date, results later in the list have larger ranks, so no
      rank is given twice for a date. */
  lemma RanksIncreaseWithinDate(rs: seq<StockRanking>, xs: seq<Stock>, orders: map<LocalDate, seq<Stock>>)
    requires IsDayRankingOf(rs, xs, orders)
    ensures forall i, j | 0 <= i < j < |rs| && rs[i].date == rs[j].date :: rs[i].rank < rs[j].rank
  {
    forall i, j | 0 <= i < j < |rs| && rs[i].date == rs[j].date
      ensures rs[i].rank < rs[j].rank
    {
      var date := rs[i].date;
      RankingsOnAt(rs, i);
      RankingsOnAt(rs, j);
      RankingsOnGrows(rs, i, j);
      assert date in orders;
    }
  }

  /** The ranks that `rs` gives for `date`. */
  function RanksGiven(rs: seq<StockRanking>, date: LocalDate): set<int> {
    set i | 0 <= i < |rs| && rs[i].date == date :: rs[i].rank
  }

  /** Contiguity: the ranks given for a settlement date are exactly 1 to the
      number of distinct filtered records of that date. */
  lemma RanksAreContiguous(rs: seq<StockRanking>, xs: seq<Stock>, orders: map<LocalDate, seq<Stock>>, date: LocalDate)
    requires IsDayRankingOf(rs, xs, orders)
    ensures forall rank :: rank in RanksGiven(rs, date) <==> 1 <= rank <= |DayGroup(xs, date)|
  {
    var given := RanksGiven(rs, date);
    RankedResultSource(rs, xs, orders);
    forall rank | 1 <= rank <= |DayGroup(xs, date)|
      ensures rank in given
    {
      var on := RankingsOn(rs, date);
      assert date in orders;
      assert on[rank - 1] in on;
      var i :| 0 <= i < |rs| && rs[i] == on[rank - 1];
      assert rs[i].rank == rank;
    }
  }

  /** Descending order: of two results about one date, the one with the
      smaller rank stands for a record whose amount is at least that of the
      other's record. */
  lemma RanksFollowAmounts(rs: seq<StockRanking>, xs: seq<Stock>, orders: map<LocalDate, seq<Stock>>)
    requires IsDayRankingOf(rs, xs, orders)
    ensures forall i, j | 0 <= i < |rs| && 0 <= j < |rs| && rs[i].date == rs[j].date && rs[i].rank < rs[j].rank ::
      orders[rs[i].date][rs[i].rank - 1].totalTradeAmt >= orders[rs[j].date][rs[j].rank - 1].totalTradeAmt
  {
    RankedResultSource(rs, xs, orders);
    forall i, j | 0 <= i < |rs| && 0 <= j < |rs| && rs[i].date == rs[j].date && rs[i].rank < rs[j].rank
      ensures orders[rs[i].date][rs[i].rank - 1].totalTradeAmt >= orders[rs[j].date][rs[j].rank - 1].totalTradeAmt
    {
      var order := orders[rs[i].date];
      assert IsDescendingArrangement(order, DayGroup(xs, rs[i].date));
      assert order[rs[i].rank - 1].totalTradeAmt >= order[rs[j].rank - 1].totalTradeAmt;
    }
  }

  /** With no filtered record there is nothing to rank. */
  lemma EmptyRanking(rs: seq<StockRanking>, orders: map<LocalDate, seq<Stock>>)
    requires IsDayRankingOf(rs, [], orders)
    ensures rs == []
  {
    if rs != [] {
      RankingsOnAt(rs, 0);
    }
  }
}
