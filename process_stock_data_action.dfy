/** The four public operations of the trade processor: total amount per
    settlement date and day ranking, each for incoming (sell) and outgoing
    (buy) trades. Each applies its direction predicate and hands over to the
    shared aggregator or ranker. */
module ProcessStockDataAction {
  import opened StockModel
  import opened DirectionFilter
  import opened DayAmount
  import opened DayRanking

  /** Total amount per settlement date of the sells: a date is a key exactly
      when some sell settles on it, and its value is the exact total of the
      sells of that date. */
  function ComputeIncomingDayAmout(stocks: seq<Stock>): (m: map<LocalDate, real>)
    ensures forall date :: date in m <==>
      exists s :: s in stocks && s.orderType == S && s.updatedSettlementDate == date
    ensures forall date | date in m :: m[date] == DayTotal(Filter(stocks, PredicateIncoming), date)
  {
    ComputeDayAmoutTransaction(stocks, PredicateIncoming)
  }

  /** Total amount per settlement date of the buys: a date is a key exactly
      when some buy settles on it, and its value is the exact total of the
      buys of that date. */
  function ComputeOutgoingDayAmout(stocks: seq<Stock>): (m: map<LocalDate, real>)
    ensures forall date :: date in m <==>
      exists s :: s in stocks && s.orderType == B && s.updatedSettlementDate == date
    ensures forall date | date in m :: m[date] == DayTotal(Filter(stocks, PredicateOutgoing), date)
  {
    ComputeDayAmoutTransaction(stocks, PredicateOutgoing)
  }

  /** Some record of `stocks` that `keep` selects settles on the date of
      `r` and carries its entity. */
  ghost predicate ComesFrom(r: StockRanking, stocks: seq<Stock>, keep: Stock -> bool) {
    exists s :: s in stocks && keep(s) && s.updatedSettlementDate == r.date && s.entity == r.entity
  }

  /** Every result of a ranking over the records `keep` selects names an
      entity that some selected record of the same date carries. */
  lemma RankingFromSelected(stocks: seq<Stock>, keep: Stock -> bool, rs: seq<StockRanking>,
                            orders: map<LocalDate, seq<Stock>>)
    requires IsDayRankingOf(rs, Filter(stocks, keep), orders)
    ensures forall i | 0 <= i < |rs| :: ComesFrom(rs[i], stocks, keep)
  {
    RankedResultSource(rs, Filter(stocks, keep), orders);
    forall i | 0 <= i < |rs|
      ensures ComesFrom(rs[i], stocks, keep)
    {
      var s := orders[rs[i].date][rs[i].rank - 1];
      assert s in DayGroup(Filter(stocks, keep), rs[i].date);
      assert s in Filter(stocks, keep) && s.updatedSettlementDate == rs[i].date;
    }
  }

  /** With nothing selected, the ranking has no results. */
  lemma NothingSelectedNothingRanked(stocks: seq<Stock>, keep: Stock -> bool, rs: seq<StockRanking>)
    requires |rs| == |DistinctRecords(Filter(stocks, keep))|
    requires forall s | s in stocks :: !keep(s)
    ensures rs == []
  {
    FilterRejectsAll(stocks, keep);
    assert DistinctRecords([]) == {};
  }

  /** Day ranking of the sells: each settlement date of the sells is ranked
      once, its distinct sells numbered 1, 2, 3, ... by amount, largest
      first; every result comes from a sell of its date, there is one result
      per distinct sell, and with no sell the list is empty. */
  method ComputeIncomingDayRanking(stocks: seq<Stock>)
    returns (rankings: seq<StockRanking>, ghost orders: map<LocalDate, seq<Stock>>)
    ensures IsDayRankingOf(rankings, Filter(stocks, PredicateIncoming), orders)
    ensures |rankings| == |DistinctRecords(Filter(stocks, PredicateIncoming))|
    ensures forall i | 0 <= i < |rankings| :: ComesFrom(rankings[i], stocks, PredicateIncoming)
    ensures (forall s | s in stocks :: s.orderType != S) ==> rankings == []
  {
    rankings, orders := ComputeDayRanking(stocks, PredicateIncoming);
    RankingFromSelected(stocks, PredicateIncoming, rankings, orders);
    if forall s | s in stocks :: s.orderType != S {
      NothingSelectedNothingRanked(stocks, PredicateIncoming, rankings);
    }
  }

  /** Day ranking of the buys: each settlement date of the buys is ranked
      once, its distinct buys numbered 1, 2, 3, ... by amount, largest first;
      every result comes from a buy of its date, there is one result per
      distinct buy, and with no buy the list is empty. */
  method ComputeOutgoingDayRanking(stocks: seq<Stock>)
    returns (rankings: seq<StockRanking>, ghost orders: map<LocalDate, seq<Stock>>)
    ensures IsDayRankingOf(rankings, Filter(stocks, PredicateOutgoing), orders)
    ensures |rankings| == |DistinctRecords(Filter(stocks, PredicateOutgoing))|
    ensures forall i | 0 <= i < |rankings| :: ComesFrom(rankings[i], stocks, PredicateOutgoing)
    ensures (forall s | s in stocks :: s.orderType != B) ==> rankings == []
  {
    rankings, orders := ComputeDayRanking(stocks, PredicateOutgoing);
    RankingFromSelected(stocks, PredicateOutgoing, rankings, orders);
    if forall s | s in stocks :: s.orderType != B {
      NothingSelectedNothingRanked(stocks, PredicateOutgoing, rankings);
    }
  }

  /** Direction isolation for buys: a sell inserted anywhere in the input
      changes neither the buy totals nor what a buy ranking may be. */
  lemma OutgoingIgnoresSells(before: seq<Stock>, sell: Stock, after: seq<Stock>)
    requires sell.orderType == S
    ensures ComputeOutgoingDayAmout(before + [sell] + after) == ComputeOutgoingDayAmout(before + after)
    ensures forall rs, orders ::
      IsDayRankingOf(rs, Filter(before + [sell] + after, PredicateOutgoing), orders)
      <==> IsDayRankingOf(rs, Filter(before + after, PredicateOutgoing), orders)
  {
    RejectedRecordIgnored(before, sell, after, PredicateOutgoing);
  }

  /** Direction isolation for sells: a buy inserted anywhere in the input
      changes neither the sell totals nor what a sell ranking may be. */
  lemma IncomingIgnoresBuys(before: seq<Stock>, buy: Stock, after: seq<Stock>)
    requires buy.orderType == B
    ensures ComputeIncomingDayAmout(before + [buy] + after) == ComputeIncomingDayAmout(before + after)
    ensures forall rs, orders ::
      IsDayRankingOf(rs, Filter(before + [buy] + after, PredicateIncoming), orders)
      <==> IsDayRankingOf(rs, Filter(before + after, PredicateIncoming), orders)
  {
    RejectedRecordIgnored(before, buy, after, PredicateIncoming);
  }

  /** Empty input: no totals and no day with a ranking, in either direction. */
  lemma EmptyInputNoDays()
    ensures ComputeIncomingDayAmout([]) == map[]
    ensures ComputeOutgoingDayAmout([]) == map[]
  {
    NoMatchNoDays([], PredicateIncoming);
    NoMatchNoDays([], PredicateOutgoing);
  }
}
