/** The two direction predicates of the trade processor and the stream
    `filter` step that every operation starts with. */
module DirectionFilter {
  import opened StockModel

  /** Outgoing trades are the buys: a record is outgoing exactly when it is
      not a sell. */
  predicate PredicateOutgoing(data: Stock): (r: bool)
    ensures r <==> data.orderType != S
  {
    data.orderType == B
  }

  /** Incoming trades are the sells: a record is incoming exactly when it is
      not a buy. */
  predicate PredicateIncoming(data: Stock): (r: bool)
    ensures r <==> data.orderType != B
  {
    data.orderType == S
  }

  /** No record is both outgoing and incoming, and every record is one of them. */
  lemma DirectionsAreComplementary(data: Stock)
    ensures PredicateOutgoing(data) <==> !PredicateIncoming(data)
  {
    match data.orderType
    case B =>
    case S =>
  }

  /** The records of `stocks` that satisfy `keep`, in their original order. */
  function Filter(stocks: seq<Stock>, keep: Stock -> bool): (r: seq<Stock>)
    ensures |r| <= |stocks|
    ensures forall s :: s in r <==> s in stocks && keep(s)
  {
    if stocks == [] then []
    else (if keep(stocks[0]) then [stocks[0]] else []) + Filter(stocks[1..], keep)
  }

  /** The filter keeps every accepted record at each of its occurrences: a
      record appears in the output exactly as often as in the input when
      `keep` accepts it, and not at all otherwise. So two equal records both
      get through and both count. */
  lemma {:induction false} FilterKeepsOccurrences(stocks: seq<Stock>, keep: Stock -> bool)
    ensures forall s :: multiset(Filter(stocks, keep))[s] == if keep(s) then multiset(stocks)[s] else 0
  {
    if stocks != [] {
      FilterKeepsOccurrences(stocks[1..], keep);
      assert stocks == [stocks[0]] + stocks[1..];
    }
  }

  /** Filtering distributes over concatenation. */
  lemma {:induction false} FilterAppend(a: seq<Stock>, b: seq<Stock>, keep: Stock -> bool)
    ensures Filter(a + b, keep) == Filter(a, keep) + Filter(b, keep)
  {
    if a == [] {
      assert a + b == b;
    } else {
      assert (a + b)[1..] == a[1..] + b;
      FilterAppend(a[1..], b, keep);
    }
  }

  /** When `keep` rejects every record, nothing gets through. */
  lemma {:induction false} FilterRejectsAll(stocks: seq<Stock>, keep: Stock -> bool)
    requires forall s | s in stocks :: !keep(s)
    ensures Filter(stocks, keep) == []
  {
    if stocks != [] {
      FilterRejectsAll(stocks[1..], keep);
    }
  }

  /** A record that `keep` rejects can be dropped from anywhere in the input
      without changing what the filter lets through. */
  lemma RejectedRecordIgnored(a: seq<Stock>, s: Stock, b: seq<Stock>, keep: Stock -> bool)
    requires !keep(s)
    ensures Filter(a + [s] + b, keep) == Filter(a + b, keep)
  {
    FilterRejectsAll([s], keep);
    FilterAppend(a, [s], keep);
    assert Filter(a + [s], keep) == Filter(a, keep);
    FilterAppend(a + [s], b, keep);
    FilterAppend(a, b, keep);
  }

  /** Every record goes to exactly one of the two directions: the outgoing and
      incoming selections together are as long as the input. */
  lemma {:induction false} DirectionsPartition(stocks: seq<Stock>)
    ensures |Filter(stocks, PredicateOutgoing)| + |Filter(stocks, PredicateIncoming)| == |stocks|
  {
    if stocks != [] {
      DirectionsPartition(stocks[1..]);
      DirectionsAreComplementary(stocks[0]);
    }
  }
}
