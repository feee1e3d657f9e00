/** The day amount aggregator: the filtered records are grouped by settlement
    date and each group's traded amounts are summed exactly, starting from
    zero. */
module DayAmount {
  import opened StockModel
  import opened DirectionFilter

  /** The identity the per-date reduction starts from. */
  const Zero: real := 0.0

  /** Reference definition: the exact total of the amounts of the records of
      `xs` that settle on `date`. */
  function DayTotal(xs: seq<Stock>, date: LocalDate): real {
    if xs == [] then Zero
    else
      var own := if xs[0].updatedSettlementDate == date then xs[0].totalTradeAmt else Zero;
      own + DayTotal(xs[1..], date)
  }

  /** One step of the grouping collector: the record's amount is added to the
      running total of its date, which starts at `Zero` when the date is new. */
  function Accumulate(acc: map<LocalDate, real>, s: Stock): (r: map<LocalDate, real>)
    ensures r.Keys == acc.Keys + SettlementDates([s])
    ensures forall date | date in r :: r[date] == (if date in acc then acc[date] else Zero) + DayTotal([s], date)
  {
    var date := s.updatedSettlementDate;
    acc[date := (if date in acc then acc[date] else Zero) + s.totalTradeAmt]
  }

  /** The grouping collector run over `xs`, element by element, from `acc`:
      it adds exactly the dates of `xs` to the keys. */
  function Reduce(acc: map<LocalDate, real>, xs: seq<Stock>): (r: map<LocalDate, real>)
    ensures r.Keys == acc.Keys + SettlementDates(xs)
    decreases |xs|
  {
    if xs == [] then acc
    else
      SettlementDatesStep(xs);
      Reduce(Accumulate(acc, xs[0]), xs[1..])
  }

  /** Running the collector adds to each date's running total the exact
      total of that date's records. */
  lemma {:induction false} ReduceSumsPerDate(acc: map<LocalDate, real>, xs: seq<Stock>)
    ensures forall date | date in Reduce(acc, xs) ::
      Reduce(acc, xs)[date] == (if date in acc then acc[date] else Zero) + DayTotal(xs, date)
    decreases |xs|
  {
    if xs != [] {
      var next := Accumulate(acc, xs[0]);
      ReduceSumsPerDate(next, xs[1..]);
    }
  }

  /** The aggregation shared by both directions: total traded amount per
      settlement date over the records that `keep` selects. Its keys are
      exactly the dates of those records, so no date maps to a zero that no
      record contributed. */
  function ComputeDayAmoutTransaction(stocks: seq<Stock>, keep: Stock -> bool): (m: map<LocalDate, real>)
    ensures m.Keys == SettlementDates(Filter(stocks, keep))
    ensures forall date | date in m :: m[date] == DayTotal(Filter(stocks, keep), date)
  {
    var xs := Filter(stocks, keep);
    ReduceSumsPerDate(map[], xs);
    Reduce(map[], xs)
  }

  /** With no record that `keep` selects, the aggregation is empty. */
  lemma NoMatchNoDays(stocks: seq<Stock>, keep: Stock -> bool)
    requires forall s | s in stocks :: !keep(s)
    ensures ComputeDayAmoutTransaction(stocks, keep) == map[]
  {
    var m := ComputeDayAmoutTransaction(stocks, keep);
    FilterRejectsAll(stocks, keep);
    assert m.Keys == {};
  }

  /** Splitting the input splits every day's total. */
  lemma {:induction false} DayTotalAppend(a: seq<Stock>, b: seq<Stock>, date: LocalDate)
    ensures DayTotal(a + b, date) == DayTotal(a, date) + DayTotal(b, date)
  {
    if a == [] {
      assert a + b == b;
    } else {
      assert (a + b)[1..] == a[1..] + b;
      DayTotalAppend(a[1..], b, date);
    }
  }

  /** Taking out the element at `k` leaves the other elements, as a multiset. */
  lemma SplitAt(b: seq<Stock>, k: nat)
    requires k < |b|
    ensures b == b[..k] + [b[k]] + b[k + 1..]
    ensures multiset(b) == multiset(b[..k] + b[k + 1..]) + multiset{b[k]}
  {
    assert b == b[..k] + [b[k]] + b[k + 1..];
  }

  /** A permutation of `a` puts its first element somewhere; the rest of `a`
      is a permutation of what is left around it. */
  lemma PermutationHead(a: seq<Stock>, b: seq<Stock>) returns (k: nat)
    requires a != [] && multiset(a) == multiset(b)
    ensures k < |b| && b[k] == a[0]
    ensures multiset(a[1..]) == multiset(b[..k] + b[k + 1..])
  {
    assert a[0] in multiset(b);
    k :| 0 <= k < |b| && b[k] == a[0];
    SplitAt(b, k);
    assert a == [a[0]] + a[1..];
    calc {
      multiset(a[1..]);
      multiset(a) - multiset{a[0]};
      multiset(b) - multiset{b[k]};
      multiset(b[..k] + b[k + 1..]);
    }
  }

  /** A day's total depends only on which records occur how often, not on
      their order. */
  lemma {:induction false} DayTotalPermutation(a: seq<Stock>, b: seq<Stock>, date: LocalDate)
    requires multiset(a) == multiset(b)
    ensures DayTotal(a, date) == DayTotal(b, date)
    decreases |a|
  {
    if a == [] {
      assert |b| == |multiset(b)| == 0;
    } else {
      var k := PermutationHead(a, b);
      SplitAt(b, k);
      DayTotalPermutation(a[1..], b[..k] + b[k + 1..], date);
      DayTotalAppend(b[..k] + [b[k]], b[k + 1..], date);
      DayTotalAppend(b[..k], [b[k]], date);
      DayTotalAppend(b[..k], b[k + 1..], date);
    }
  }

  /** Filtering keeps permutations permutations: each record occurs in
      either output as often as `keep` lets it through, which depends only
      on how often it occurs in the input. */
  lemma FilterPermutation(a: seq<Stock>, b: seq<Stock>, keep: Stock -> bool)
    requires multiset(a) == multiset(b)
    ensures multiset(Filter(a, keep)) == multiset(Filter(b, keep))
  {
    FilterKeepsOccurrences(a, keep);
    FilterKeepsOccurrences(b, keep);
    assert forall s :: multiset(Filter(a, keep))[s] == multiset(Filter(b, keep))[s];
  }

  /** Records of equal multisets are the same records. */
  lemma SameRecords(a: seq<Stock>, b: seq<Stock>)
    requires multiset(a) == multiset(b)
    ensures SettlementDates(a) == SettlementDates(b)
  {
    forall s | s in a ensures s in b {
      assert s in multiset(a);
    }
    forall s | s in b ensures s in a {
      assert s in multiset(b);
    }
  }

  /** The aggregation is a function of the multiset of input records: the
      order in which records arrive never changes any day's total. */
  lemma DayAmountOrderIndependent(a: seq<Stock>, b: seq<Stock>, keep: Stock -> bool)
    requires multiset(a) == multiset(b)
    ensures ComputeDayAmoutTransaction(a, keep) == ComputeDayAmoutTransaction(b, keep)
  {
    var fa, fb := Filter(a, keep), Filter(b, keep);
    var ma, mb := ComputeDayAmoutTransaction(a, keep), ComputeDayAmoutTransaction(b, keep);
    FilterPermutation(a, b, keep);
    SameRecords(fa, fb);
    assert ma.Keys == mb.Keys;
    forall date | date in ma ensures ma[date] == mb[date] {
      DayTotalPermutation(fa, fb, date);
    }
  }
}
