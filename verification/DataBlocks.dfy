/** What a printed data block says about the record it was printed from, in terms of the lists as they
    were before the print padded and sorted them. */
module DataBlocks {
  import opened Basics
  import opened Sorting
  import opened TxnRecord

  /** v is the least member of s with at least the fraction num/den of s at or below it. */
  ghost predicate IsRank(s: seq<real>, num: nat, den: nat, v: real) {
    v in s && den * AtMost(s, v) >= num * |s| && forall w :: w < v ==> den * AtMost(s, w) < num * |s|
  }

  ghost predicate AreRanks(s: seq<real>, percentiles: seq<real>) {
    && |percentiles| == 4
    && IsRank(s, 1, 2, percentiles[0]) && IsRank(s, 9, 10, percentiles[1])
    && IsRank(s, 99, 100, percentiles[2]) && IsRank(s, 999, 1000, percentiles[3])
  }

  ghost predicate IsMin(s: seq<real>, m: real) {
    m in s && forall x :: x in s ==> m <= x
  }

  ghost predicate IsMax(s: seq<real>, m: real) {
    m in s && forall x :: x in s ==> x <= m
  }

  /** The summary of a list, or the place-holder for an empty one. */
  ghost predicate Summarizes(y: Summary, s: seq<real>) {
    if s == [] then y == Summary([999999.99, 999999.99, 999999.99, 999999.99], 999999.99, 999999.99)
    else AreRanks(s, y.percentiles) && IsMin(s, y.min) && IsMax(s, y.max)
  }

  // ----- one list

  lemma PercentileIsRank(s: seq<real>, num: nat, den: nat)
    requires s != [] && 0 < num <= den
    ensures IsRank(s, num, den, Percentile(Sort(s, RealLeq()), num, den))
  {
    hide Percentile, Sort, AtMost;
    var sorted := Sort(s, RealLeq());
    SortSorted(s, RealLeq());
    SortMembers(s, RealLeq());
    var v := Percentile(sorted, num, den);
    PercentileIsNearestRank(sorted, num, den, v);
    AtMostSort(s, v);
    forall w | w < v ensures den * AtMost(s, w) < num * |s| {
      PercentileIsNearestRank(sorted, num, den, w);
      AtMostSort(s, w);
    }
  }

  lemma PercentilesAreRanks(s: seq<real>)
    ensures s != [] ==> AreRanks(s, Percentiles(Sort(s, RealLeq())))
    ensures s == [] ==> Percentiles(Sort(s, RealLeq())) == [999999.99, 999999.99, 999999.99, 999999.99]
  {
    if s != [] {
      PercentileIsRank(s, 1, 2);
      PercentileIsRank(s, 9, 10);
      PercentileIsRank(s, 99, 100);
      PercentileIsRank(s, 999, 1000);
      hide IsRank, Percentile, Sort;
    } else {
      hide Percentile;
      assert Sort(s, RealLeq()) == [];
      NoPercentiles();
    }
  }

  lemma NoPercentiles()
    ensures forall num: nat, den: nat :: 0 < num <= den ==> Percentile([], num, den) == 999999.99
  {
  }

  lemma SortedExtremes(s: seq<real>)
    requires s != []
    ensures var sorted := Sort(s, RealLeq()); IsMin(s, sorted[0]) && IsMax(s, sorted[|sorted| - 1])
  {
    hide Sort;
    var sorted := Sort(s, RealLeq());
    SortSorted(s, RealLeq());
    SortMembers(s, RealLeq());
    assert sorted[0] in sorted && sorted[|sorted| - 1] in sorted;
    forall x | x in s ensures sorted[0] <= x <= sorted[|sorted| - 1] {
      SortedBounds(sorted, x);
    }
  }

  lemma SummaryOfSorted(s: seq<real>)
    ensures Summarizes(Summarize(Sort(s, RealLeq())), s)
  {
    hide Percentiles, AreRanks, Sort, IsMin, IsMax;
    PercentilesAreRanks(s);
    if s != [] {
      SortedExtremes(s);
    } else {
      assert |Sort(s, RealLeq())| == 0;
    }
  }

  // ----- the block

  /** The second list with the largest latency once more for every transaction that was given up. */
  ghost predicate IsPadded(all: seq<real>, t: Txn) {
    && |all| == |t.midAllLatencies| + t.midExhausted && t.midAllLatencies <= all
    && forall i :: |t.midAllLatencies| <= i < |all| ==> IsMax(t.midLatencies, all[i])
  }

  lemma PaddedIs(t: Txn)
    requires t.midExhausted > 0 ==> t.midLatencies != []
    ensures IsPadded(Padded(t), t)
  {
  }

  lemma SummaryOfAttempts(s: seq<real>)
    requires s != []
    ensures var sorted := Sort(s, RealLeq());
      Summarizes(Summary(Percentiles(sorted), sorted[0], sorted[|sorted| - 1]), s)
  {
    hide Percentiles, AreRanks, Sort, IsMin, IsMax;
    PercentilesAreRanks(s);
    SortedExtremes(s);
  }

  /** The block, part by part, from the record before the print. */
  lemma BlockParts(t: Txn, numClients: nat)
    requires CanPrint(t, numClients)
    ensures PrintMid(t, numClients).Logged?
    ensures var y := PrintMid(t, numClients).printed; var attempts := Sort(t.midAttempts, RealLeq());
      && y.counts == t.mid.Minus(t.midPre) && y.exhausted == t.midExhausted
      && y.duration == t.midTime / numClients as real != 0.0 && y.tps == y.counts.commit as real / y.duration
      && y.latency == Summarize(Sort(t.midLatencies, RealLeq()))
      && y.allLatency == Summarize(Sort(Padded(t), RealLeq()))
      && y.attemptLatency.percentiles == Percentiles(attempts)
      && (if t.midLatencies == [] then y.attemptLatency.min == y.attemptLatency.max == 999999.99
          else y.attemptLatency.min == attempts[0] && y.attemptLatency.max == attempts[|attempts| - 1])
  {
    hide Percentiles, Summarize, Sort;
    QuotientNonZero(t.midTime, numClients as real);
    assert Padded(t.(midTime := t.midTime / numClients as real)) == Padded(t);
    assert Sort(t.midLatencies, RealLeq()) == [] <==> t.midLatencies == [];
  }

  lemma Quotient(a: real, b: real)
    requires b != 0.0
    ensures a / b * b == a
  {
  }

  /** The block printed for a record: the counts since the window opened, the mean recorded time of a
      client and the throughput over it, and for each of the three lists, as they were before the print
      (the second one padded), its minimum, maximum and percentiles. */
  lemma BlockSummarizes(t: Txn, numClients: nat) returns (all: seq<real>)
    requires PrintMid(t, numClients).Logged?
    ensures IsPadded(all, t)
    ensures var y := PrintMid(t, numClients).printed;
      && y.counts.Plus(t.midPre) == t.mid && y.exhausted == t.midExhausted
      && y.duration * numClients as real == t.midTime && y.tps * y.duration == y.counts.commit as real
      && Summarizes(y.latency, t.midLatencies) && Summarizes(y.allLatency, all)
      && (t.midLatencies != [] ==> Summarizes(y.attemptLatency, t.midAttempts))
      && (t.midAttempts != [] ==> AreRanks(t.midAttempts, y.attemptLatency.percentiles))
      && (t.midLatencies == [] ==> y.attemptLatency.min == y.attemptLatency.max == 999999.99)
  {
    hide Percentiles, AreRanks, Summarize, IsPadded, Padded, Sort, Summarizes, DataBlock, AfterPrint;
    BlockParts(t, numClients);
    all := Padded(t);
    PaddedIs(t);
    SummaryOfSorted(t.midLatencies);
    SummaryOfSorted(all);
    if t.midAttempts != [] {
      PercentilesAreRanks(t.midAttempts);
      SummaryOfAttempts(t.midAttempts);
    }
    var y := PrintMid(t, numClients).printed;
    Quotient(t.midTime, numClients as real);
    Quotient(y.counts.commit as real, y.duration);
    var attempts := Sort(t.midAttempts, RealLeq());
    assert t.midLatencies != [] ==>
           y.attemptLatency == Summary(Percentiles(attempts), attempts[0], attempts[|attempts| - 1]);
  }

  /** A print leaves the lists sorted, with the members they had (the second one padded), the averaged
      time, and all else as it was. */
  lemma PrintKeepsLists(t: Txn, numClients: nat)
    requires CanPrint(t, numClients)
    ensures var u := AfterPrint(t, numClients);
      && Sorted(u.midLatencies, RealLeq()) && multiset(u.midLatencies) == multiset(t.midLatencies)
      && Sorted(u.midAllLatencies, RealLeq()) && multiset(u.midAllLatencies) == multiset(Padded(t))
      && Sorted(u.midAttempts, RealLeq()) && multiset(u.midAttempts) == multiset(t.midAttempts)
      && Sorted(u.midTries, IntLeq()) && multiset(u.midTries) == multiset(t.midTries)
      && u == t.(midLatencies := u.midLatencies, midAllLatencies := u.midAllLatencies, midAttempts := u.midAttempts,
                 midTries := u.midTries, midTime := t.midTime / numClients as real)
  {
    hide Sort, Sorted;
    SortSorted(t.midLatencies, RealLeq());
    SortSorted(Padded(t), RealLeq());
    SortSorted(t.midAttempts, RealLeq());
    SortSorted(t.midTries, IntLeq());
    assert Padded(t.(midTime := t.midTime / numClients as real)) == Padded(t);
  }
}
