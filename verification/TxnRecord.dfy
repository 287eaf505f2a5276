/** The statistics of one transaction type (class TxnInfo of run.py) as a value, and what clear,
    push_res, get_res and print_mid do to it.  Reports are cumulative: a heartbeat clears the
    counters and adds up what every client has reported since it started. */
module TxnRecord {
  import opened Basics
  import opened Sorting

  datatype Counts = Counts(start: int, total: int, tries: int, commit: int) {
    function Plus(c: Counts): Counts {
      Counts(start + c.start, total + c.total, tries + c.tries, commit + c.commit)
    }
    function Minus(c: Counts): Counts {
      Counts(start - c.start, total - c.total, tries - c.tries, commit - c.commit)
    }
  }

  const ZERO := Counts(0, 0, 0, 0)
  const MAX_LATENCY := 99999.9
  const NO_VALUE := 999999.99

  /** What one client reports about one transaction type. */
  datatype Report = Report(counts: Counts, latencies: seq<real>, attempts: seq<real>, nTry: seq<int>, exhausted: nat)

  /** One call of push_res: a report and the length of the client's period. */
  datatype Push = Push(report: Report, period: real)

  datatype Txn = Txn(
    cur: Counts,
    pre: Counts,
    minInterval: real,
    lastIntervalStart: int,
    midStatus: nat,
    midPre: Counts,
    mid: Counts,
    midTime: real,
    midLatencies: seq<real>,
    midAllLatencies: seq<real>,
    midAttempts: seq<real>,
    midTries: seq<int>,
    midExhausted: nat)

  function NewTxn(): Txn {
    Txn(ZERO, ZERO, 0.0, 0, 0, ZERO, ZERO, 0.0, [], [], [], [], 0)
  }

  function Clear(t: Txn): Txn {
    t.(cur := ZERO, midExhausted := 0, minInterval := MAX_LATENCY,
       midPre := if t.midStatus == 0 then ZERO else t.midPre,
       mid := if t.midStatus == 1 then ZERO else t.mid)
  }

  function PushRes(t: Txn, p: Push): Txn {
    var r := p.report;
    var t1 := t.(cur := t.cur.Plus(r.counts),
                 minInterval := if t.minInterval > p.period then p.period else t.minInterval);
    if t.midStatus == 0 then t1.(midPre := t.midPre.Plus(r.counts))
    else if t.midStatus == 1 then
      var latencies := t.midLatencies + r.latencies;
      t1.(midLatencies := latencies,
          midAllLatencies := t.midAllLatencies + latencies,
          midAttempts := t.midAttempts + r.attempts,
          midTime := t.midTime + p.period,
          midTries := t.midTries + r.nTry,
          mid := t.mid.Plus(r.counts),
          midExhausted := t.midExhausted + r.exhausted)
    else t1
  }

  function PushAll(t: Txn, ps: seq<Push>): Txn {
    if ps == [] then t else PushRes(PushAll(t, ps[..|ps| - 1]), ps[|ps| - 1])
  }

  function SetMidStatus(t: Txn): Txn {
    t.(midStatus := t.midStatus + 1)
  }

  /** The counts of the row get_res prints for the last interval. */
  function IntervalRow(t: Txn): Counts {
    t.cur.Minus(t.pre)
  }

  function GetRes(t: Txn): Txn {
    t.(pre := t.cur, lastIntervalStart := t.cur.start - t.pre.start)
  }

  // ----- print_mid

  function Max(s: seq<real>): (m: real)
    requires s != []
    ensures m in s && forall x :: x in s ==> x <= m
  {
    if |s| == 1 then s[0]
    else
      var m := Max(s[1..]);
      assert s == [s[0]] + s[1..];
      if s[0] > m then s[0] else m
  }

  /** The percentages of run.py as exact fractions. */
  const PERCENTILES := [(1, 2), (9, 10), (99, 100), (999, 1000)]

  function RankIndex(num: nat, den: nat, n: nat): int
    requires den > 0
  {
    Ceil(num * n, den) - 1
  }

  /** The nearest-rank percentile of a sorted list. */
  function Percentile(s: seq<real>, num: nat, den: nat): real
    requires 0 < num <= den
  {
    if s == [] then NO_VALUE
    else
      RankInRange(num, den, |s|);
      s[RankIndex(num, den, |s|)]
  }

  datatype Summary = Summary(percentiles: seq<real>, min: real, max: real)

  function Percentiles(s: seq<real>): seq<real> {
    seq(|PERCENTILES|, i requires 0 <= i < |PERCENTILES| => Percentile(s, PERCENTILES[i].0, PERCENTILES[i].1))
  }

  function Summarize(s: seq<real>): Summary {
    Summary(Percentiles(s), if s == [] then NO_VALUE else s[0], if s == [] then NO_VALUE else s[|s| - 1])
  }

  datatype Printed = Printed(
    counts: Counts,
    duration: real,
    tps: real,
    exhausted: nat,
    latency: Summary,
    allLatency: Summary,
    attemptLatency: Summary)

  datatype PrintResult = Raised | Logged(printed: Printed, after: Txn)

  function IntLeq(): (int, int) -> bool {
    (a, b) => a <= b
  }

  function Padded(t: Txn): seq<real>
    requires t.midExhausted > 0 ==> t.midLatencies != []
  {
    if t.midExhausted == 0 then t.midAllLatencies
    else t.midAllLatencies + seq(t.midExhausted, _ => Max(t.midLatencies))
  }

  /** Division by a zero duration, the maximum of no latencies and the first of no attempts raise. */
  predicate CanPrint(t: Txn, numClients: nat) {
    && numClients > 0 && t.midTime != 0.0
    && (t.midExhausted > 0 ==> t.midLatencies != [])
    && (t.midLatencies != [] ==> t.midAttempts != [])
  }

  /** The record with its lists padded and sorted. */
  function SortLists(t: Txn): Txn
    requires t.midExhausted > 0 ==> t.midLatencies != []
  {
    t.(midLatencies := Sort(t.midLatencies, RealLeq()),
       midAllLatencies := Sort(Padded(t), RealLeq()),
       midAttempts := Sort(t.midAttempts, RealLeq()),
       midTries := Sort(t.midTries, IntLeq()))
  }

  /** The data block of a record whose lists are sorted and whose time is averaged. */
  function DataBlock(t: Txn): Printed
    requires t.midTime != 0.0 && (t.midLatencies != [] ==> t.midAttempts != [])
  {
    var counts := t.mid.Minus(t.midPre);
    Printed(counts, t.midTime, counts.commit as real / t.midTime, t.midExhausted,
            Summarize(t.midLatencies), Summarize(t.midAllLatencies),
            Summary(Percentiles(t.midAttempts),
                    if t.midLatencies == [] then NO_VALUE else t.midAttempts[0],
                    if t.midLatencies == [] then NO_VALUE else t.midAttempts[|t.midAttempts| - 1]))
  }

  /** The record after it has been printed; unchanged if it cannot be. */
  function AfterPrint(t: Txn, numClients: nat): Txn {
    if CanPrint(t, numClients) then SortLists(t.(midTime := t.midTime / numClients as real)) else t
  }

  function PrintMid(t: Txn, numClients: nat): PrintResult {
    if !CanPrint(t, numClients) then Raised
    else
      QuotientNonZero(t.midTime, numClients as real);
      Logged(DataBlock(AfterPrint(t, numClients)), AfterPrint(t, numClients))
  }

  lemma QuotientNonZero(a: real, b: real)
    requires a != 0.0 && b != 0.0
    ensures a / b != 0.0
  {
    assert (a / b) * b == a;
  }

  // ----- what is promised about percentiles

  lemma MulMonotone(a: int, b: int, c: nat)
    requires a <= b
    ensures a * c <= b * c
  {
  }

  lemma MulCancel(a: int, b: int, c: int)
    requires c > 0 && a * c < b * c
    ensures a < b
  {
  }

  lemma RankInRange(num: nat, den: nat, n: nat)
    requires 0 < num <= den && n > 0
    ensures 0 <= RankIndex(num, den, n) < n
  {
    var q := Ceil(num * n, den);
    assert num * n >= 1;
    MulMonotone(num, den, n);
    MulCancel(q - 1, n, den);
  }

  ghost function AtMost(s: seq<real>, v: real): nat {
    if s == [] then 0 else AtMost(s[..|s| - 1], v) + if s[|s| - 1] <= v then 1 else 0
  }

  lemma {:induction false} AtMostAppend(a: seq<real>, b: seq<real>, v: real)
    ensures AtMost(a + b, v) == AtMost(a, v) + AtMost(b, v)
  {
    if b == [] {
      assert a + b == a;
    } else {
      assert (a + b)[..|a + b| - 1] == a + b[..|b| - 1];
      AtMostAppend(a, b[..|b| - 1], v);
    }
  }

  lemma {:induction false} AtMostInsert(x: real, s: seq<real>, v: real)
    ensures AtMost(Insert(x, s, RealLeq()), v) == AtMost(s, v) + if x <= v then 1 else 0
  {
    if s == [] {
    } else if x <= s[0] {
      AtMostAppend([x], s, v);
    } else {
      AtMostInsert(x, s[1..], v);
      AtMostAppend([s[0]], Insert(x, s[1..], RealLeq()), v);
      AtMostAppend([s[0]], s[1..], v);
      assert s == [s[0]] + s[1..];
    }
  }

  /** Sorting changes no such count. */
  lemma {:induction false} AtMostSort(s: seq<real>, v: real)
    ensures AtMost(Sort(s, RealLeq()), v) == AtMost(s, v)
  {
    if s != [] {
      AtMostSort(s[1..], v);
      AtMostInsert(s[0], Sort(s[1..], RealLeq()), v);
      AtMostAppend([s[0]], s[1..], v);
      assert s == [s[0]] + s[1..];
    }
  }

  lemma {:induction false} AtMostInSorted(s: seq<real>, v: real, k: nat)
    requires k <= |s|
    requires forall i :: 0 <= i < k ==> s[i] <= v
    requires forall i :: k <= i < |s| ==> s[i] > v
    ensures AtMost(s, v) == k
  {
    if s != [] {
      AtMostInSorted(s[..|s| - 1], v, if k == |s| then k - 1 else k);
    }
  }

  /** In a sorted list exactly the elements up to the last one not above v are at most v. */
  lemma AtMostSplits(s: seq<real>, v: real) returns (k: nat)
    requires Sorted(s, RealLeq())
    ensures k == AtMost(s, v) <= |s|
    ensures forall i :: 0 <= i < |s| ==> (s[i] <= v <==> i < k)
  {
    k := 0;
    while k < |s| && s[k] <= v
      invariant 0 <= k <= |s| && forall i :: 0 <= i < k ==> s[i] <= v
    {
      k := k + 1;
    }
    assert forall i :: k <= i < |s| ==> RealLeq()(s[k], s[i]) || i == k;
    AtMostInSorted(s, v, k);
  }

  /** The percentile is the least element with at least the fraction num/den of the list at or
      below it. */
  lemma PercentileIsNearestRank(s: seq<real>, num: nat, den: nat, w: real)
    requires Sorted(s, RealLeq()) && s != [] && 0 < num <= den
    ensures var v := Percentile(s, num, den);
      && v in s
      && den * AtMost(s, v) >= num * |s|
      && (w < v ==> den * AtMost(s, w) < num * |s|)
  {
    RankInRange(num, den, |s|);
    var i := RankIndex(num, den, |s|);
    var k := AtMostSplits(s, s[i]);
    RankCovers(num, den, |s|, k);
    if w < s[i] {
      var m := AtMostSplits(s, w);
      RankCovers(num, den, |s|, m);
    }
  }

  /** The positions beyond the rank index are those that cover the fraction. */
  lemma RankCovers(num: nat, den: nat, n: nat, k: nat)
    requires den > 0
    ensures k > RankIndex(num, den, n) <==> den * k >= num * n
  {
    QuotientCovers(Ceil(num * n, den), den, num * n, k);
  }

  lemma QuotientCovers(q: nat, den: nat, a: nat, k: nat)
    requires den > 0 && den * (q - 1) < a <= den * q
    ensures k >= q <==> den * k >= a
  {
    if k >= q {
      MulMonotone(q, k, den);
    } else {
      MulMonotone(k, q - 1, den);
    }
  }

  lemma RankMonotone(num: nat, den: nat, num': nat, den': nat, n: nat)
    requires 0 < den && 0 < den' && num * den' <= num' * den
    ensures RankIndex(num, den, n) <= RankIndex(num', den', n)
  {
    var q := Ceil(num' * n, den');
    RankCovers(num', den', n, q);
    CrossCovers(num, den, num', den', n, q);
    RankCovers(num, den, n, q);
  }

  /** A position that covers a fraction covers every smaller one. */
  lemma CrossCovers(num: nat, den: nat, num': nat, den': nat, n: nat, k: nat)
    requires 0 < den && 0 < den' && num * den' <= num' * den && den' * k >= num' * n
    ensures den * k >= num * n
  {
    MulMonotone(num * den', num' * den, n);
    MulMonotone(num' * n, den' * k, den);
    Rearrange(num, den', n);
    Rearrange(num', den, n);
    Rearrange(den', k, den);
    Rearrange(k, den, den');
    if den * k < num * n {
      MulStrict(den * k, num * n, den');
      assert false;
    }
  }

  lemma Rearrange(a: int, b: int, c: int)
    ensures (a * b) * c == (a * c) * b == (b * a) * c == (c * b) * a
  {
  }

  lemma MulStrict(a: int, b: int, c: int)
    requires a < b && c > 0
    ensures a * c < b * c
  {
  }

  /** Larger fractions give larger percentiles, all of them between the extremes. */
  lemma PercentilesAscend(s: seq<real>, num: nat, den: nat, num': nat, den': nat)
    requires Sorted(s, RealLeq()) && s != [] && 0 < num <= den && 0 < num' <= den' && num * den' <= num' * den
    ensures s[0] <= Percentile(s, num, den) <= Percentile(s, num', den') <= s[|s| - 1]
  {
    RankInRange(num, den, |s|);
    RankInRange(num', den', |s|);
    RankMonotone(num, den, num', den', |s|);
    var i, j := RankIndex(num, den, |s|), RankIndex(num', den', |s|);
    assert i < j ==> RealLeq()(s[i], s[j]);
    assert 0 < i ==> RealLeq()(s[0], s[i]);
    assert j < |s| - 1 ==> RealLeq()(s[j], s[|s| - 1]);
  }

  // ----- what is promised about latencies

  /** Every prefix of the chunks once more: what extending the second list by the whole first
      one on every push leaves in it. */
  ghost function Prefixes(chunks: seq<seq<real>>): seq<real> {
    if chunks == [] then [] else Prefixes(chunks[..|chunks| - 1]) + Flatten(chunks)
  }

  ghost function Chunks(ps: seq<Push>): seq<seq<real>> {
    seq(|ps|, i requires 0 <= i < |ps| => ps[i].report.latencies)
  }

  lemma ChunksAppend(ps: seq<Push>, p: Push)
    ensures Flatten(Chunks(ps + [p])) == Flatten(Chunks(ps)) + p.report.latencies
    ensures Prefixes(Chunks(ps + [p])) == Prefixes(Chunks(ps)) + Flatten(Chunks(ps + [p]))
  {
    assert Chunks(ps + [p])[..|ps|] == Chunks(ps);
  }

  ghost function Attempts(ps: seq<Push>): seq<real> {
    if ps == [] then [] else Attempts(ps[..|ps| - 1]) + ps[|ps| - 1].report.attempts
  }

  ghost function Tries(ps: seq<Push>): seq<int> {
    if ps == [] then [] else Tries(ps[..|ps| - 1]) + ps[|ps| - 1].report.nTry
  }

  ghost function Periods(ps: seq<Push>): real {
    if ps == [] then 0.0 else Periods(ps[..|ps| - 1]) + ps[|ps| - 1].period
  }

  /** The lists of a record hold what the given pushes brought: of the two latency lists the first each
      chunk once and the second every prefix of them; attempts and tries once; and their periods' sum. */
  ghost predicate Accumulated(t: Txn, ps: seq<Push>) {
    && t.midLatencies == Flatten(Chunks(ps)) && t.midAllLatencies == Prefixes(Chunks(ps))
    && t.midAttempts == Attempts(ps) && t.midTries == Tries(ps) && t.midTime == Periods(ps)
  }

  lemma {:induction false} PushAllLatencies(t: Txn, before: seq<Push>, ps: seq<Push>)
    requires t.midStatus == 1 && Accumulated(t, before)
    ensures PushAll(t, ps).midStatus == 1 && Accumulated(PushAll(t, ps), before + ps)
  {
    if ps == [] {
      assert before + ps == before;
    } else {
      var rest, p := ps[..|ps| - 1], ps[|ps| - 1];
      PushAllLatencies(t, before, rest);
      assert before + ps == before + rest + [p];
      ChunksAppend(before + rest, p);
      assert (before + rest + [p])[..|before + rest|] == before + rest;
    }
  }

  /** How often x occurs when chunk j counts n - j times. */
  ghost function Weighted(chunks: seq<seq<real>>, x: real, n: nat): nat
    requires |chunks| <= n
  {
    if chunks == [] then 0
    else Weighted(chunks[..|chunks| - 1], x, n) + (n - |chunks| + 1) * multiset(chunks[|chunks| - 1])[x]
  }

  lemma {:induction false} WeightedStep(chunks: seq<seq<real>>, x: real, n: nat)
    requires |chunks| <= n
    ensures Weighted(chunks, x, n + 1) == Weighted(chunks, x, n) + multiset(Flatten(chunks))[x]
  {
    if chunks != [] {
      WeightedStep(chunks[..|chunks| - 1], x, n);
      var m := multiset(chunks[|chunks| - 1])[x];
      assert (n + 1 - |chunks| + 1) * m == (n - |chunks| + 1) * m + m;
    }
  }

  /** How often x occurs when every chunk counts once. */
  ghost function Once(chunks: seq<seq<real>>, x: real): nat {
    if chunks == [] then 0 else Once(chunks[..|chunks| - 1], x) + multiset(chunks[|chunks| - 1])[x]
  }

  /** Chunk j of n (counting from 1) occurs once in the first list and n - j + 1 times in the
      second. */
  lemma {:induction false} ChunksRepeat(chunks: seq<seq<real>>, x: real)
    ensures multiset(Flatten(chunks))[x] == Once(chunks, x)
    ensures multiset(Prefixes(chunks))[x] == Weighted(chunks, x, |chunks|)
  {
    if chunks != [] {
      var rest := chunks[..|chunks| - 1];
      ChunksRepeat(rest, x);
      WeightedStep(rest, x, |rest|);
      assert multiset(Prefixes(chunks))[x] == multiset(Prefixes(rest))[x] + multiset(Flatten(chunks))[x];
      assert multiset(Flatten(chunks))[x] == multiset(Flatten(rest))[x] + multiset(chunks[|chunks| - 1])[x];
    }
  }

  /** Both latency lists hold the same values. */
  ghost predicate SameValues(t: Txn) {
    forall x :: x in t.midLatencies <==> x in t.midAllLatencies
  }

  lemma SortListsSameValues(t: Txn)
    requires SameValues(t) && (t.midExhausted > 0 ==> t.midLatencies != [])
    ensures SameValues(SortLists(t))
    ensures var r := SortLists(t);
      Sorted(r.midLatencies, RealLeq()) && Sorted(r.midAllLatencies, RealLeq())
  {
    assert forall x :: x in Padded(t) <==> x in t.midAllLatencies;
    SortMembers(t.midLatencies, RealLeq());
    SortMembers(Padded(t), RealLeq());
    SortSorted(t.midLatencies, RealLeq());
    SortSorted(Padded(t), RealLeq());
  }

  lemma {:induction false} PushAllSameValues(t: Txn, ps: seq<Push>)
    requires SameValues(t)
    ensures SameValues(PushAll(t, ps))
  {
    if ps != [] {
      PushAllSameValues(t, ps[..|ps| - 1]);
    }
  }

  /** A print pads and sorts the lists, keeps their values the same, and so reports the same minimum
      and maximum for both. */
  lemma PrintAgrees(t: Txn, numClients: nat)
    requires SameValues(t)
    ensures SameValues(AfterPrint(t, numClients))
    ensures PrintMid(t, numClients).Logged? ==>
      var printed := PrintMid(t, numClients).printed;
      printed.latency.min == printed.allLatency.min && printed.latency.max == printed.allLatency.max
  {
    hide Sort, Padded, Sorted, DataBlock;
    if CanPrint(t, numClients) {
      QuotientNonZero(t.midTime, numClients as real);
      var u := t.(midTime := t.midTime / numClients as real);
      SortListsSameValues(u);
      hide SameValues;
      BlockAgrees(AfterPrint(t, numClients));
    }
  }

  lemma BlockAgrees(t: Txn)
    requires t.midTime != 0.0 && (t.midLatencies != [] ==> t.midAttempts != [])
    requires SameValues(t) && Sorted(t.midLatencies, RealLeq()) && Sorted(t.midAllLatencies, RealLeq())
    ensures var block := DataBlock(t);
      block.latency.min == block.allLatency.min && block.latency.max == block.allLatency.max
  {
    SameExtremes(t.midLatencies, t.midAllLatencies);
  }

  lemma SortedBounds(s: seq<real>, x: real)
    requires Sorted(s, RealLeq()) && x in s
    ensures s[0] <= x <= s[|s| - 1]
  {
    var i :| 0 <= i < |s| && s[i] == x;
    if i > 0 {
      assert RealLeq()(s[0], s[i]);
    }
    if i < |s| - 1 {
      assert RealLeq()(s[i], s[|s| - 1]);
    }
  }

  lemma SameExtremes(a: seq<real>, b: seq<real>)
    requires Sorted(a, RealLeq()) && Sorted(b, RealLeq()) && forall x :: x in a <==> x in b
    ensures a == [] <==> b == []
    ensures a != [] ==> a[0] == b[0] && a[|a| - 1] == b[|b| - 1]
  {
    assert a != [] ==> a[0] in a && a[|a| - 1] in a;
    assert b != [] ==> b[0] in b && b[|b| - 1] in b;
    if a != [] {
      SortedBounds(b, a[0]);
      SortedBounds(b, a[|a| - 1]);
      SortedBounds(a, b[0]);
      SortedBounds(a, b[|b| - 1]);
    }
  }
}
