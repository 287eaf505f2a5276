/** The latency lists of the transaction records, over whole runs of the controller. */
module Latencies {
  import opened Basics
  import opened TxnRecord
  import opened Recording
  import Window

  // ----- both lists always hold the same values

  ghost predicate AllSame(c: Controller) {
    forall k :: k in c.infos ==> SameValues(c.infos[k])
  }

  lemma CollectedSame(c: Controller, b: Beat, k: TxnType)
    requires AllSame(c)
    ensures SameValues(RecordOf(Collected(c, b), k))
  {
    PushReportsOnRecord(ClearAll(c), b.reports, k);
    assert SameValues(RecordOf(ClearAll(c), k));
    PushAllSameValues(RecordOf(ClearAll(c), k), PushesFor(b.reports, k));
  }

  lemma HeartbeatSame(c: Controller, b: Beat, c': Controller)
    requires AllSame(c) && Heartbeat(c, b) == Running(c')
    ensures AllSame(c')
  {
    forall k | k in c'.infos ensures SameValues(c'.infos[k]) {
      CollectedSame(c, b, k);
      ShiftedSame(c, b, c', k);
    }
  }

  lemma ShiftedSame(c: Controller, b: Beat, c': Controller, k: TxnType)
    requires Heartbeat(c, b) == Running(c') && k in c'.infos && SameValues(RecordOf(Collected(c, b), k))
    ensures SameValues(c'.infos[k])
  {
    PrintAgrees(RecordOf(Collected(c, b), k), Collected(c, b).proxies);
    hide AfterPrint, PushReports, ClearAll, CanPrint;
  }

  /** In every run, after every heartbeat, the two lists of every record hold the same values, and
      whatever a heartbeat prints reports the same minimum and maximum for both. */
  lemma {:induction false} ExtremesAgree(states: seq<Controller>, beats: seq<Beat>, i: nat, k: TxnType)
    requires IsRun(states, beats) && i <= |beats|
    ensures AllSame(states[i])
    ensures i < |beats| && PrintedAt(states, beats, i, k).Logged? ==>
      var printed := PrintedAt(states, beats, i, k).printed;
      printed.latency.min == printed.allLatency.min && printed.latency.max == printed.allLatency.max
  {
    if i > 0 {
      ExtremesAgree(states, beats, i - 1, k);
      HeartbeatSame(states[i - 1], beats[i - 1], states[i]);
    }
    if i < |beats| {
      CollectedSame(states[i], beats[i], k);
      PrintAgrees(RecordOf(Collected(states[i], beats[i]), k), states[i].proxies);
    }
  }

  // ----- what the lists hold at the close of the first window

  /** The pushes of type k in heartbeats from..to-1. */
  function PushesBetween(beats: seq<Beat>, k: TxnType, from: nat, to: nat): seq<Push>
    requires from <= to <= |beats|
  {
    if from == to then [] else PushesBetween(beats, k, from, to - 1) + PushesFor(beats[to - 1].reports, k)
  }

  lemma CollectedAccumulates(c: Controller, b: Beat, k: TxnType, before: seq<Push>)
    requires k in c.infos && c.infos[k].midStatus == 1 && Accumulated(c.infos[k], before)
    ensures k in Collected(c, b).infos && Accumulated(Collected(c, b).infos[k], before + PushesFor(b.reports, k))
  {
    PushReportsOnRecord(ClearAll(c), b.reports, k);
    PushAllLatencies(Clear(c.infos[k]), before, PushesFor(b.reports, k));
  }

  lemma ShiftedLists(c: Controller, b: Beat, c': Controller, k: TxnType)
    requires Heartbeat(c, b) == Running(c') && k in Collected(c, b).infos && !Window.Closes(c.recording, b.progress)
    ensures k in c'.infos
    ensures c'.infos[k].midLatencies == Collected(c, b).infos[k].midLatencies
    ensures c'.infos[k].midAllLatencies == Collected(c, b).infos[k].midAllLatencies
    ensures c'.infos[k].midAttempts == Collected(c, b).infos[k].midAttempts
    ensures c'.infos[k].midTries == Collected(c, b).infos[k].midTries
    ensures c'.infos[k].midTime == Collected(c, b).infos[k].midTime
  {
    PushReportsKeeps(ClearAll(c), b.reports);
    hide AfterPrint, PushReports, AllPrint;
  }

  lemma EntersEmpty(states: seq<Controller>, beats: seq<Beat>, o: nat, k: TxnType)
    requires IsRun(states, beats) && FirstOpening(beats, o) && k in states[o + 1].infos
    ensures Accumulated(states[o + 1].infos[k], [])
  {
    var c, b, c' := states[o], beats[o], states[o + 1];
    if k in c.infos {
      RunUnrecorded(states, beats, o, k);
      BeforeWindow(states, beats, o, o, k);
    }
    CollectedUnrecorded(c, b, k);
    RecordingFollows(states, beats, o);
    WindowIsOpen(beats, o);
    hide Moves;
    ShiftedLists(c, b, c', k);
  }

  /** While the first window is open the lists hold exactly the chunks pushed since it opened, however
      many heartbeats cleared and shifted the counters in between. */
  lemma {:induction false} ListsInWindow(states: seq<Controller>, beats: seq<Beat>, o: nat, i: nat, k: TxnType)
    requires IsRun(states, beats) && FirstOpening(beats, o) && o < i <= |beats| && Moves(beats, i) == 1
    requires k in states[o + 1].infos
    ensures k in states[i].infos && states[i].infos[k].midStatus == 1
    ensures Accumulated(states[i].infos[k], PushesBetween(beats, k, o + 1, i))
    decreases i
  {
    hide Heartbeat, Moves, Accumulated, Window.Openings, Window.Closings;
    WindowDiscipline(states, beats, o, i, k);
    if i == o + 1 {
      EntersEmpty(states, beats, o, k);
    } else {
      MovesGrow(beats, o + 1, i - 1);
      MovesGrow(beats, i - 1, i);
      ListsInWindow(states, beats, o, i - 1, k);
      RecordingFollows(states, beats, i - 1);
      StaysOpen(states[i - 1], beats[i - 1], states[i], k, PushesBetween(beats, k, o + 1, i - 1));
    }
  }

  lemma StaysOpen(c: Controller, b: Beat, c': Controller, k: TxnType, before: seq<Push>)
    requires Heartbeat(c, b) == Running(c') && Toggles(c.recording, b.progress) == 0
    requires k in c.infos && c.infos[k].midStatus == 1 && Accumulated(c.infos[k], before)
    ensures k in c'.infos && Accumulated(c'.infos[k], before + PushesFor(b.reports, k))
  {
    CollectedAccumulates(c, b, k, before);
    ShiftedLists(c, b, c', k);
  }

  /** What heartbeat n, closing the first window, finds in the lists of a type known when it opened:
      with `chunks` the latencies of its pushes since then, each chunk occurs once in the first list, and
      chunk j of m occurs m - j + 1 times in the second. */
  lemma LatenciesAtClose(states: seq<Controller>, beats: seq<Beat>, o: nat, n: nat, k: TxnType, x: real)
    requires IsRun(states, beats) && FirstOpening(beats, o) && o < n < |beats| && Moves(beats, n) == 1
    requires k in states[o + 1].infos
    ensures Accumulated(RecordOf(Collected(states[n], beats[n]), k), PushesBetween(beats, k, o + 1, n + 1))
    ensures var t := RecordOf(Collected(states[n], beats[n]), k);
      var chunks := Chunks(PushesBetween(beats, k, o + 1, n + 1));
      && t.midLatencies == Flatten(chunks) && t.midAllLatencies == Prefixes(chunks)
      && multiset(t.midLatencies)[x] == Once(chunks, x)
      && multiset(t.midAllLatencies)[x] == Weighted(chunks, x, |chunks|)
  {
    ListsInWindow(states, beats, o, n, k);
    CollectedAccumulates(states[n], beats[n], k, PushesBetween(beats, k, o + 1, n));
    ChunksRepeat(Chunks(PushesBetween(beats, k, o + 1, n + 1)), x);
    hide Flatten, Prefixes, Chunks, Collected, Moves, Heartbeat;
  }

  // ----- what every heartbeat starts anew

  ghost function Exhausted(ps: seq<Push>): nat {
    if ps == [] then 0 else Exhausted(ps[..|ps| - 1]) + ps[|ps| - 1].report.exhausted
  }

  /** m is the least of bound and the periods of the pushes. */
  ghost predicate IsLeastPeriod(m: real, bound: real, ps: seq<Push>) {
    && m <= bound && (forall i :: 0 <= i < |ps| ==> m <= ps[i].period)
    && (m == bound || exists i :: 0 <= i < |ps| && m == ps[i].period)
  }

  lemma {:induction false} PushAllTotals(t: Txn, ps: seq<Push>)
    ensures var t' := PushAll(t, ps);
      && t'.midStatus == t.midStatus && IsLeastPeriod(t'.minInterval, t.minInterval, ps)
      && t'.midExhausted == t.midExhausted + if t.midStatus == 1 then Exhausted(ps) else 0
  {
    if ps != [] {
      var rest, p := ps[..|ps| - 1], ps[|ps| - 1];
      PushAllTotals(t, rest);
      assert ps == rest + [p];
    }
  }

  /** Of a known type: the transactions given up and the shortest period are those of this heartbeat
      alone, and the former are counted in the recording period only. */
  lemma HeartbeatTotals(c: Controller, b: Beat, k: TxnType)
    requires k in c.infos
    ensures var t, ps := RecordOf(Collected(c, b), k), PushesFor(b.reports, k);
      && t.midExhausted == (if c.infos[k].midStatus == 1 then Exhausted(ps) else 0)
      && IsLeastPeriod(t.minInterval, 99999.9, ps)
  {
    PushReportsOnRecord(ClearAll(c), b.reports, k);
    PushAllTotals(Clear(c.infos[k]), PushesFor(b.reports, k));
    hide PushAll, PushesFor, PushReports;
  }
}
