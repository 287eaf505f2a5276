/** The benchmark controller (class ClientController of run.py): on every heartbeat it clears and
    re-adds the cumulative client reports, moves the recording window, prints and shifts the
    counters.  A run is any sequence of heartbeats. */
module Recording {
  import opened Basics
  import opened TxnRecord
  import Window

  type TxnType = nat

  /** A client's answer to one heartbeat: its transaction types in dictionary order. */
  datatype ClientReport = ClientReport(period: real, txns: seq<(TxnType, Report)>)

  /** One heartbeat: the answers of all clients, the progress they amount to, and the run time since
      the heartbeat before and since the start. */
  datatype Beat = Beat(reports: seq<ClientReport>, progress: int, intervalTime: real, totalTime: real)

  /** `types` lists the keys of the txn_infos dictionary in insertion order. */
  datatype Controller = Controller(
    types: seq<TxnType>,
    infos: map<TxnType, Txn>,
    cur: Counts,
    pre: Counts,
    recording: bool,
    proxies: nat)

  function InitialController(proxies: nat): Controller {
    Controller([], map[], ZERO, ZERO, false, proxies)
  }

  function ClearAll(c: Controller): Controller {
    c.(infos := map k | k in c.infos :: Clear(c.infos[k]), cur := ZERO)
  }

  function Register(c: Controller, k: TxnType): (c': Controller)
    ensures k in c'.infos
  {
    if k in c.infos then c else c.(types := c.types + [k], infos := c.infos[k := NewTxn()])
  }

  function PushTxn(c: Controller, period: real, k: TxnType, r: Report): Controller {
    var c1 := Register(c, k);
    c1.(cur := c1.cur.Plus(r.counts), infos := c1.infos[k := PushRes(c1.infos[k], Push(r, period))])
  }

  function PushClient(c: Controller, period: real, txns: seq<(TxnType, Report)>): Controller {
    if txns == [] then c
    else
      var last := txns[|txns| - 1];
      PushTxn(PushClient(c, period, txns[..|txns| - 1]), period, last.0, last.1)
  }

  function PushReports(c: Controller, reports: seq<ClientReport>): Controller {
    if reports == [] then c
    else
      var last := reports[|reports| - 1];
      PushClient(PushReports(c, reports[..|reports| - 1]), last.period, last.txns)
  }

  /** The controller once the clients' answers are in. */
  function Collected(c: Controller, b: Beat): Controller {
    PushReports(ClearAll(c), b.reports)
  }

  predicate AllPrint(c: Controller) {
    forall k :: k in c.infos ==> CanPrint(c.infos[k], c.proxies)
  }

  /** The window moves; closing it prints every record, which raises if one cannot be printed. */
  function MoveWindow(c: Controller, progress: int): Controller
    requires Window.Closes(c.recording, progress) ==> AllPrint(c)
  {
    if Window.Opens(c.recording, progress) then
      c.(recording := true, infos := map k | k in c.infos :: SetMidStatus(c.infos[k]))
    else if Window.Closes(c.recording, progress) then
      c.(recording := false, infos := map k | k in c.infos :: SetMidStatus(AfterPrint(c.infos[k], c.proxies)))
    else c
  }

  function Shift(c: Controller): Controller {
    c.(infos := map k | k in c.infos :: GetRes(c.infos[k]), pre := c.cur)
  }

  datatype Outcome = Stopped | Running(next: Controller)

  /** A heartbeat that no client answers exits; a record that cannot be printed raises, and so do the
      throughputs of the tables when no time has passed.  Either way client_run does not return. */
  function Heartbeat(c: Controller, b: Beat): Outcome {
    if b.reports == [] then Stopped
    else
      var collected := Collected(c, b);
      if Window.Closes(collected.recording, b.progress) && !AllPrint(collected) then Stopped
      else if b.intervalTime == 0.0 || b.totalTime == 0.0 then Stopped
      else Running(Shift(MoveWindow(collected, b.progress)))
  }

  ghost predicate IsRun(states: seq<Controller>, beats: seq<Beat>) {
    && |states| == |beats| + 1
    && states[0] == InitialController(states[0].proxies)
    && forall i :: 0 <= i < |beats| ==> Heartbeat(states[i], beats[i]) == Running(states[i + 1])
  }

  // ----- one record inside the controller

  function RecordOf(c: Controller, k: TxnType): Txn {
    if k in c.infos then c.infos[k] else NewTxn()
  }

  /** The pushes of one client, and of a heartbeat, that concern type k. */
  function ClientPushes(period: real, txns: seq<(TxnType, Report)>, k: TxnType): seq<Push> {
    if txns == [] then []
    else
      var last := txns[|txns| - 1];
      ClientPushes(period, txns[..|txns| - 1], k) + if last.0 == k then [Push(last.1, period)] else []
  }

  function PushesFor(reports: seq<ClientReport>, k: TxnType): seq<Push> {
    if reports == [] then []
    else
      var last := reports[|reports| - 1];
      PushesFor(reports[..|reports| - 1], k) + ClientPushes(last.period, last.txns, k)
  }

  lemma {:induction false} PushAllConcat(t: Txn, a: seq<Push>, b: seq<Push>)
    ensures PushAll(t, a + b) == PushAll(PushAll(t, a), b)
  {
    if b == [] {
      assert a + b == a;
    } else {
      PushAllConcat(t, a, b[..|b| - 1]);
      assert (a + b)[..|a + b| - 1] == a + b[..|b| - 1];
    }
  }

  lemma PushAllOne(t: Txn, ps: seq<Push>, p: Push)
    ensures PushAll(t, ps + [p]) == PushRes(PushAll(t, ps), p)
  {
    assert (ps + [p])[..|ps|] == ps;
  }

  lemma PushTxnOnRecord(c: Controller, period: real, k0: TxnType, r: Report, k: TxnType)
    ensures RecordOf(PushTxn(c, period, k0, r), k) ==
            if k0 == k then PushRes(RecordOf(c, k), Push(r, period)) else RecordOf(c, k)
    ensures c.infos.Keys <= PushTxn(c, period, k0, r).infos.Keys
  {
  }

  lemma {:induction false} PushClientOnRecord(c: Controller, period: real, txns: seq<(TxnType, Report)>, k: TxnType)
    ensures RecordOf(PushClient(c, period, txns), k) == PushAll(RecordOf(c, k), ClientPushes(period, txns, k))
    ensures c.infos.Keys <= PushClient(c, period, txns).infos.Keys
    ensures PushClient(c, period, txns).recording == c.recording && PushClient(c, period, txns).proxies == c.proxies
    ensures PushClient(c, period, txns).pre == c.pre
  {
    if txns != [] {
      var rest, last := txns[..|txns| - 1], txns[|txns| - 1];
      PushClientOnRecord(c, period, rest, k);
      PushTxnOnRecord(PushClient(c, period, rest), period, last.0, last.1, k);
      PushAllOne(RecordOf(c, k), ClientPushes(period, rest, k), Push(last.1, period));
      assert last.0 != k ==> ClientPushes(period, txns, k) == ClientPushes(period, rest, k);
    }
  }

  lemma {:induction false} PushReportsOnRecord(c: Controller, reports: seq<ClientReport>, k: TxnType)
    ensures RecordOf(PushReports(c, reports), k) == PushAll(RecordOf(c, k), PushesFor(reports, k))
    ensures c.infos.Keys <= PushReports(c, reports).infos.Keys
    ensures PushReports(c, reports).recording == c.recording && PushReports(c, reports).proxies == c.proxies
    ensures PushReports(c, reports).pre == c.pre
  {
    if reports != [] {
      var rest, last := reports[..|reports| - 1], reports[|reports| - 1];
      PushReportsOnRecord(c, rest, k);
      PushClientOnRecord(PushReports(c, rest), last.period, last.txns, k);
      PushAllConcat(RecordOf(c, k), PushesFor(rest, k), ClientPushes(last.period, last.txns, k));
    }
  }

  ghost function SumPushed(ps: seq<Push>): Counts {
    if ps == [] then ZERO else SumPushed(ps[..|ps| - 1]).Plus(ps[|ps| - 1].report.counts)
  }

  /** Pushing moves only the counters that the record's status selects. */
  lemma {:induction false} PushAllCounts(t: Txn, ps: seq<Push>)
    ensures var t' := PushAll(t, ps);
      && t'.midStatus == t.midStatus && t'.pre == t.pre
      && t'.cur == t.cur.Plus(SumPushed(ps))
      && t'.midPre == (if t.midStatus == 0 then t.midPre.Plus(SumPushed(ps)) else t.midPre)
      && t'.mid == (if t.midStatus == 1 then t.mid.Plus(SumPushed(ps)) else t.mid)
  {
    if ps != [] {
      PushAllCounts(t, ps[..|ps| - 1]);
    }
  }

  /** A record that is known before a heartbeat, once the answers are in. */
  lemma CollectedRecord(c: Controller, b: Beat, k: TxnType)
    requires k in c.infos
    ensures k in Collected(c, b).infos
    ensures var t, t' := c.infos[k], Collected(c, b).infos[k];
      && t'.midStatus == t.midStatus && t'.pre == t.pre
      && (t.midStatus == 0 ==> t'.midPre == t'.cur && t'.mid == t.mid)
      && (t.midStatus == 1 ==> t'.mid == t'.cur && t'.midPre == t.midPre)
      && (t.midStatus >= 2 ==> t'.mid == t.mid && t'.midPre == t.midPre)
    ensures Collected(c, b).recording == c.recording
  {
    PushReportsOnRecord(ClearAll(c), b.reports, k);
    PushAllCounts(Clear(c.infos[k]), PushesFor(b.reports, k));
  }

  lemma NewRecord(c: Controller, b: Beat, k: TxnType)
    requires k !in c.infos && k in Collected(c, b).infos
    ensures var t' := Collected(c, b).infos[k]; t'.midStatus == 0 && t'.midPre == t'.cur && t'.pre == ZERO
    ensures Collected(c, b).recording == c.recording
  {
    PushReportsOnRecord(ClearAll(c), b.reports, k);
    PushAllCounts(NewTxn(), PushesFor(b.reports, k));
  }

  lemma PushReportsKeeps(c: Controller, reports: seq<ClientReport>)
    ensures PushReports(c, reports).recording == c.recording && PushReports(c, reports).pre == c.pre
    ensures c.infos.Keys <= PushReports(c, reports).infos.Keys
  {
    PushReportsOnRecord(c, reports, 0);
  }

  // ----- window discipline

  function Toggles(recording: bool, progress: int): nat {
    if Window.Opens(recording, progress) || Window.Closes(recording, progress) then 1 else 0
  }

  /** A heartbeat moves the window by its progress alone and the status of every record with it. */
  lemma StatusFollowsWindow(c: Controller, b: Beat, c': Controller, k: TxnType)
    requires Heartbeat(c, b) == Running(c')
    ensures c'.recording == Window.After(c.recording, b.progress)
    ensures k in c.infos ==> k in c'.infos
    ensures k in c'.infos ==>
      c'.infos[k].midStatus == (if k in c.infos then c.infos[k].midStatus else 0) + Toggles(c.recording, b.progress)
  {
    PushReportsKeeps(ClearAll(c), b.reports);
    if k in c.infos {
      CollectedRecord(c, b, k);
    } else if k in Collected(c, b).infos {
      NewRecord(c, b, k);
    }
  }

  function Progress(beats: seq<Beat>): seq<int> {
    seq(|beats|, i requires 0 <= i < |beats| => beats[i].progress)
  }

  /** How often the window has been opened or closed by the first i heartbeats. */
  function Moves(beats: seq<Beat>, i: nat): nat
    requires i <= |beats|
  {
    Window.Openings(Progress(beats[..i])) + Window.Closings(Progress(beats[..i]))
  }

  lemma {:induction false} RecordingFollows(states: seq<Controller>, beats: seq<Beat>, i: nat)
    requires IsRun(states, beats) && i <= |beats|
    ensures states[i].recording == Window.Recording(Progress(beats[..i]))
    ensures i < |beats| ==> Moves(beats, i + 1) == Moves(beats, i) + Toggles(states[i].recording, beats[i].progress)
  {
    hide Heartbeat;
    if i > 0 {
      RecordingFollows(states, beats, i - 1);
      StatusFollowsWindow(states[i - 1], beats[i - 1], states[i], 0);
      assert Progress(beats[..i])[..i - 1] == Progress(beats[..i - 1]);
    }
    if i < |beats| {
      assert Progress(beats[..i + 1])[..i] == Progress(beats[..i]);
    }
  }

  /** A record counts the moves of the window since it became known. */
  lemma {:induction false} StatusCountsMoves(states: seq<Controller>, beats: seq<Beat>, o: nat, i: nat, k: TxnType)
    requires IsRun(states, beats) && o <= i <= |beats| && k in states[o].infos
    ensures k in states[i].infos
    ensures states[i].infos[k].midStatus == states[o].infos[k].midStatus + Moves(beats, i) - Moves(beats, o)
    decreases i
  {
    hide Heartbeat, Moves;
    if i > o {
      StatusCountsMoves(states, beats, o, i - 1, k);
      StatusFollowsWindow(states[i - 1], beats[i - 1], states[i], k);
      RecordingFollows(states, beats, i - 1);
    }
  }

  lemma {:induction false} UnmovedStatus(states: seq<Controller>, beats: seq<Beat>, i: nat, k: TxnType)
    requires IsRun(states, beats) && i <= |beats| && k in states[i].infos
    ensures states[i].infos[k].midStatus <= Moves(beats, i)
  {
    hide Heartbeat, Moves;
    if i > 0 {
      if k in states[i - 1].infos {
        UnmovedStatus(states, beats, i - 1, k);
      }
      StatusFollowsWindow(states[i - 1], beats[i - 1], states[i], k);
      RecordingFollows(states, beats, i - 1);
    }
  }

  /** Heartbeat o opens the first window of the run. */
  ghost predicate FirstOpening(beats: seq<Beat>, o: nat) {
    o < |beats| && Moves(beats, o) == 0 && Moves(beats, o + 1) == 1
  }

  lemma BeforeWindow(states: seq<Controller>, beats: seq<Beat>, o: nat, i: nat, k: TxnType)
    requires IsRun(states, beats) && i <= o <= |beats| && Moves(beats, o) == 0 && k in states[i].infos
    ensures states[i].infos[k].midStatus == 0
  {
    MovesGrow(beats, i, o);
    UnmovedStatus(states, beats, i, k);
  }

  lemma AfterOpening(states: seq<Controller>, beats: seq<Beat>, o: nat, k: TxnType)
    requires IsRun(states, beats) && FirstOpening(beats, o) && k in states[o + 1].infos
    ensures states[o + 1].infos[k].midStatus == 1
  {
    if k in states[o].infos {
      BeforeWindow(states, beats, o, o, k);
    }
    RecordingFollows(states, beats, o);
    StatusFollowsWindow(states[o], beats[o], states[o + 1], k);
  }

  /** A record known by the heartbeat that opens the first window has status 0 before it, and
      after it 1 while the window is open and 2 once it is closed, provided the progress values
      allow one window only; in general the status is the number of moves of the window. */
  lemma WindowDiscipline(states: seq<Controller>, beats: seq<Beat>, o: nat, i: nat, k: TxnType)
    requires IsRun(states, beats) && FirstOpening(beats, o) && i <= |beats| && k in states[o + 1].infos
    ensures i <= o && k in states[i].infos ==> states[i].infos[k].midStatus == 0
    ensures i > o ==> k in states[i].infos && states[i].infos[k].midStatus == Moves(beats, i)
    ensures i > o && Window.NonDecreasing(Progress(beats[..i])) && Window.Openings(Progress(beats[..i])) <= 1 ==>
      states[i].infos[k].midStatus == if states[i].recording then 1 else 2
  {
    hide Heartbeat, Window.Openings, Window.Closings;
    if i <= o {
      if k in states[i].infos {
        BeforeWindow(states, beats, o, i, k);
      }
    } else {
      AfterOpening(states, beats, o, k);
      StatusCountsMoves(states, beats, o + 1, i, k);
      RecordingFollows(states, beats, i);
      MovesGrow(beats, o + 1, i);
      if Window.NonDecreasing(Progress(beats[..i])) {
        Window.WindowsClosedForm(Progress(beats[..i]));
      }
    }
  }

  lemma {:induction false} MovesGrow(beats: seq<Beat>, i: nat, j: nat)
    requires i <= j <= |beats|
    ensures Moves(beats, i) <= Moves(beats, j)
    decreases j
  {
    if i < j {
      MovesGrow(beats, i, j - 1);
      assert Progress(beats[..j])[..j - 1] == Progress(beats[..j - 1]);
    }
  }

  // ----- recorded counts

  /** What the heartbeat's interval table shows for type k. */
  function IntervalOf(c: Controller, b: Beat, k: TxnType): Counts {
    IntervalRow(RecordOf(Collected(c, b), k))
  }

  /** The interval rows of type k over heartbeats from..to-1. */
  ghost function SumIntervals(states: seq<Controller>, beats: seq<Beat>, k: TxnType, from: nat, to: nat): Counts
    requires |states| == |beats| + 1 && from <= to <= |beats|
  {
    if from == to then ZERO
    else SumIntervals(states, beats, k, from, to - 1).Plus(IntervalOf(states[to - 1], beats[to - 1], k))
  }

  /** After a heartbeat the previous counts are the current ones. */
  lemma ShiftedRecord(c: Controller, b: Beat, c': Controller, k: TxnType)
    requires Heartbeat(c, b) == Running(c') && k in Collected(c, b).infos
    ensures k in c'.infos
    ensures var t := Collected(c, b).infos[k]; var t' := c'.infos[k];
      && t'.cur == t.cur && t'.pre == t.cur && t'.mid == t.mid && t'.midPre == t.midPre
      && t'.lastIntervalStart == IntervalRow(t).start
  {
  }

  /** A heartbeat inside the window: the base stays, and the counts move by the interval row. */
  lemma StepInWindow(c: Controller, b: Beat, c': Controller, k: TxnType)
    requires Heartbeat(c, b) == Running(c') && k in c.infos && c.infos[k].midStatus == 1
    requires c.infos[k].pre == c.infos[k].cur
    ensures k in c'.infos && c'.infos[k].pre == c'.infos[k].cur && c'.infos[k].midPre == c.infos[k].midPre
    ensures c'.infos[k].cur == c.infos[k].cur.Plus(IntervalOf(c, b, k))
    ensures RecordOf(Collected(c, b), k).mid == c'.infos[k].cur
    ensures RecordOf(Collected(c, b), k).midPre == c.infos[k].midPre
  {
    CollectedRecord(c, b, k);
    ShiftedRecord(c, b, c', k);
  }

  lemma StepIntoWindow(c: Controller, b: Beat, c': Controller, k: TxnType)
    requires Heartbeat(c, b) == Running(c') && k in c'.infos && (k in c.infos ==> c.infos[k].midStatus == 0)
    ensures c'.infos[k].pre == c'.infos[k].cur == c'.infos[k].midPre
  {
    if k in c.infos {
      CollectedRecord(c, b, k);
    } else {
      NewRecord(c, b, k);
    }
    ShiftedRecord(c, b, c', k);
  }

  ghost predicate InWindow(states: seq<Controller>, beats: seq<Beat>, o: nat, i: nat, k: TxnType)
    requires |states| == |beats| + 1 && o < i <= |beats|
  {
    && k in states[o + 1].infos && k in states[i].infos
    && var t := states[i].infos[k];
    && t.midStatus == 1 && t.pre == t.cur && t.midPre == states[o + 1].infos[k].cur
    && t.cur == states[o + 1].infos[k].cur.Plus(SumIntervals(states, beats, k, o + 1, i))
  }

  /** While a record's window is open, its base is the count at the opening. */
  lemma {:induction false} OpenWindow(states: seq<Controller>, beats: seq<Beat>, o: nat, i: nat, k: TxnType)
    requires IsRun(states, beats) && FirstOpening(beats, o) && o < i <= |beats| && Moves(beats, i) == 1
    requires k in states[o + 1].infos
    ensures InWindow(states, beats, o, i, k)
    decreases i
  {
    hide Heartbeat, Moves, SumIntervals, Window.Openings, Window.Closings;
    if i == o + 1 {
      EnterWindow(states, beats, o, k);
    } else {
      MovesGrow(beats, i - 1, i);
      MovesGrow(beats, o + 1, i - 1);
      OpenWindow(states, beats, o, i - 1, k);
      WindowDiscipline(states, beats, o, i, k);
      StayInWindow(states, beats, o, i, k);
    }
  }

  lemma EnterWindow(states: seq<Controller>, beats: seq<Beat>, o: nat, k: TxnType)
    requires IsRun(states, beats) && FirstOpening(beats, o) && k in states[o + 1].infos
    ensures InWindow(states, beats, o, o + 1, k)
  {
    hide Heartbeat, Window.Openings, Window.Closings;
    WindowDiscipline(states, beats, o, o + 1, k);
    if k in states[o].infos {
      UnmovedStatus(states, beats, o, k);
    }
    StepIntoWindow(states[o], beats[o], states[o + 1], k);
  }

  lemma StayInWindow(states: seq<Controller>, beats: seq<Beat>, o: nat, i: nat, k: TxnType)
    requires IsRun(states, beats) && o + 1 < i <= |beats| && InWindow(states, beats, o, i - 1, k)
    requires k in states[i].infos && states[i].infos[k].midStatus == 1
    ensures InWindow(states, beats, o, i, k)
  {
    StepInWindow(states[i - 1], beats[i - 1], states[i], k);
    assert SumIntervals(states, beats, k, o + 1, i)
        == SumIntervals(states, beats, k, o + 1, i - 1).Plus(IntervalOf(states[i - 1], beats[i - 1], k));
  }

  /** Telescoping: for a type known by the heartbeat o that opens the first window, the counts
      printed when heartbeat n closes it are the sum of that type's interval rows over all
      heartbeats after the opening one, up to and including the closing one. */
  lemma RecordedCountsTelescope(states: seq<Controller>, beats: seq<Beat>, o: nat, n: nat, k: TxnType)
    requires IsRun(states, beats) && FirstOpening(beats, o) && o < n < |beats|
    requires Moves(beats, n) == 1 && Moves(beats, n + 1) == 2
    requires k in states[o + 1].infos
    ensures var logged := PrintMid(RecordOf(Collected(states[n], beats[n]), k), states[n].proxies);
      logged.Logged? && logged.printed.counts == SumIntervals(states, beats, k, o + 1, n + 1)
  {
    OpenWindow(states, beats, o, n, k);
    RecordingFollows(states, beats, n);
    WindowIsOpen(beats, n);
    CloseWindow(states, beats, o, n, k);
  }

  lemma CloseWindow(states: seq<Controller>, beats: seq<Beat>, o: nat, n: nat, k: TxnType)
    requires |states| == |beats| + 1 && o < n < |beats| && Heartbeat(states[n], beats[n]) == Running(states[n + 1])
    requires InWindow(states, beats, o, n, k) && states[n].recording
    requires Toggles(states[n].recording, beats[n].progress) == 1
    ensures var logged := PrintMid(RecordOf(Collected(states[n], beats[n]), k), states[n].proxies);
      logged.Logged? && logged.printed.counts == SumIntervals(states, beats, k, o + 1, n + 1)
  {
    ClosingCounts(states[n], beats[n], states[n + 1], k);
    hide Heartbeat, PrintMid, IntervalOf, Collected, Toggles;
    var base, sum, row :=
      states[o + 1].infos[k].cur, SumIntervals(states, beats, k, o + 1, n), IntervalOf(states[n], beats[n], k);
    assert base.Plus(sum).Plus(row).Minus(base) == sum.Plus(row);
  }

  lemma {:induction false} WindowIsOpen(beats: seq<Beat>, i: nat)
    requires i <= |beats|
    ensures Window.Recording(Progress(beats[..i])) <==> Moves(beats, i) % 2 == 1
  {
    if i > 0 {
      WindowIsOpen(beats, i - 1);
      assert Progress(beats[..i])[..i - 1] == Progress(beats[..i - 1]);
    }
  }

  lemma ClosingCounts(c: Controller, b: Beat, c': Controller, k: TxnType)
    requires Heartbeat(c, b) == Running(c') && k in c.infos && c.infos[k].midStatus == 1
    requires c.infos[k].pre == c.infos[k].cur
    requires Toggles(c.recording, b.progress) == 1 && c.recording
    ensures var logged := PrintMid(RecordOf(Collected(c, b), k), c.proxies);
      && logged.Logged?
      && logged.printed.counts == c.infos[k].cur.Plus(IntervalOf(c, b, k)).Minus(c.infos[k].midPre)
  {
    StepInWindow(c, b, c', k);
    ClosingPrints(c, b, c', k);
  }

  lemma ClosingPrints(c: Controller, b: Beat, c': Controller, k: TxnType)
    requires Heartbeat(c, b) == Running(c') && k in c.infos && Toggles(c.recording, b.progress) == 1 && c.recording
    ensures CanPrint(RecordOf(Collected(c, b), k), c.proxies)
  {
    PushReportsOnRecord(ClearAll(c), b.reports, k);
  }

  /** Once a record has been through its window its recorded counts never change. */
  lemma {:induction false} RecordedStays(states: seq<Controller>, beats: seq<Beat>, i: nat, j: nat, k: TxnType)
    requires IsRun(states, beats) && i <= j <= |beats| && k in states[i].infos && states[i].infos[k].midStatus >= 2
    ensures k in states[j].infos && states[j].infos[k].midStatus >= 2
    ensures states[j].infos[k].mid == states[i].infos[k].mid && states[j].infos[k].midPre == states[i].infos[k].midPre
    decreases j
  {
    if i < j {
      RecordedStays(states, beats, i, j - 1, k);
      CollectedRecord(states[j - 1], beats[j - 1], k);
      StatusFollowsWindow(states[j - 1], beats[j - 1], states[j], k);
      ShiftedRecord(states[j - 1], beats[j - 1], states[j], k);
    }
  }

  /** What heartbeat n prints for type k when it closes a window. */
  function PrintedAt(states: seq<Controller>, beats: seq<Beat>, n: nat, k: TxnType): PrintResult
    requires n < |beats| <= |states|
  {
    PrintMid(RecordOf(Collected(states[n], beats[n]), k), states[n].proxies)
  }

  /** Every later window prints the counts of the first one again. */
  lemma LaterPrintsRepeat(states: seq<Controller>, beats: seq<Beat>, n: nat, m: nat, k: TxnType)
    requires IsRun(states, beats) && n < m < |beats| && k in states[n].infos && states[n].infos[k].midStatus >= 1
    requires Window.Closes(states[n].recording, beats[n].progress)
    requires Window.Closes(states[m].recording, beats[m].progress)
    ensures var first, later := PrintedAt(states, beats, n, k), PrintedAt(states, beats, m, k);
      first.Logged? && later.Logged? && later.printed.counts == first.printed.counts
  {
    hide Window.Closes, Window.Opens;
    assert Toggles(states[n].recording, beats[n].progress) == 1;
    StatusFollowsWindow(states[n], beats[n], states[n + 1], k);
    CollectedRecord(states[n], beats[n], k);
    ShiftedRecord(states[n], beats[n], states[n + 1], k);
    RecordedStays(states, beats, n + 1, m, k);
    CollectedRecord(states[m], beats[m], k);
    ClosingLogs(states[n], beats[n], states[n + 1], k);
    ClosingLogs(states[m], beats[m], states[m + 1], k);
  }

  lemma ClosingLogs(c: Controller, b: Beat, c': Controller, k: TxnType)
    requires Heartbeat(c, b) == Running(c') && k in c.infos && Window.Closes(c.recording, b.progress)
    ensures var t := RecordOf(Collected(c, b), k); var logged := PrintMid(t, c.proxies);
      logged.Logged? && logged.printed.counts == t.mid.Minus(t.midPre)
  {
    ClosingPrints(c, b, c', k);
  }

  // ----- types first seen inside a window

  /** A record whose window has not been opened has recorded nothing. */
  ghost predicate Unrecorded(t: Txn) {
    t.midStatus == 0 ==>
      && t.midTime == 0.0 && t.midLatencies == [] && t.midAllLatencies == []
      && t.midAttempts == [] && t.midTries == []
  }

  lemma {:induction false} PushAllUnrecorded(t: Txn, ps: seq<Push>)
    requires Unrecorded(t)
    ensures Unrecorded(PushAll(t, ps)) && PushAll(t, ps).midStatus == t.midStatus
  {
    if ps != [] {
      PushAllUnrecorded(t, ps[..|ps| - 1]);
    }
  }

  lemma CollectedUnrecorded(c: Controller, b: Beat, k: TxnType)
    requires k in c.infos ==> Unrecorded(c.infos[k])
    ensures Unrecorded(RecordOf(Collected(c, b), k))
    ensures RecordOf(Collected(c, b), k).midStatus == RecordOf(c, k).midStatus
  {
    PushReportsOnRecord(ClearAll(c), b.reports, k);
    PushAllUnrecorded(RecordOf(ClearAll(c), k), PushesFor(b.reports, k));
  }

  lemma {:induction false} RunUnrecorded(states: seq<Controller>, beats: seq<Beat>, i: nat, k: TxnType)
    requires IsRun(states, beats) && i <= |beats| && k in states[i].infos
    ensures Unrecorded(states[i].infos[k])
  {
    if i > 0 {
      if k in states[i - 1].infos {
        RunUnrecorded(states, beats, i - 1, k);
      }
      CollectedUnrecorded(states[i - 1], beats[i - 1], k);
      ShiftedUnrecorded(states[i - 1], beats[i - 1], states[i], k);
    }
  }

  lemma ShiftedUnrecorded(c: Controller, b: Beat, c': Controller, k: TxnType)
    requires Heartbeat(c, b) == Running(c') && k in c'.infos && Unrecorded(RecordOf(Collected(c, b), k))
    ensures Unrecorded(c'.infos[k])
  {
    hide AfterPrint, PushReports;
  }

  /** A type that is still unrecorded when a window closes has no recorded time, and the division by it
      raises. */
  lemma UnrecordedStops(states: seq<Controller>, beats: seq<Beat>, last: Beat, k: TxnType)
    requires IsRun(states, beats)
    requires var c := states[|beats|];
      && Window.Closes(c.recording, last.progress)
      && k in Collected(c, last).infos && RecordOf(c, k).midStatus == 0
    ensures Heartbeat(states[|beats|], last) == Stopped && !AllPrint(Collected(states[|beats|], last))
  {
    var c := states[|beats|];
    if k in c.infos {
      RunUnrecorded(states, beats, |beats|, k);
    }
    CollectedUnrecorded(c, last, k);
    PushReportsKeeps(ClearAll(c), last.reports);
  }

  /** A type unknown to the heartbeat that opened the window still counts as unrecorded in it. */
  lemma {:induction false} NewInWindow(states: seq<Controller>, beats: seq<Beat>, o: nat, i: nat, k: TxnType)
    requires IsRun(states, beats) && FirstOpening(beats, o) && o < i <= |beats| && Moves(beats, i) == 1
    requires k !in states[o + 1].infos
    ensures RecordOf(states[i], k).midStatus == 0
    decreases i
  {
    hide Heartbeat, Moves;
    if i > o + 1 {
      MovesGrow(beats, o + 1, i - 1);
      MovesGrow(beats, i - 1, i);
      NewInWindow(states, beats, o, i - 1, k);
      RecordingFollows(states, beats, i - 1);
      StatusFollowsWindow(states[i - 1], beats[i - 1], states[i], k);
    }
  }

  /** No run goes on past the close of its first window if a type first appeared inside it. */
  lemma NewTypeStops(states: seq<Controller>, beats: seq<Beat>, o: nat, last: Beat, k: TxnType)
    requires IsRun(states, beats) && FirstOpening(beats, o) && Moves(beats, |beats|) == 1
    requires k !in states[o + 1].infos && k in Collected(states[|beats|], last).infos
    requires last.progress >= Window.UPPER_CUTOFF
    ensures Heartbeat(states[|beats|], last) == Stopped && !AllPrint(Collected(states[|beats|], last))
  {
    hide Heartbeat, Moves, Collected;
    assert beats[..|beats|] == beats;
    NewInWindow(states, beats, o, |beats|, k);
    RecordingFollows(states, beats, |beats|);
    WindowIsOpen(beats, |beats|);
    UnrecordedStops(states, beats, last, k);
  }

  // ----- conservation

  ghost predicate Known(types: seq<TxnType>, infos: map<TxnType, Txn>) {
    forall i :: 0 <= i < |types| ==> types[i] in infos
  }

  ghost function Sum(types: seq<TxnType>, infos: map<TxnType, Txn>, f: Txn -> Counts): Counts
    requires Known(types, infos)
  {
    if types == [] then ZERO
    else Sum(types[..|types| - 1], infos, f).Plus(f(infos[types[|types| - 1]]))
  }

  ghost predicate Keyed(c: Controller) {
    Known(c.types, c.infos) && Distinct(c.types) && forall k :: k in c.infos ==> k in c.types
  }

  function Cur(t: Txn): Counts { t.cur }
  function Pre(t: Txn): Counts { t.pre }

  ghost predicate Conserved(c: Controller) {
    Keyed(c) && c.cur == Sum(c.types, c.infos, Cur) && c.pre == Sum(c.types, c.infos, Pre)
  }

  lemma {:induction false} SumAgrees(types: seq<TxnType>, a: map<TxnType, Txn>, f: Txn -> Counts,
                                     b: map<TxnType, Txn>, g: Txn -> Counts)
    requires Known(types, a) && Known(types, b)
    requires forall i :: 0 <= i < |types| ==> f(a[types[i]]) == g(b[types[i]])
    ensures Sum(types, a, f) == Sum(types, b, g)
  {
    if types != [] {
      SumAgrees(types[..|types| - 1], a, f, b, g);
    }
  }

  lemma {:induction false} SumUpdate(types: seq<TxnType>, infos: map<TxnType, Txn>, f: Txn -> Counts, k: TxnType,
                                     t: Txn)
    requires Known(types, infos) && Distinct(types) && k in types
    ensures k in infos && Known(types, infos[k := t])
    ensures Sum(types, infos[k := t], f) == Sum(types, infos, f).Plus(f(t).Minus(f(infos[k])))
  {
    var rest, last := types[..|types| - 1], types[|types| - 1];
    if last == k {
      SumAgrees(rest, infos, f, infos[k := t], f);
    } else {
      SumUpdate(rest, infos, f, k, t);
    }
  }

  lemma {:induction false} SumZero(types: seq<TxnType>, infos: map<TxnType, Txn>, f: Txn -> Counts)
    requires Known(types, infos)
    requires forall k :: k in infos ==> f(infos[k]) == ZERO
    ensures Sum(types, infos, f) == ZERO
  {
    if types != [] {
      SumZero(types[..|types| - 1], infos, f);
      assert types[|types| - 1] in infos;
    }
  }

  lemma ClearConserves(c: Controller)
    requires Conserved(c)
    ensures Conserved(ClearAll(c))
  {
    var d := ClearAll(c);
    assert Keyed(d);
    ClearedSums(c.types, c.infos, d.infos);
  }

  lemma ClearedSums(types: seq<TxnType>, infos: map<TxnType, Txn>, cleared: map<TxnType, Txn>)
    requires Known(types, infos) && Known(types, cleared)
    requires forall k :: k in cleared ==> k in infos && cleared[k] == Clear(infos[k])
    ensures Sum(types, cleared, Cur) == ZERO && Sum(types, cleared, Pre) == Sum(types, infos, Pre)
  {
    SumZero(types, cleared, Cur);
    SumAgrees(types, infos, Pre, cleared, Pre);
  }

  lemma SumSnoc(types: seq<TxnType>, infos: map<TxnType, Txn>, f: Txn -> Counts, k: TxnType)
    requires Known(types, infos) && k in infos
    ensures Known(types + [k], infos)
    ensures Sum(types + [k], infos, f) == Sum(types, infos, f).Plus(f(infos[k]))
  {
    assert (types + [k])[..|types|] == types;
  }

  lemma SumAppend(types: seq<TxnType>, infos: map<TxnType, Txn>, f: Txn -> Counts, k: TxnType, t: Txn)
    requires Known(types, infos) && k !in types && f(t) == ZERO
    ensures Known(types + [k], infos[k := t])
    ensures Sum(types + [k], infos[k := t], f) == Sum(types, infos, f)
  {
    var grown := infos[k := t];
    assert forall i :: 0 <= i < |types| ==> types[i] in types && grown[types[i]] == infos[types[i]];
    SumAgrees(types, infos, f, grown, f);
    SumSnoc(types, grown, f, k);
    hide Sum;
    assert Sum(types, infos, f).Plus(ZERO) == Sum(types, infos, f);
  }

  lemma RegisterKeyed(c: Controller, k: TxnType)
    requires Keyed(c) && k !in c.infos
    ensures k !in c.types && Keyed(Register(c, k)) && k in Register(c, k).types
  {
    var c1 := Register(c, k);
    assert c1.types[|c.types|] == k;
    forall x | x in c1.infos ensures x in c1.types {
      if x != k {
        var i :| 0 <= i < |c.types| && c.types[i] == x;
        assert c1.types[i] == x;
      }
    }
  }

  lemma RegisterConserves(c: Controller, k: TxnType)
    requires Conserved(c)
    ensures Conserved(Register(c, k)) && k in Register(c, k).types
  {
    if k !in c.infos {
      RegisterKeyed(c, k);
      RegisteredSums(c.types, c.infos, k, NewTxn());
    }
  }

  lemma RegisteredSums(types: seq<TxnType>, infos: map<TxnType, Txn>, k: TxnType, t: Txn)
    requires Known(types, infos) && k !in types && t.cur == ZERO && t.pre == ZERO
    ensures Known(types + [k], infos[k := t])
    ensures Sum(types + [k], infos[k := t], Cur) == Sum(types, infos, Cur)
    ensures Sum(types + [k], infos[k := t], Pre) == Sum(types, infos, Pre)
  {
    SumAppend(types, infos, Cur, k, t);
    SumAppend(types, infos, Pre, k, t);
  }

  lemma PushConserves(c: Controller, period: real, k: TxnType, r: Report)
    requires Conserved(c)
    ensures Conserved(PushTxn(c, period, k, r))
  {
    RegisterConserves(c, k);
    var c1 := Register(c, k);
    var t := PushRes(c1.infos[k], Push(r, period));
    SumUpdate(c1.types, c1.infos, Cur, k, t);
    SumUpdate(c1.types, c1.infos, Pre, k, t);
  }

  lemma {:induction false} PushClientConserves(c: Controller, period: real, txns: seq<(TxnType, Report)>)
    requires Conserved(c)
    ensures Conserved(PushClient(c, period, txns))
  {
    if txns != [] {
      PushClientConserves(c, period, txns[..|txns| - 1]);
      PushConserves(PushClient(c, period, txns[..|txns| - 1]), period, txns[|txns| - 1].0, txns[|txns| - 1].1);
    }
  }

  lemma {:induction false} CollectConserves(c: Controller, reports: seq<ClientReport>)
    requires Conserved(c)
    ensures Conserved(PushReports(c, reports))
  {
    if reports != [] {
      var last := reports[|reports| - 1];
      CollectConserves(c, reports[..|reports| - 1]);
      PushClientConserves(PushReports(c, reports[..|reports| - 1]), last.period, last.txns);
    }
  }

  lemma HeartbeatConserves(c: Controller, b: Beat, c': Controller)
    requires Conserved(c) && Heartbeat(c, b) == Running(c')
    ensures Conserved(c')
  {
    hide PushReports, Sum, CanPrint;
    ClearConserves(c);
    CollectConserves(ClearAll(c), b.reports);
    var d := Collected(c, b);
    ShiftedSums(d.types, d.infos, c'.infos);
  }

  lemma ShiftedSums(types: seq<TxnType>, infos: map<TxnType, Txn>, shifted: map<TxnType, Txn>)
    requires Known(types, infos) && Known(types, shifted)
    requires forall k :: k in shifted ==> k in infos && shifted[k].cur == infos[k].cur && shifted[k].pre == infos[k].cur
    ensures Sum(types, shifted, Cur) == Sum(types, infos, Cur) && Sum(types, shifted, Pre) == Sum(types, infos, Cur)
  {
    SumAgrees(types, infos, Cur, shifted, Cur);
    SumAgrees(types, infos, Cur, shifted, Pre);
  }

  lemma {:induction false} SumMinus(types: seq<TxnType>, infos: map<TxnType, Txn>)
    requires Known(types, infos)
    ensures Sum(types, infos, IntervalRow) == Sum(types, infos, Cur).Minus(Sum(types, infos, Pre))
  {
    if types != [] {
      SumMinus(types[..|types| - 1], infos);
    }
  }

  /** Conservation: after every heartbeat of every run the controller's totals, and their previous
      values, are the sums over all records; and in every heartbeat the "Total" interval row is
      the sum of the rows of all types, those first seen in it included. */
  lemma {:induction false} RunConserves(states: seq<Controller>, beats: seq<Beat>, i: nat)
    requires IsRun(states, beats) && i <= |beats|
    ensures Conserved(states[i])
    ensures i < |beats| ==>
      var d := Collected(states[i], beats[i]);
      Keyed(d) && d.cur.Minus(d.pre) == Sum(d.types, d.infos, IntervalRow)
  {
    if i > 0 {
      RunConserves(states, beats, i - 1);
      HeartbeatConserves(states[i - 1], beats[i - 1], states[i]);
    }
    if i < |beats| {
      ClearConserves(states[i]);
      CollectConserves(ClearAll(states[i]), beats[i].reports);
      SumMinus(Collected(states[i], beats[i]).types, Collected(states[i], beats[i]).infos);
    }
  }
}
