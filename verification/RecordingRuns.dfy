/** Two short runs of the benchmark controller, with one client: one in which a second window prints
    the counts of the first, and one that a new transaction type breaks off. */
module RecordingRuns {
  import opened TxnRecord
  import opened Recording
  import Window

  function Commits(n: int): Counts {
    Counts(0, 0, 0, n)
  }

  /** The client has been at work for one second since its last answer and reports n commits in all. */
  function Answer(n: int): Report {
    Report(Commits(n), [], [], [], 0)
  }

  function OneType(n: int, progress: int): Beat {
    Beat([ClientReport(1.0, [(1, Answer(n))])], progress, 1.0, 1.0)
  }

  function TwoTypes(n: int, progress: int): Beat {
    Beat([ClientReport(1.0, [(1, Answer(n)), (2, Answer(n))])], progress, 1.0, 1.0)
  }

  /** The controller knows type 1 at most, which has n commits, and has recorded it for `time` seconds. */
  ghost predicate Stands(c: Controller, recording: bool, status: nat, time: real, n: int) {
    && c.recording == recording && c.proxies == 1 && c.infos.Keys <= {1}
    && var t := RecordOf(c, 1);
    && t.midStatus == status && t.midTime == time && t.cur == t.pre == Commits(n)
    && t.midLatencies == [] && t.midExhausted == 0
  }

  lemma Begins()
    ensures Stands(InitialController(1), false, 0, 0.0, 0)
  {
  }

  /** What the window does at 50 percent, and at 90 percent when it is open and when it is not. */
  lemma WindowAt()
    ensures Window.After(false, 50) && Toggles(false, 50) == 1
    ensures !Window.After(true, 90) && Toggles(true, 90) == 1 && Window.Closes(true, 90)
    ensures Window.After(false, 90) && Toggles(false, 90) == 1 && !Window.Closes(false, 90)
    ensures !Window.Closes(false, 50)
  {
  }

  lemma PushOne(c: Controller, n: int)
    ensures PushReports(c, [ClientReport(1.0, [(1, Answer(n))])]) == PushTxn(c, 1.0, 1, Answer(n))
  {
    hide PushTxn;
    var txns := [(1 as TxnType, Answer(n))];
    var reports := [ClientReport(1.0, txns)];
    assert reports[..0] == [] && txns[..0] == [];
    assert PushClient(c, 1.0, txns) == PushTxn(c, 1.0, 1, Answer(n));
  }

  lemma CollectedStands(c: Controller, n: int, progress: int)
    requires c.infos.Keys <= {1}
    ensures var c' := Collected(c, OneType(n, progress));
      && c'.infos.Keys == {1} && c'.recording == c.recording && c'.proxies == c.proxies
      && c'.infos[1] == PushRes(RecordOf(ClearAll(c), 1), Push(Answer(n), 1.0))
  {
    hide PushRes;
    PushOne(ClearAll(c), n);
  }

  /** Type 1's record once the answer of a heartbeat is in. */
  ghost predicate Took(t: Txn, status: nat, time: real, n: int, n': int) {
    && t.midStatus == status && t.midTime == time && t.pre == Commits(n) && t.cur == Commits(n')
    && t.midLatencies == [] && t.midExhausted == 0
  }

  lemma TakesAnswer(c: Controller, recording: bool, status: nat, time: real, n: int, n': int)
    requires Stands(c, recording, status, time, n)
    ensures Took(PushRes(RecordOf(ClearAll(c), 1), Push(Answer(n'), 1.0)), status,
                 if status == 1 then time + 1.0 else time, n, n')
  {
    var t := RecordOf(ClearAll(c), 1);
    assert t.cur == ZERO && t.pre == Commits(n) && t.midStatus == status && t.midTime == time;
    assert t.midLatencies == [] && t.midExhausted == 0;
  }

  lemma SortNothing(t: Txn)
    requires t.midLatencies == [] && t.midExhausted == 0
    ensures var t' := AfterPrint(t, 1);
      && t'.midLatencies == [] && t'.midExhausted == 0 && t'.midTime == t.midTime
      && t'.midStatus == t.midStatus && t'.cur == t.cur && t'.pre == t.pre
  {
  }

  lemma MovesOn(c: Controller, progress: int, status: nat, time: real, n: int, n': int) returns (c': Controller)
    requires c.infos.Keys == {1} && c.proxies == 1 && Took(c.infos[1], status, time, n, n')
    requires Window.Closes(c.recording, progress) ==> time > 0.0
    ensures Window.Closes(c.recording, progress) ==> AllPrint(c)
    ensures c' == Shift(MoveWindow(c, progress)) && 1 in c'.infos
    ensures Stands(c', Window.After(c.recording, progress), status + Toggles(c.recording, progress), time, n')
  {
    hide AfterPrint;
    SortNothing(c.infos[1]);
    c' := Shift(MoveWindow(c, progress));
  }

  lemma NextBeat(c: Controller, recording: bool, status: nat, time: real, n: int, n': int, progress: int)
    returns (c': Controller)
    requires Stands(c, recording, status, time, n)
    requires time >= 0.0 && (Window.Closes(recording, progress) ==> status == 1 || time > 0.0)
    ensures Heartbeat(c, OneType(n', progress)) == Running(c') && 1 in c'.infos
    ensures Stands(c', Window.After(recording, progress), status + Toggles(recording, progress),
                   if status == 1 then time + 1.0 else time, n')
    ensures IntervalOf(c, OneType(n', progress), 1) == Commits(n' - n)
  {
    hide Collected, PushRes, MoveWindow, Shift, AllPrint, Toggles, ClearAll;
    CollectedStands(c, n', progress);
    TakesAnswer(c, recording, status, time, n, n');
    var time' := if status == 1 then time + 1.0 else time;
    c' := MovesOn(Collected(c, OneType(n', progress)), progress, status, time', n, n');
  }

  lemma StandsRecording(c: Controller, recording: bool, status: nat, time: real, n: int)
    requires Stands(c, recording, status, time, n)
    ensures c.recording == recording && c.infos.Keys <= {1} && (1 in c.infos ==> c.infos[1].midStatus == status)
  {
  }

  lemma OneTypeProgress(n: int, progress: int)
    ensures OneType(n, progress).progress == progress
  {
  }

  /** Four heartbeats form a run, and what they show of two single intervals. */
  lemma FourBeats(states: seq<Controller>, beats: seq<Beat>)
    requires |beats| == 4 && |states| == 5 && states[0] == InitialController(1)
    requires Heartbeat(states[0], beats[0]) == Running(states[1])
    requires Heartbeat(states[1], beats[1]) == Running(states[2])
    requires Heartbeat(states[2], beats[2]) == Running(states[3])
    requires Heartbeat(states[3], beats[3]) == Running(states[4])
    ensures IsRun(states, beats)
    ensures SumIntervals(states, beats, 1, 1, 2) == IntervalOf(states[1], beats[1], 1)
    ensures SumIntervals(states, beats, 1, 3, 4) == IntervalOf(states[3], beats[3], 1)
  {
    hide Heartbeat, IntervalOf;
    assert SumIntervals(states, beats, 1, 1, 1) == ZERO && SumIntervals(states, beats, 1, 3, 3) == ZERO;
  }

  lemma FirstPrint(states: seq<Controller>, beats: seq<Beat>)
    requires IsRun(states, beats) && |beats| == 4 && beats[0].progress == 50 && beats[1].progress == 90
    requires 1 in states[1].infos && SumIntervals(states, beats, 1, 1, 2) == Commits(10)
    ensures PrintedAt(states, beats, 1, 1).Logged? && PrintedAt(states, beats, 1, 1).printed.counts == Commits(10)
  {
    hide Heartbeat, Collected, PrintMid, SumIntervals;
    assert Progress(beats[..0]) == [] && Progress(beats[..1]) == [50] && Progress(beats[..2]) == [50, 90];
    assert [50, 90][..1] == [50] && [50][..0] == [];
    assert Moves(beats, 0) == 0 && Moves(beats, 1) == 1 && Moves(beats, 2) == 2;
    RecordedCountsTelescope(states, beats, 0, 1, 1);
  }

  /** Heartbeats at 50, 90, 90 and 90 percent: the second window prints 10 commits, as the first did,
      although 60 were made in it. */
  lemma SecondWindowRepeats() returns (states: seq<Controller>, beats: seq<Beat>)
    ensures IsRun(states, beats) && |beats| == 4
    ensures Window.Closes(states[1].recording, beats[1].progress)
    ensures Window.Closes(states[3].recording, beats[3].progress)
    ensures SumIntervals(states, beats, 1, 1, 2) == Commits(10) && SumIntervals(states, beats, 1, 3, 4) == Commits(60)
    ensures PrintedAt(states, beats, 1, 1).Logged? && PrintedAt(states, beats, 1, 1).printed.counts == Commits(10)
    ensures PrintedAt(states, beats, 3, 1).Logged? && PrintedAt(states, beats, 3, 1).printed.counts == Commits(10)
  {
    hide *;
    var c0 := InitialController(1);
    Begins();
    WindowAt();
    var c1 := NextBeat(c0, false, 0, 0.0, 0, 10, 50);
    var c2 := NextBeat(c1, true, 1, 0.0, 10, 20, 90);
    var c3 := NextBeat(c2, false, 2, 1.0, 20, 30, 90);
    var c4 := NextBeat(c3, true, 3, 1.0, 30, 90, 90);
    states := [c0, c1, c2, c3, c4];
    beats := [OneType(10, 50), OneType(20, 90), OneType(30, 90), OneType(90, 90)];
    StandsRecording(c1, true, 1, 0.0, 10);
    StandsRecording(c3, true, 3, 1.0, 30);
    FourBeats(states, beats);
    OneTypeProgress(10, 50);
    OneTypeProgress(20, 90);
    OneTypeProgress(90, 90);
    FirstPrint(states, beats);
    LaterPrintsRepeat(states, beats, 1, 3, 1);
  }

  lemma PushedType(c: Controller, period: real, k: TxnType, r: Report)
    ensures k in PushTxn(c, period, k, r).infos
  {
  }

  lemma TypeTwoAppears(c: Controller, n: int, progress: int)
    ensures 2 in Collected(c, TwoTypes(n, progress)).infos && TwoTypes(n, progress).progress == progress
    ensures 2 !in c.infos ==> RecordOf(c, 2).midStatus == 0
  {
    hide PushTxn, Register;
    var txns := [(1 as TxnType, Answer(n)), (2, Answer(n))];
    var reports := [ClientReport(1.0, txns)];
    assert TwoTypes(n, progress).reports == reports && reports[..0] == [];
    var before := PushClient(ClearAll(c), 1.0, txns[..1]);
    assert PushClient(ClearAll(c), 1.0, txns) == PushTxn(before, 1.0, 2, Answer(n));
    assert PushReports(ClearAll(c), reports) == PushTxn(before, 1.0, 2, Answer(n));
    PushedType(before, 1.0, 2, Answer(n));
  }

  lemma OneBeat(states: seq<Controller>, beats: seq<Beat>)
    requires |beats| == 1 && |states| == 2 && states[0] == InitialController(1)
    requires Heartbeat(states[0], beats[0]) == Running(states[1])
    ensures IsRun(states, beats)
  {
    hide Heartbeat;
  }

  /** After one heartbeat at 50 percent, a heartbeat at 90 percent goes on if it brings type 1 only and
      raises if it brings type 2 as well. */
  lemma NewTypeEndsRun() returns (states: seq<Controller>, beats: seq<Beat>)
    ensures IsRun(states, beats) && |beats| == 1 && states[1].recording
    ensures Heartbeat(states[1], OneType(20, 90)).Running? && Heartbeat(states[1], TwoTypes(20, 90)) == Stopped
  {
    hide *;
    var c0 := InitialController(1);
    Begins();
    WindowAt();
    var c1 := NextBeat(c0, false, 0, 0.0, 0, 10, 50);
    var c2 := NextBeat(c1, true, 1, 0.0, 10, 20, 90);
    states, beats := [c0, c1], [OneType(10, 50)];
    StandsRecording(c1, true, 1, 0.0, 10);
    OneBeat(states, beats);
    TypeTwoAppears(c1, 20, 90);
    UnrecordedStops(states, beats, TwoTypes(20, 90), 2);
  }
}
