/** The fault-injection variants of the recording window: run_exp5.py delays the network of two
    hosts, run_exp1.py caps their CPU.  A counter, `once`, decides when a remote command is sent;
    each command is abstracted to the set of hosts it leaves slowed. */
module FaultInjection {
  import Window

  const INJECT_PCT := 5
  const VICTIMS := {"host3", "host5"}

  datatype Command = Add | Delete

  datatype State = State(once: nat, recording: bool, slowed: set<string>, commands: seq<Command>)

  const INITIAL := State(0, false, {}, [])

  /** The processes a command reaches. */
  function Reached(processes: seq<string>): set<string> {
    set p | p in processes && p in VICTIMS
  }

  /** What both variants do outside the window, before looking at the cutoffs. */
  function Inject(s: State, progress: int, processes: seq<string>): State {
    var s1 := if s.once == 0 then s.(once := 1) else s;
    if progress >= INJECT_PCT && s1.once == 1
    then s1.(slowed := s1.slowed + Reached(processes), commands := s1.commands + [Add], once := 2)
    else s1
  }

  function Remove(s: State, processes: seq<string>): State {
    s.(slowed := s.slowed - Reached(processes), commands := s.commands + [Delete])
  }

  /** The value of `once` after a window closes: exp5 stores True, which compares equal to 1; exp1
      adds 1 for every process. */
  datatype Variant = Exp5 | Exp1

  function OnceAfterClose(v: Variant, once: nat, processes: seq<string>): nat {
    match v
    case Exp5 => 1
    case Exp1 => once + |processes|
  }

  function Stage(v: Variant, s: State, progress: int, processes: seq<string>): State {
    if !s.recording then
      Inject(s, progress, processes).(recording := Window.LOWER_CUTOFF <= progress <= Window.UPPER_CUTOFF)
    else if progress >= Window.UPPER_CUTOFF then
      Remove(s, processes).(recording := false, once := OnceAfterClose(v, s.once, processes))
    else s
  }

  function Run(v: Variant, ps: seq<int>, processes: seq<string>): State {
    if ps == [] then INITIAL else Stage(v, Run(v, ps[..|ps| - 1], processes), ps[|ps| - 1], processes)
  }

  /** exp5 deletes the delay once more after its loop. */
  function Cleanup(s: State, processes: seq<string>): State {
    s.(slowed := s.slowed - Reached(processes))
  }

  // ----- the window is the one of the plain controller

  lemma {:induction false} WindowUnchanged(v: Variant, ps: seq<int>, processes: seq<string>)
    ensures Run(v, ps, processes).recording == Window.Recording(ps)
  {
    if ps != [] {
      WindowUnchanged(v, ps[..|ps| - 1], processes);
    }
  }

  // ----- exp5

  ghost predicate Alternating(cs: seq<Command>) {
    forall i :: 0 <= i < |cs| ==> cs[i] == if i % 2 == 0 then Add else Delete
  }

  ghost predicate Exp5Inv(s: State, processes: seq<string>) {
    && s.once <= 2
    && s.slowed == (if s.once == 2 then Reached(processes) else {})
    && (s.recording ==> s.once == 2)
    && Alternating(s.commands) && (|s.commands| % 2 == if s.once == 2 then 1 else 0)
  }

  /** In exp5, after any heartbeats whatever, an open window means the delay is in force on every
      victim, commands alternate starting with an add, and after the loop no host is delayed. */
  lemma {:induction false} Exp5Coverage(ps: seq<int>, processes: seq<string>)
    ensures var s := Run(Exp5, ps, processes);
      && Exp5Inv(s, processes)
      && (Window.Recording(ps) ==> s.slowed == Reached(processes))
      && Cleanup(s, processes).slowed == {}
  {
    WindowUnchanged(Exp5, ps, processes);
    if ps != [] {
      Exp5Coverage(ps[..|ps| - 1], processes);
    }
  }

  // ----- exp1

  ghost function Adds(cs: seq<Command>): nat {
    if cs == [] then 0 else Adds(cs[..|cs| - 1]) + if cs[|cs| - 1] == Add then 1 else 0
  }

  lemma AddsSnoc(cs: seq<Command>, c: Command)
    ensures Adds(cs + [c]) == Adds(cs) + if c == Add then 1 else 0
  {
    assert (cs + [c])[..|cs|] == cs;
  }

  /** The quota has been injected once iff the counter has reached 2, and is in force until a window
      has closed. */
  ghost predicate Exp1Inv(s: State, closings: nat, processes: seq<string>) {
    && Adds(s.commands) == (if s.once >= 2 then 1 else 0)
    && (s.recording || closings > 0 ==> s.once >= 2)
    && s.slowed == if s.once >= 2 && closings == 0 then Reached(processes) else {}
  }

  lemma Exp1StageKeeps(s: State, closings: nat, progress: int, processes: seq<string>)
    requires Exp1Inv(s, closings, processes)
    ensures Exp1Inv(Stage(Exp1, s, progress, processes),
                    closings + if Window.Closes(s.recording, progress) then 1 else 0, processes)
  {
    AddsSnoc(s.commands, Add);
    AddsSnoc(s.commands, Delete);
    hide Adds;
  }

  /** In exp1 the quota is injected at most once, is in force from then until the first window
      closes, and never again. */
  lemma {:induction false} Exp1Coverage(ps: seq<int>, processes: seq<string>)
    ensures Exp1Inv(Run(Exp1, ps, processes), Window.Closings(ps), processes)
  {
    if ps == [] {
    } else {
      hide Exp1Inv, Stage;
      var rest := ps[..|ps| - 1];
      Exp1Coverage(rest, processes);
      WindowUnchanged(Exp1, rest, processes);
      Exp1StageKeeps(Run(Exp1, rest, processes), Window.Closings(rest), ps[|ps| - 1], processes);
    }
  }

  lemma {:induction false} ClosingsBehind(ps: seq<int>)
    ensures Window.Openings(ps) == Window.Closings(ps) + if Window.Recording(ps) then 1 else 0
  {
    if ps != [] {
      ClosingsBehind(ps[..|ps| - 1]);
    }
  }

  /** Exactly the first window of exp1 is measured under the fault. */
  lemma Exp1CoversFirstWindowOnly(ps: seq<int>, processes: seq<string>)
    requires Window.Recording(ps) && Reached(processes) != {}
    ensures Run(Exp1, ps, processes).slowed == Reached(processes) <==> Window.Openings(ps) == 1
  {
    WindowUnchanged(Exp1, ps, processes);
    Exp1Coverage(ps, processes);
    ClosingsBehind(ps);
  }

  /** A second window that exp1 measures with no host slowed. */
  lemma Exp1SecondWindowUncovered(ps: seq<int>, processes: seq<string>)
    requires ps == [50, 90, 90]
    ensures Run(Exp1, ps, processes).recording && Run(Exp1, ps, processes).slowed == {}
  {
    Window.OpensTwice(ps);
    ClosingsBehind(ps);
    WindowUnchanged(Exp1, ps, processes);
    Exp1Coverage(ps, processes);
  }

  // ----- heartbeats that raise

  /** One heartbeat: its progress, whether any client answers, whether every record can be printed, and
      whether time has passed since the start and since the heartbeat before. */
  datatype Beat = Beat(progress: int, answered: bool, printable: bool, timed: bool)

  datatype Outcome = Running(s: State) | Raised(s: State)

  /** print_stage_result: the window is marked closed before its records are printed, and the remote
      command is sent after them; the tables come last. */
  function StageOutcome(v: Variant, s: State, b: Beat, processes: seq<string>): Outcome {
    if Window.Closes(s.recording, b.progress) && !b.printable then Raised(s.(recording := false))
    else if b.timed then Running(Stage(v, s, b.progress, processes))
    else Raised(Stage(v, s, b.progress, processes))
  }

  function Heartbeat(v: Variant, s: State, b: Beat, processes: seq<string>): Outcome {
    if b.answered then StageOutcome(v, s, b, processes) else Raised(s)
  }

  /** The loop of benchmark_record, up to the first heartbeat that raises. */
  function Loop(v: Variant, beats: seq<Beat>, processes: seq<string>): Outcome {
    if beats == [] then Running(INITIAL)
    else
      match Loop(v, beats[..|beats| - 1], processes)
      case Running(s) => Heartbeat(v, s, beats[|beats| - 1], processes)
      case Raised(s) => Raised(s)
  }

  /** How benchmark_record leaves the hosts: a raise skips exp5's cleanup. */
  function Final(v: Variant, beats: seq<Beat>, processes: seq<string>): State {
    match Loop(v, beats, processes)
    case Running(s) => if v.Exp5? then Cleanup(s, processes) else s
    case Raised(s) => s
  }

  function Progress(beats: seq<Beat>): seq<int> {
    seq(|beats|, i requires 0 <= i < |beats| => beats[i].progress)
  }

  lemma ProgressSnoc(beats: seq<Beat>, i: nat)
    requires i < |beats|
    ensures Progress(beats[..i + 1]) == Progress(beats[..i]) + [beats[i].progress]
    ensures Progress(beats[..i + 1])[..i] == Progress(beats[..i])
  {
  }

  /** Heartbeat i raises if those before it did not. */
  predicate Raises(beats: seq<Beat>, i: nat)
    requires i < |beats|
  {
    var b := beats[i];
    !b.answered || !b.timed || (Window.Closes(Window.Recording(Progress(beats[..i])), b.progress) && !b.printable)
  }

  ghost predicate Completes(beats: seq<Beat>, n: nat)
    requires n <= |beats|
  {
    forall i :: 0 <= i < n ==> !Raises(beats, i)
  }

  /** The loop goes on as long as no heartbeat raises, and is then the run of the progress values. */
  lemma {:induction false} LoopIsRun(v: Variant, beats: seq<Beat>, processes: seq<string>, n: nat)
    requires n <= |beats|
    ensures Loop(v, beats[..n], processes).Running? <==> Completes(beats, n)
    ensures Completes(beats, n) ==>
      Loop(v, beats[..n], processes) == Running(Run(v, Progress(beats[..n]), processes))
  {
    hide Stage;
    if n > 0 {
      LoopIsRun(v, beats, processes, n - 1);
      assert beats[..n][..n - 1] == beats[..n - 1];
      ProgressSnoc(beats, n - 1);
      WindowUnchanged(v, Progress(beats[..n - 1]), processes);
      assert Completes(beats, n) <==> Completes(beats, n - 1) && !Raises(beats, n - 1);
    }
  }

  /** Once a heartbeat has raised, nothing changes any more. */
  lemma {:induction false} RaisedStays(v: Variant, beats: seq<Beat>, processes: seq<string>, n: nat, m: nat)
    requires n <= m <= |beats| && Loop(v, beats[..n], processes).Raised?
    ensures Loop(v, beats[..m], processes) == Loop(v, beats[..n], processes)
    decreases m
  {
    if n < m {
      RaisedStays(v, beats, processes, n, m - 1);
      assert beats[..m][..m - 1] == beats[..m - 1];
    }
  }

  /** Whether the delay is in force, from the progress values alone: it sets in at 5 percent outside a
      window and is lifted by the heartbeat that closes one. */
  predicate DelayOn(ps: seq<int>) {
    ps != [] &&
    var before, last := ps[..|ps| - 1], ps[|ps| - 1];
    if Window.Recording(before) then last < Window.UPPER_CUTOFF else DelayOn(before) || last >= INJECT_PCT
  }

  lemma {:induction false} DelayFollows(ps: seq<int>, processes: seq<string>)
    ensures Run(Exp5, ps, processes).slowed == if DelayOn(ps) then Reached(processes) else {}
    ensures DelayOn(ps) <==> Run(Exp5, ps, processes).once == 2
  {
    if ps != [] {
      DelayFollows(ps[..|ps| - 1], processes);
      WindowUnchanged(Exp5, ps[..|ps| - 1], processes);
      Exp5Coverage(ps[..|ps| - 1], processes);
    }
  }

  /** While progress does not fall, the delay is in force from 5 percent on, but for the heartbeats
      that close a window. */
  lemma {:induction false} DelayClosedForm(ps: seq<int>)
    requires ps != [] && Window.NonDecreasing(ps)
    ensures var before, last := ps[..|ps| - 1], ps[|ps| - 1];
      DelayOn(ps) <==> last >= 5 && !(Window.Recording(before) && last >= 90)
  {
    var before, last := ps[..|ps| - 1], ps[|ps| - 1];
    if before != [] {
      DelayClosedForm(before);
      if Window.Recording(before) {
        RecordingIsLate(before);
      }
    }
  }

  lemma {:induction false} RecordingIsLate(ps: seq<int>)
    requires ps != [] && Window.NonDecreasing(ps) && Window.Recording(ps)
    ensures ps[|ps| - 1] >= Window.LOWER_CUTOFF
  {
    if |ps| > 1 && Window.Recording(ps[..|ps| - 1]) {
      RecordingIsLate(ps[..|ps| - 1]);
    }
  }

  /** Whether the heartbeat that raises leaves the delay in force: always if the records of a closing
      window could not be printed, else as the progress values say. */
  predicate LeavesDelay(beats: seq<Beat>, i: nat)
    requires i < |beats|
  {
    if !beats[i].answered then DelayOn(Progress(beats[..i]))
    else
      || (Window.Closes(Window.Recording(Progress(beats[..i])), beats[i].progress) && !beats[i].printable)
      || DelayOn(Progress(beats[..i + 1]))
  }

  /** exp5 leaves a host delayed exactly when a heartbeat raises while the delay is in force. */
  lemma Exp5LeftDelayed(beats: seq<Beat>, processes: seq<string>)
    requires Reached(processes) != {}
    ensures var left := Final(Exp5, beats, processes).slowed;
      && (left == Reached(processes) || left == {})
      && (left != {} <==>
          exists i :: 0 <= i < |beats| && Completes(beats, i) && Raises(beats, i) && LeavesDelay(beats, i))
  {
    hide Stage, Raises, LeavesDelay, Exp5Inv;
    assert beats[..|beats|] == beats;
    LoopIsRun(Exp5, beats, processes, |beats|);
    if Completes(beats, |beats|) {
      Exp5Coverage(Progress(beats), processes);
    } else {
      var i := FirstRaise(beats, |beats|);
      LeftByRaise(beats, processes, i);
    }
  }

  lemma {:induction false} FirstRaise(beats: seq<Beat>, n: nat) returns (i: nat)
    requires n <= |beats| && !Completes(beats, n)
    ensures i < n && Completes(beats, i) && Raises(beats, i)
    ensures forall j :: 0 <= j < |beats| && Completes(beats, j) && Raises(beats, j) ==> j == i
  {
    hide Raises;
    if Completes(beats, n - 1) {
      i := n - 1;
    } else {
      i := FirstRaise(beats, n - 1);
    }
  }

  lemma LeftByRaise(beats: seq<Beat>, processes: seq<string>, i: nat)
    requires i < |beats| && Completes(beats, i) && Raises(beats, i)
    ensures Loop(Exp5, beats, processes).Raised?
    ensures Final(Exp5, beats, processes).slowed == if LeavesDelay(beats, i) then Reached(processes) else {}
  {
    hide Stage, Exp5Inv, DelayOn;
    var ps := Progress(beats[..i]);
    assert beats[..i + 1][..i] == beats[..i] && beats[..|beats|] == beats;
    ProgressSnoc(beats, i);
    LoopIsRun(Exp5, beats, processes, i);
    WindowUnchanged(Exp5, ps, processes);
    DelayFollows(ps, processes);
    DelayFollows(Progress(beats[..i + 1]), processes);
    Exp5Coverage(ps, processes);
    RaisedStays(Exp5, beats, processes, i + 1, |beats|);
  }

  /** A record that cannot be printed when the window closes: the hosts stay delayed. */
  lemma Exp5PrintRaises(processes: seq<string>)
    ensures Final(Exp5, [Beat(50, true, true, true), Beat(90, true, false, true)], processes).slowed ==
            Reached(processes)
  {
    var beats := [Beat(50, true, true, true), Beat(90, true, false, true)];
    assert Progress(beats[..0]) == [] && Progress(beats[..1]) == [50] && [50][..0] == [];
    assert Window.Recording(Progress(beats[..1]));
    assert !Raises(beats, 0) && Raises(beats, 1);
    LeftByRaise(beats, processes, 1);
  }

  // ----- the controller object

  /** The part of print_stage_result that the variants change, with its loops over the processes. */
  class FaultController {
    const variant: Variant
    const processes: seq<string>
    var once: nat
    var recording: bool
    var slowed: set<string>
    ghost var commands: seq<Command>

    ghost function View(): State
      reads this
    {
      State(once, recording, slowed, commands)
    }

    constructor (variant: Variant, processes: seq<string>)
      ensures View() == INITIAL && this.variant == variant && this.processes == processes
    {
      this.variant, this.processes := variant, processes;
      once, recording, slowed, commands := 0, false, {}, [];
    }

    method SendAdd()
      modifies this`slowed, this`commands
      ensures slowed == old(slowed) + Reached(processes) && commands == old(commands) + [Add]
    {
      for i := 0 to |processes|
        invariant slowed == old(slowed) + Reached(processes[..i]) && commands == old(commands)
      {
        if processes[i] == "host3" || processes[i] == "host5" {
          slowed := slowed + {processes[i]};
        }
      }
      assert processes[..|processes|] == processes;
      commands := commands + [Add];
    }

    /** exp1 bumps the counter inside the loop, once per process. */
    method SendDelete()
      modifies this`slowed, this`commands, this`once
      ensures slowed == old(slowed) - Reached(processes) && commands == old(commands) + [Delete]
      ensures once == OnceAfterClose(variant, old(once), processes)
    {
      for i := 0 to |processes|
        invariant slowed == old(slowed) - Reached(processes[..i]) && commands == old(commands)
        invariant once == if variant.Exp1? then old(once) + i else old(once)
      {
        if processes[i] == "host3" || processes[i] == "host5" {
          slowed := slowed - {processes[i]};
        }
        if variant.Exp1? {
          once := once + 1;
        }
      }
      assert processes[..|processes|] == processes;
      if variant.Exp5? {
        once := 1;
      }
      commands := commands + [Delete];
    }

    method PrintStage(b: Beat) returns (ok: bool)
      modifies this
      ensures StageOutcome(variant, old(View()), b, processes) == if ok then Running(View()) else Raised(View())
    {
      if !recording {
        if once == 0 {
          once := once + 1;
        }
        if b.progress >= INJECT_PCT && once == 1 {
          SendAdd();
          once := once + 1;
        }
        if b.progress >= Window.LOWER_CUTOFF && b.progress <= Window.UPPER_CUTOFF {
          recording := true;
        }
      } else if b.progress >= Window.UPPER_CUTOFF {
        recording := false;
        if !b.printable {
          return false;
        }
        SendDelete();
      }
      return b.timed;
    }

    /** The loop of benchmark_record over the given heartbeats, with exp5's cleanup; a raise leaves both. */
    method BenchmarkRecord(beats: seq<Beat>) returns (ok: bool)
      requires View() == INITIAL
      modifies this
      ensures ok <==> Completes(beats, |beats|)
      ensures View() == Final(variant, beats, processes)
      ensures ok && variant.Exp5? ==> slowed == {}
    {
      hide StageOutcome, Stage, Run;
      LoopIsRun(variant, beats, processes, |beats|);
      assert beats[..|beats|] == beats;
      for i := 0 to |beats|
        invariant Loop(variant, beats[..i], processes) == Running(View())
      {
        assert beats[..i + 1][..i] == beats[..i];
        ok := false;
        if beats[i].answered {
          ok := PrintStage(beats[i]);
        }
        if !ok {
          RaisedStays(variant, beats, processes, i + 1, |beats|);
          return;
        }
      }
      if variant.Exp5? {
        slowed := slowed - Reached(processes);
        Exp5Coverage(Progress(beats), processes);
      }
      return true;
    }
  }
}
