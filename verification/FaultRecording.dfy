/** The heartbeats of the fault experiments as heartbeats of the benchmark controller: whether one is
    answered, can be printed and has taken time is read off the controller's run. */
module FaultRecording {
  import opened Recording
  import F = FaultInjection
  import Window

  function BeatOf(c: Controller, b: Beat): F.Beat {
    F.Beat(b.progress, b.reports != [], AllPrint(Collected(c, b)), b.intervalTime != 0.0 && b.totalTime != 0.0)
  }

  /** Heartbeat i meets the controller in its i-th state. */
  function BeatsOf(states: seq<Controller>, beats: seq<Beat>): (r: seq<F.Beat>)
    requires |beats| <= |states|
    ensures |r| == |beats| && forall i :: 0 <= i < |beats| ==> r[i] == BeatOf(states[i], beats[i])
  {
    seq(|beats|, i requires 0 <= i < |beats| => BeatOf(states[i], beats[i]))
  }

  lemma SameProgress(states: seq<Controller>, beats: seq<Beat>, i: nat)
    requires |beats| <= |states| && i <= |beats|
    ensures F.Progress(BeatsOf(states, beats)[..i]) == Progress(beats[..i])
  {
    hide BeatOf;
    assert forall k :: 0 <= k < i ==> BeatsOf(states, beats)[k].progress == beats[k].progress by {
      forall k | 0 <= k < i ensures BeatsOf(states, beats)[k].progress == beats[k].progress {
        BeatProgress(states[k], beats[k]);
      }
    }
  }

  lemma BeatProgress(c: Controller, b: Beat)
    ensures BeatOf(c, b).progress == b.progress
  {
  }

  /** A heartbeat stops the controller exactly when it raises in the experiments. */
  lemma StopsWhenRaised(c: Controller, b: Beat)
    ensures var f := BeatOf(c, b);
      Heartbeat(c, b) == Stopped <==>
      !f.answered || !f.timed || (Window.Closes(c.recording, b.progress) && !f.printable)
  {
    hide AllPrint, MoveWindow, Shift, PushReports;
    PushReportsKeeps(ClearAll(c), b.reports);
  }

  lemma RaisesWhenStopped(states: seq<Controller>, beats: seq<Beat>, last: Beat, i: nat)
    requires IsRun(states, beats) && i <= |beats|
    ensures F.Raises(BeatsOf(states, beats + [last]), i) <==> Heartbeat(states[i], (beats + [last])[i]) == Stopped
  {
    hide Heartbeat, BeatOf;
    var all := beats + [last];
    SameProgress(states, all, i);
    assert all[..i] == beats[..i];
    RecordingFollows(states, beats, i);
    StopsWhenRaised(states[i], all[i]);
    BeatProgress(states[i], all[i]);
  }

  /** A controller's run and one more heartbeat, seen as heartbeats of an experiment: none of the run
      raises, and the last one does if and only if it stops the controller.  Then the delay stays as
      that heartbeat leaves it; otherwise the clean-up removes it. */
  lemma DelayAfterRun(states: seq<Controller>, beats: seq<Beat>, last: Beat, processes: seq<string>)
    requires IsRun(states, beats)
    ensures var all, n := BeatsOf(states, beats + [last]), |beats|;
      && F.Completes(all, n)
      && (F.Raises(all, n) <==> Heartbeat(states[n], last) == Stopped)
      && F.Final(F.Exp5, all, processes).slowed ==
         if Heartbeat(states[n], last) == Stopped && F.LeavesDelay(all, n) then F.Reached(processes) else {}
  {
    hide Heartbeat, F.Raises, F.LeavesDelay, BeatOf, F.Exp5Inv, F.Run;
    var all, n := BeatsOf(states, beats + [last]), |beats|;
    forall i | 0 <= i < n ensures !F.Raises(all, i) {
      RaisesWhenStopped(states, beats, last, i);
      assert Heartbeat(states[i], beats[i]) == Running(states[i + 1]);
    }
    RaisesWhenStopped(states, beats, last, n);
    if F.Raises(all, n) {
      F.LeftByRaise(all, processes, n);
    } else {
      F.LoopIsRun(F.Exp5, all, processes, n + 1);
      assert all[..n + 1] == all;
      F.Exp5Coverage(F.Progress(all), processes);
    }
  }

  /** A transaction type that first appears inside the first window leaves the hosts delayed when the
      window closes. */
  lemma NewTypeLeavesDelay(states: seq<Controller>, beats: seq<Beat>, o: nat, last: Beat, k: TxnType,
                           processes: seq<string>)
    requires IsRun(states, beats) && FirstOpening(beats, o) && Moves(beats, |beats|) == 1
    requires k !in states[o + 1].infos && k in Collected(states[|beats|], last).infos
    requires last.progress >= Window.UPPER_CUTOFF
    ensures F.Final(F.Exp5, BeatsOf(states, beats + [last]), processes).slowed == F.Reached(processes)
  {
    hide Heartbeat, Moves, Collected, F.Final, FirstOpening, F.DelayOn;
    var all, n := BeatsOf(states, beats + [last]), |beats|;
    NewTypeStops(states, beats, o, last, k);
    DelayAfterRun(states, beats, last, processes);
    OpenWindowIsDelayed(states, beats, last);
  }

  lemma OpenWindowIsDelayed(states: seq<Controller>, beats: seq<Beat>, last: Beat)
    requires IsRun(states, beats) && Moves(beats, |beats|) == 1
    ensures Window.Recording(F.Progress(BeatsOf(states, beats + [last])[..|beats|]))
    ensures F.DelayOn(F.Progress(BeatsOf(states, beats + [last])[..|beats|]))
  {
    hide Heartbeat, Moves, BeatOf;
    var n := |beats|;
    SameProgress(states, beats + [last], n);
    assert (beats + [last])[..n] == beats[..n];
    WindowIsOpen(beats, n);
    RecordingIsDelayed(Progress(beats[..n]));
  }

  /** An open window means the delay is on. */
  lemma RecordingIsDelayed(ps: seq<int>)
    requires Window.Recording(ps)
    ensures F.DelayOn(ps)
  {
    F.DelayFollows(ps, []);
    F.Exp5Coverage(ps, []);
    F.WindowUnchanged(F.Exp5, ps, []);
  }
}
