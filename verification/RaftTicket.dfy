/** What Start reports to its client: the length of the log and the term, read after the push and
    apart from it.  They name the pushed entry exactly when the term is still the one it was pushed in. */
module RaftTicket {
  import opened RaftServer
  import opened RaftProtocol
  import opened RaftInvariant
  import opened RaftPreservation
  import opened RaftElection
  import opened RaftReplication
  import opened RaftSafety
  import opened RaftRuns
  import opened RaftLatePush

  /** The step to moment i is the push of cmd at server v. */
  ghost predicate Pushes(run: seq<State>, i: nat, v: nat, cmd: Command)
    requires IsRun(run) && v < SERVER_COUNT
  {
    && 0 < i < |run| && v in run[i - 1].starting && run[i - 1].starting[v] == cmd
    && run[i] == Perform(run[i - 1], Push(v))
  }

  /** No other Start has passed the role test of v, which holds its mutex until it has reported. */
  ghost predicate MutexHeld(run: seq<State>, i: nat, j: nat, v: nat)
    requires IsRun(run) && i <= j < |run|
  {
    forall k :: i <= k <= j ==> v !in run[k].starting
  }

  /** The length read at moment j and the term read at moment k are the position and the term of the
      entry that was last at moment i, and that entry is still there. */
  ghost predicate Names(run: seq<State>, i: nat, j: nat, k: nat, v: nat, cmd: Command)
    requires IsRun(run) && i <= j <= k < |run| && v < SERVER_COUNT
  {
    var index, term := Ticket(run[j].servers[v]).0, Ticket(run[k].servers[v]).1;
    && index == |run[i].servers[v].log| && term == run[i].servers[v].term
    && 1 <= index <= |run[k].servers[v].log| && run[k].servers[v].log[index - 1] == Entry(cmd, term)
  }

  // ----- a server that leads and pushes nothing keeps its log

  lemma TermsGrow(s: State, step: Step, v: nat)
    requires Nodes(s) && Enabled(s, step) && v < SERVER_COUNT
    ensures s.servers[v].term <= Perform(s, step).servers[v].term
    ensures s.servers[v].role.Leader? && Perform(s, step).servers[v].term == s.servers[v].term ==>
      Perform(s, step).servers[v].role.Leader?
  {
    hide MergeEntries, CommitScan, PrevMatches, LogIsStale, AppendFor;
  }

  lemma LeaderTakesNothing(s: State, h: History, i: nat)
    requires Inv(s, h) && Enabled(s, Deliver(i)) && s.servers[s.calls[i].to].role.Leader?
    requires Perform(s, Deliver(i)).servers[s.calls[i].to].term == s.servers[s.calls[i].to].term
    ensures Perform(s, Deliver(i)).servers[s.calls[i].to].log == s.servers[s.calls[i].to].log
  {
    hide HistoryOk, ServersOk, CommitsOk, TalliesOk, PastOk, CallsDistinct, LeadersKeep, ServersKeep,
      CandidatesKeep, CallsOk, MergeEntries, Accepts, LogIsStale;
    var c := s.calls[i];
    if c.req.AppendEntries? {
      var o, s' := Observed(s, c.to, c.req.term), Perform(s, Deliver(i));
      ObservedKeeps(s, h, c.to, c.req.term);
      if c.req.term >= o.servers[c.to].term && PrevMatches(o.servers[c.to].log, c.req.prevLogIndex, c.req.prevLogTerm) {
        AcceptedByObserver(s, i, o, s');
        CalleeDoesNotLead(o, h, i, s');
      }
    }
  }

  lemma LogStep(s: State, h: History, step: Step, v: nat)
    requires Inv(s, h) && Enabled(s, step) && v < SERVER_COUNT && s.servers[v].role.Leader? && v !in s.starting
    requires Perform(s, step).servers[v].term == s.servers[v].term
    ensures Perform(s, step).servers[v].log == s.servers[v].log
  {
    hide Inv, AppendFor, HandleAppendEntries, CommitScan;
    InvNodes(s, h);
    match step
    case Deliver(i) =>
      if s.calls[i].to == v {
        LeaderTakesNothing(s, h, i);
      }
    case _ =>
  }

  /** From a moment at which v leads, while its term and its mutex stay: it leads on with the same log. */
  lemma {:induction false} LogStays(run: seq<State>, i: nat, j: nat, v: nat)
    requires IsTimelyRun(run) && i <= j < |run| && v < SERVER_COUNT && run[i].servers[v].role.Leader?
    requires MutexHeld(run, i, j, v)
    ensures run[i].servers[v].term <= run[j].servers[v].term
    ensures run[i].servers[v].term == run[j].servers[v].term ==>
      run[j].servers[v].role.Leader? && run[j].servers[v].log == run[i].servers[v].log
    decreases j
  {
    hide Inv, Perform, Enabled, Init;
    if i < j {
      LogStays(run, i, j - 1, v);
      var h := RunInvariant(run, j - 1);
      assert Next(run[j - 1], run[j]);
      var step :| Enabled(run[j - 1], step) && Perform(run[j - 1], step) == run[j];
      TermsGrow(run[j - 1], step, v);
      if run[i].servers[v].term == run[j].servers[v].term {
        LogStep(run[j - 1], h, step, v);
      }
    }
  }

  lemma PushedLast(s: State, v: nat)
    requires Nodes(s) && v < SERVER_COUNT && Enabled(s, Push(v)) && s.servers[v].role.Leader?
    ensures var w := Perform(s, Push(v)).servers[v];
      && w.role.Leader? && w.term == s.servers[v].term
      && |w.log| >= 1 && w.log[|w.log| - 1] == Entry(s.starting[v], w.term)
  {
  }

  /** The report of a push that found its server leading names the pushed entry if and only if the
      server is still in the term of the push when it reads the term. */
  lemma TicketExactlyWhen(run: seq<State>, i: nat, j: nat, k: nat, v: nat, cmd: Command)
    requires IsTimelyRun(run) && i <= j <= k < |run| && v < SERVER_COUNT && Pushes(run, i, v, cmd)
    requires run[i - 1].servers[v].role.Leader? && MutexHeld(run, i, k, v)
    ensures Names(run, i, j, k, v, cmd) <==> run[k].servers[v].term == run[i].servers[v].term
  {
    hide Perform, Init, TimelyNext, Next;
    PushedLast(run[i - 1], v);
    LogStays(run, i, k, v);
    LogStays(run, i, j, v);
    TermsGrowOverRun(run, j, k, v);
  }

  lemma {:induction false} TermsGrowOverRun(run: seq<State>, i: nat, j: nat, v: nat)
    requires IsRun(run) && i <= j < |run| && v < SERVER_COUNT
    ensures run[i].servers[v].term <= run[j].servers[v].term
    decreases j
  {
    hide Perform, Enabled, Init;
    if i < j {
      TermsGrowOverRun(run, i, j - 1, v);
      assert Next(run[j - 1], run[j]);
      var step :| Enabled(run[j - 1], step) && Perform(run[j - 1], step) == run[j];
      TermsGrow(run[j - 1], step, v);
    }
  }

  // ----- a report that names another entry

  /** Server 0 leads term 1 and is about to push command 7; server 1 leads term 2 with command 8. */
  ghost predicate AboutToPush(s: State)
    requires Nodes(s)
  {
    && s.settling == {} && s.starting == map[0 := 7]
    && s.servers[0].role.Leader? && s.servers[0].term == 1 && s.servers[0].log == [] && s.servers[0].commit == 0
    && s.servers[1].role.Leader? && s.servers[1].term == 2 && s.servers[1].log == [Entry(8, 2)]
    && s.servers[1].nextIndex[0] == 1
  }

  lemma TwoLeaders() returns (run: seq<State>)
    ensures run != [] && IsRun(run) && Nodes(Last(run)) && LateSteps(run) == 0 && AboutToPush(Last(run))
  {
    hide IsRun, LateSteps, BecomeLeader;
    WonIndices(InitialServer(0));
    WonIndices(Supporter(InitialServer(1), 0, 1));
    run := FirstLeader();
    run := WinElection(run, 1, 2, 3);
    run := Extend(run, TestRole(1, 8));
    run := Extend(run, Push(1));
    run := Extend(run, TestRole(0, 7));
  }

  lemma PushAndSend(s: State) returns (s1: State, s2: State)
    requires Nodes(s) && AboutToPush(s)
    ensures Enabled(s, Push(0)) && !LatePush(s, Push(0)) && s1 == Perform(s, Push(0))
    ensures Enabled(s1, Heartbeat(1, 0)) && s2 == Perform(s1, Heartbeat(1, 0))
    ensures 0 !in s1.starting && 0 !in s2.starting && s1.servers[0].log == [Entry(7, 1)]
    ensures s2.settling == {} && |s2.calls| == |s.calls| + 1 && s2.servers[0] == s.servers[0].(log := [Entry(7, 1)])
    ensures exists commit ::
      s2.calls[|s.calls|] == Call(1, 0, AppendEntries(2, 0, 0, [Entry(8, 2)], commit, 1), InFlight)
  {
    s1 := Perform(s, Push(0));
    s2 := Perform(s1, Heartbeat(1, 0));
    assert s1.servers[1].log[0..] == [Entry(8, 2)];
    assert s2.calls[|s.calls|] ==
           Call(1, 0, AppendEntries(2, 0, 0, [Entry(8, 2)], s.servers[1].commit, 1), InFlight);
  }

  lemma DeposeAndCut(s: State, i: nat, commit: nat)
    requires Nodes(s) && i < |s.calls| && s.settling == {} && 0 !in s.starting
    requires s.servers[0].term == 1 && s.servers[0].log == [Entry(7, 1)]
    requires s.calls[i] == Call(1, 0, AppendEntries(2, 0, 0, [Entry(8, 2)], commit, 1), InFlight)
    ensures Enabled(s, Deliver(i))
    ensures var s' := Perform(s, Deliver(i));
      0 !in s'.starting && s'.servers[0].log == [Entry(8, 2)] && s'.servers[0].term == 2
  {
    assert MergeEntries([Entry(7, 1)], 0, [Entry(8, 2)]) == [Entry(8, 2)];
    hide MergeEntries;
  }

  /** Server 1's heartbeat deposes server 0 after its push and cuts its log: for command 7 server 0
      reports index 1 and term 2, where its log by then holds command 8. */
  lemma TicketMisleads() returns (run: seq<State>, i: nat)
    ensures IsTimelyRun(run) && 0 < i < |run| && Pushes(run, i, 0, 7) && MutexHeld(run, i, |run| - 1, 0)
    ensures run[i - 1].servers[0].role.Leader? && run[i].servers[0].log == [Entry(7, 1)]
    ensures Ticket(Last(run).servers[0]) == (1, 2) && Last(run).servers[0].log == [Entry(8, 2)]
  {
    hide LateSteps, Init, Perform, Enabled, Next, TimelyNext, IsTimelyRun, Nodes;
    var before := TwoLeaders();
    var s1, s2 := PushAndSend(Last(before));
    var commit :| s2.calls[|Last(before).calls|] ==
      Call(1, 0, AppendEntries(2, 0, 0, [Entry(8, 2)], commit, 1), InFlight);
    DeposeAndCut(s2, |Last(before).calls|, commit);
    i := |before|;
    run := Extend(before, Push(0));
    run := Extend(run, Heartbeat(1, 0));
    run := Extend(run, Deliver(|Last(before).calls|));
    NoLateSteps(run);
  }
}
