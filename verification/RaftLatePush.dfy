/** A client's push that finds its server no longer leading: one run in which log matching, leader
    completeness and state machine safety all fail. */
module RaftLatePush {
  import opened RaftServer
  import opened RaftProtocol
  import opened RaftRuns

  // ----- the run

  /** Server 0 leads term 1 and has passed the role test for command 7. */
  ghost predicate Tested(s: State)
    requires |s.servers| == SERVER_COUNT
  {
    && s.starting == map[0 := 7] && s.settling == {}
    && s.servers[0] == Won(InitialServer(0))
    && s.servers[1] == Supporter(InitialServer(1), 0, 1) && s.servers[2] == Supporter(InitialServer(2), 0, 1)
    && s.servers[3] == InitialServer(3) && s.servers[4] == InitialServer(4)
  }

  lemma FirstLeader() returns (run: seq<State>)
    ensures IsRun(run) && Nodes(Last(run)) && Tested(Last(run).(starting := map[0 := 7])) && LateSteps(run) == 0
    ensures Last(run).starting == map[] && Last(run).servers[0].role.Leader?
  {
    hide IsRun, LateSteps, Init, Start, Supports, StartElection, Won, Supporter, ConvertToFollower;
    WonIndices(InitialServer(0));
    StartIsRun();
    FreshSupports();
    run := WinElection([Start()], 0, 1, 2);
  }

  lemma TestedRun() returns (run: seq<State>)
    ensures IsRun(run) && Nodes(Last(run)) && Tested(Last(run)) && LateSteps(run) == 0
  {
    hide IsRun, LateSteps, Won, Supporter, InitialServer;
    run := FirstLeader();
    assert map[][0 := 7] == map[0 := 7];
    run := Extend(run, TestRole(0, 7));
  }

  /** Server 1 takes over in term 2 while command 7 still waits for its push. */
  ghost predicate Deposed(s: State)
    requires |s.servers| == SERVER_COUNT
  {
    && s.starting == map[0 := 7] && s.settling == {}
    && s.servers[0] == Supporter(Won(InitialServer(0)), 1, 2)
    && s.servers[1] == Won(Supporter(InitialServer(1), 0, 1))
    && s.servers[2] == Supporter(Supporter(InitialServer(2), 0, 1), 1, 2)
    && s.servers[3] == InitialServer(3) && s.servers[4] == InitialServer(4)
  }

  lemma DeposedRun() returns (run: seq<State>)
    ensures IsRun(run) && Nodes(Last(run)) && Deposed(Last(run)) && LateSteps(run) == 0
  {
    hide IsRun, LateSteps, BecomeLeader;
    WonIndices(InitialServer(0));
    run := TestedRun();
    run := WinElection(run, 1, 0, 2);
  }

  /** Only now is command 7 pushed, with term 2. */
  lemma PushedLate() returns (run: seq<State>)
    ensures IsRun(run) && Nodes(Last(run)) && LateSteps(run) <= 1
    ensures Last(run).settling == {} && Last(run).starting == map[]
    ensures var s := Last(run).servers;
      && s[0] == Supporter(Won(InitialServer(0)), 1, 2).(log := [Entry(7, 2)])
      && s[1] == Won(Supporter(InitialServer(1), 0, 1))
      && s[2] == Supporter(Supporter(InitialServer(2), 0, 1), 1, 2)
      && s[3] == InitialServer(3) && s[4] == InitialServer(4)
  {
    hide IsRun, LateSteps, BecomeLeader;
    WonIndices(InitialServer(0));
    run := DeposedRun();
    run := Extend(run, Push(0));
  }

  /** What matters of the servers 0 to 2 while server 1 leads term 2. */
  ghost predicate Standing(s: State, match0: int, match2: int, commit0: nat, commit1: nat, log2: seq<Entry>)
    requires |s.servers| == SERVER_COUNT
  {
    && s.settling == {} && s.servers[0].term == s.servers[1].term == s.servers[2].term == 2
    && s.servers[0].log == [Entry(7, 2)] && s.servers[0].commit == commit0 && s.servers[0].executed == []
    && !s.servers[0].role.Leader?
    && s.servers[1].role.Leader? && s.servers[1].log == [Entry(8, 2)] && s.servers[1].commit == commit1
    && s.servers[1].executed == [] && s.servers[1].id == 1
    && s.servers[1].matchIndex == [match0, 0, match2, 0, 0]
    && s.servers[1].nextIndex == [match0 + 1, 1, match2 + 1, 1, 1]
    && s.servers[2].log == log2 && s.servers[2].commit == 0
    && s.servers[3] == InitialServer(3) && s.servers[4] == InitialServer(4)
  }

  /** Server 1 gets command 8 at the same index and term. */
  lemma TwoEntries() returns (run: seq<State>)
    ensures run != [] && IsRun(run) && Nodes(Last(run)) && LateSteps(run) <= 1
    ensures Standing(Last(run), 0, 0, 0, 0, [])
  {
    hide IsRun, LateSteps, BecomeLeader;
    WonIndices(InitialServer(0));
    WonIndices(Supporter(InitialServer(1), 0, 1));
    run := PushedLate();
    run := Extend(run, TestRole(1, 8));
    run := Extend(run, Push(1));
  }

  lemma TwoHolders(m: seq<int>)
    requires |m| == 5
    ensures Holders(m, 1, 1, 5) == (if m[0] >= 1 then 1 else 0) + (if m[2] >= 1 then 1 else 0) +
                                   (if m[3] >= 1 then 1 else 0) + (if m[4] >= 1 then 1 else 0)
  {
    assert Holders(m, 1, 1, 0) == 0;
    assert Holders(m, 1, 1, 1) == if m[0] >= 1 then 1 else 0;
    assert Holders(m, 1, 1, 2) == Holders(m, 1, 1, 1);
    assert Holders(m, 1, 1, 3) == Holders(m, 1, 1, 2) + if m[2] >= 1 then 1 else 0;
    assert Holders(m, 1, 1, 4) == Holders(m, 1, 1, 3) + if m[3] >= 1 then 1 else 0;
  }

  /** With one entry of its own term, the leader commits it once two peers hold it. */
  lemma CommitsOne(w: Server)
    requires w.id == 1 && w.log == [Entry(8, 2)] && w.term == 2 && w.commit <= 1 && |w.matchIndex| == 5
    requires w.matchIndex[3] == w.matchIndex[4] == 0
    ensures AdvanceCommit(w) ==
            w.(commit := if w.commit == 1 || (w.matchIndex[0] >= 1 && w.matchIndex[2] >= 1) then 1 else 0)
  {
    TwoHolders(w.matchIndex);
    hide Holders;
    assert CommitScan(w, 0) == w.commit;
  }

  /** The merge compares terms only, so server 0 keeps its own entry. */
  lemma Merges()
    ensures MergeEntries([Entry(7, 2)], 0, [Entry(8, 2)]) == [Entry(7, 2)]
    ensures MergeEntries([], 0, [Entry(8, 2)]) == [Entry(8, 2)]
    ensures MergeEntries([Entry(7, 2)], 1, []) == [Entry(7, 2)]
  {
  }

  /** What the leader sends to a peer whose next index is 1 or 2. */
  lemma SentBy(w: Server, p: nat)
    requires WellFormed(w) && w.log == [Entry(8, 2)] && p < SERVER_COUNT && 1 <= w.nextIndex[p] <= 2
    ensures AppendFor(w, p) ==
            if w.nextIndex[p] == 1 then AppendEntries(w.term, 0, 0, [Entry(8, 2)], w.commit, 1)
            else AppendEntries(w.term, 1, 2, [], w.commit, 1)
  {
    assert w.log[0..] == [Entry(8, 2)];
  }

  /** The leader after peer p has confirmed its one entry. */
  lemma Recorded(w: Server, p: nat)
    requires WellFormed(w) && w.id == 1 && w.log == [Entry(8, 2)] && w.term == 2 && w.commit <= 1 && (p == 0 || p == 2)
    requires w.matchIndex[3] == w.matchIndex[4] == 0
    ensures var m := w.matchIndex[p := 1];
      AdvanceCommit(RecordMatch(w, p, 1)) ==
      w.(matchIndex := m, nextIndex := w.nextIndex[p := 2],
         commit := if w.commit == 1 || (m[0] >= 1 && m[2] >= 1) then 1 else 0)
  {
    CommitsOne(RecordMatch(w, p, 1));
    hide AdvanceCommit;
  }

  lemma FirstRound(run: seq<State>) returns (longer: seq<State>)
    requires run != [] && IsRun(run) && Nodes(Last(run)) && Standing(Last(run), 0, 0, 0, 0, [])
    ensures longer != [] && IsRun(longer) && Nodes(Last(longer)) && LateSteps(longer) <= LateSteps(run)
    ensures Standing(Last(longer), 1, 0, 0, 0, [])
  {
    hide MergeEntries, AdvanceCommit, RecordMatch, AppendFor, IsRun, LateSteps;
    Merges();
    SentBy(Last(run).servers[1], 0);
    Recorded(Last(run).servers[1], 0);
    longer := SendTo(run, 1, 0);
  }

  lemma SecondRound(run: seq<State>) returns (longer: seq<State>)
    requires run != [] && IsRun(run) && Nodes(Last(run)) && Standing(Last(run), 1, 0, 0, 0, [])
    ensures longer != [] && IsRun(longer) && Nodes(Last(longer)) && LateSteps(longer) <= LateSteps(run)
    ensures Standing(Last(longer), 1, 1, 0, 1, [Entry(8, 2)])
  {
    hide MergeEntries, AdvanceCommit, RecordMatch, AppendFor, IsRun, LateSteps;
    Merges();
    SentBy(Last(run).servers[1], 2);
    Recorded(Last(run).servers[1], 2);
    longer := SendTo(run, 1, 2);
  }

  lemma ThirdRound(run: seq<State>) returns (longer: seq<State>)
    requires run != [] && IsRun(run) && Nodes(Last(run)) && Standing(Last(run), 1, 1, 0, 1, [Entry(8, 2)])
    ensures longer != [] && IsRun(longer) && Nodes(Last(longer)) && LateSteps(longer) <= LateSteps(run)
    ensures Standing(Last(longer), 1, 1, 1, 1, [Entry(8, 2)])
  {
    hide MergeEntries, AdvanceCommit, RecordMatch, AppendFor, IsRun, LateSteps;
    Merges();
    SentBy(Last(run).servers[1], 0);
    Recorded(Last(run).servers[1], 0);
    longer := SendTo(run, 1, 0);
  }

  lemma ApplyOne(w: Server, e: Entry)
    requires w.log == [e] && w.commit == 1 && w.executed == []
    ensures ApplyCommitted(w) == w.(executed := [e.cmd])
  {
    assert w.log[0..1] == [e];
    assert Commands([e]) == [e.cmd];
  }

  /** Both servers count their entry as committed. */
  lemma TwoCommitted() returns (run: seq<State>)
    ensures run != [] && IsRun(run) && Nodes(Last(run)) && LateSteps(run) <= 1
    ensures Standing(Last(run), 1, 1, 1, 1, [Entry(8, 2)])
  {
    hide IsRun, LateSteps, Standing;
    run := TwoEntries();
    run := FirstRound(run);
    run := SecondRound(run);
    run := ThirdRound(run);
  }

  /** The two commands are both executed, and the one committed by the leader is lost to a later one. */
  lemma LatePushBreaksSafety() returns (run: seq<State>)
    ensures IsRun(run) && LateSteps(run) <= 1
    ensures var s := Last(run).servers;
      && s[0].log == [Entry(7, 2)] && s[1].log == [Entry(8, 2)]
      && s[0].executed == [7] && s[1].executed == [8]
      && s[0].role.Leader? && s[1].term < s[0].term && s[1].commit == 1
  {
    hide IsRun, LateSteps, ApplyCommitted;
    run := TwoCommitted();
    ApplyOne(Last(run).servers[1], Entry(8, 2));
    ApplyOne(Last(run).servers[0], Entry(7, 2));
    run := Extend(run, Apply(1));
    run := Extend(run, Apply(0));
    run := WinElection(run, 0, 3, 4);
  }
}
