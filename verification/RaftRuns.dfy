/** Building concrete runs: one step, an election that two peers support, and one round of replication
    that a peer accepts. */
module RaftRuns {
  import opened RaftServer
  import opened RaftProtocol

  ghost function Last(run: seq<State>): State
    requires run != []
  {
    run[|run| - 1]
  }

  /** How many transitions of a run can only be late pushes. */
  ghost function LateSteps(run: seq<State>): nat
    requires forall i :: 0 <= i < |run| ==> Nodes(run[i])
  {
    if |run| <= 1 then 0
    else
      var n := |run| - 1;
      LateSteps(run[..n]) + if TimelyNext(run[n - 1], run[n]) then 0 else 1
  }

  lemma {:induction false} NoLateSteps(run: seq<State>)
    requires IsRun(run) && LateSteps(run) == 0
    ensures IsTimelyRun(run)
  {
    hide Nodes, Init, Next, TimelyNext;
    if |run| > 1 {
      NoLateSteps(run[..|run| - 1]);
    }
  }

  lemma {:induction false} TimelyHasNoLate(run: seq<State>)
    requires IsTimelyRun(run)
    ensures LateSteps(run) == 0
  {
    hide Nodes, Init, Next, TimelyNext;
    if |run| > 1 {
      TimelyHasNoLate(run[..|run| - 1]);
    }
  }

  lemma Extend(run: seq<State>, step: Step) returns (longer: seq<State>)
    requires IsRun(run) && Enabled(Last(run), step)
    ensures longer != [] && IsRun(longer) && Nodes(Last(longer)) && Last(longer) == Perform(Last(run), step)
    ensures run <= longer && |longer| == |run| + 1
    ensures LateSteps(longer) <= LateSteps(run) + if LatePush(Last(run), step) then 1 else 0
  {
    hide Perform, Enabled, Nodes, Init, LatePush;
    var next := Perform(Last(run), step);
    assert Next(Last(run), next);
    assert !LatePush(Last(run), step) ==> TimelyNext(Last(run), next);
    longer := run + [next];
    assert longer[..|run|] == run;
  }

  lemma ExtendTimely(run: seq<State>, step: Step) returns (longer: seq<State>)
    requires IsTimelyRun(run) && Enabled(Last(run), step) && !LatePush(Last(run), step)
    ensures longer != [] && IsTimelyRun(longer) && Nodes(Last(longer)) && Last(longer) == Perform(Last(run), step)
    ensures run <= longer
  {
    hide Perform, Enabled, Nodes, Init, LatePush;
    var next := Perform(Last(run), step);
    assert Next(Last(run), next) && TimelyNext(Last(run), next);
    longer := run + [next];
  }

  // ----- an election that two peers support

  lemma {:induction false} VoteCallTo(c: Server, peers: nat, p: nat) returns (i: nat)
    requires p < peers <= SERVER_COUNT && p != c.id
    ensures i < |VoteCalls(c, peers)|
    ensures VoteCalls(c, peers)[i] == Call(c.id, p, RequestVote(c.term, |c.log|, LastTerm(c.log)), InFlight)
  {
    if p == peers - 1 {
      i := |VoteCalls(c, peers - 1)|;
    } else {
      i := VoteCallTo(c, peers - 1, p);
    }
  }

  /** A peer in an older term, with a log that is not ahead. */
  ghost predicate Supports(p: Server, candidate: Server) {
    p.term < candidate.term && !LogIsStale(|candidate.log|, LastTerm(candidate.log), p.log)
  }

  function Supporter(p: Server, candidate: nat, term: nat): Server {
    ConvertToFollower(p, term).(votedFor := candidate)
  }

  lemma Poll(s: State, i: nat)
    requires Nodes(s) && i < |s.calls| && s.calls[i].status.InFlight? && s.settling == {}
    requires var c := s.calls[i]; var v := s.servers[c.from];
      c.req == RequestVote(v.term, |v.log|, LastTerm(v.log)) && Supports(s.servers[c.to], v)
    ensures var c := s.calls[i]; var v := s.servers[c.from];
      Perform(s, Deliver(i)) == s.(servers := s.servers[c.to := Supporter(s.servers[c.to], c.from, v.term)],
                                   calls := s.calls[i := c.(status := Replied(Reply(v.term, true)))])
  {
  }

  lemma Tally(s: State, i: nat)
    requires Nodes(s) && i < |s.calls| && s.calls[i].req.RequestVote? && s.settling == {}
    requires var v := s.servers[s.calls[i].from];
      v.role.Candidate? && s.calls[i].status == Replied(Reply(v.term, true))
    ensures var c := s.calls[i]; var v := CountVote(s.servers[c.from]);
      Perform(s, Return(i)) == s.(servers := s.servers[c.from := if v.votes >= 3 then BecomeLeader(v) else v],
                                  calls := s.calls[i := c.(status := Handled(c.status.reply))],
                                  settling := if v.votes >= 3 then {c.from} else {})
  {
  }

  /** The calls of a new candidacy, after the two deliveries and after the two returns. */
  lemma TwoVotes(s: State, ia: nat, ib: nat) returns (s1: State, s2: State, s3: State, s4: State)
    requires Nodes(s) && ia < |s.calls| && ib < |s.calls| && s.calls[ia].status.InFlight?
    requires s.calls[ib].status.InFlight? && s.settling == {}
    requires var a, b := s.calls[ia], s.calls[ib]; var v := s.servers[a.from];
      && a.from == b.from && a.to != b.to && v.role.Candidate? && v.votes == 1
      && a.req == b.req == RequestVote(v.term, |v.log|, LastTerm(v.log))
      && Supports(s.servers[a.to], v) && Supports(s.servers[b.to], v)
    ensures Nodes(s1) && Nodes(s2) && Nodes(s3)
    ensures s1 == Perform(s, Deliver(ia)) && Enabled(s1, Deliver(ib)) && s2 == Perform(s1, Deliver(ib))
    ensures Enabled(s2, Return(ia)) && s3 == Perform(s2, Return(ia)) && Enabled(s3, Return(ib))
    ensures s4 == Perform(s3, Return(ib))
    ensures var a, b := s.calls[ia], s.calls[ib]; var v := s.servers[a.from];
      && s4.starting == s.starting && s4.settling == {a.from}
      && s4.servers == s.servers[a.to := Supporter(s.servers[a.to], a.from, v.term)]
                       [b.to := Supporter(s.servers[b.to], a.from, v.term)][a.from := BecomeLeader(v.(votes := 3))]
  {
    var a, b := s.calls[ia], s.calls[ib];
    Poll(s, ia);
    s1 := Perform(s, Deliver(ia));
    Poll(s1, ib);
    s2 := Perform(s1, Deliver(ib));
    Tally(s2, ia);
    s3 := Perform(s2, Return(ia));
    Tally(s3, ib);
    s4 := Perform(s3, Return(ib));
  }

  function Won(w: Server): Server {
    BecomeLeader(StartElection(w).(votes := 3))
  }

  lemma SettledWinner(w: Server)
    ensures SetIndices(BecomeLeader(w)) == BecomeLeader(w)
  {
    assert SetIndices(BecomeLeader(w)).nextIndex == BecomeLeader(w).nextIndex;
    assert SetIndices(BecomeLeader(w)).matchIndex == BecomeLeader(w).matchIndex;
  }

  /** A timeout and the votes of two peers, as five steps from a state. */
  lemma FiveSteps(s: State, v: nat, a: nat, b: nat)
    returns (ia: nat, ib: nat, s0: State, s1: State, s2: State, s3: State, s4: State)
    requires Nodes(s) && s.settling == {}
    requires v < SERVER_COUNT && a < SERVER_COUNT && b < SERVER_COUNT && v != a && v != b && a != b
    requires var w := s.servers;
      !w[v].role.Leader? && Supports(w[a], StartElection(w[v])) && Supports(w[b], StartElection(w[v]))
    ensures Nodes(s0) && Nodes(s1) && Nodes(s2) && Nodes(s3) && Nodes(s4)
    ensures Enabled(s, ElectionTimeout(v)) && s0 == Perform(s, ElectionTimeout(v))
    ensures Enabled(s0, Deliver(ia)) && s1 == Perform(s0, Deliver(ia))
    ensures Enabled(s1, Deliver(ib)) && s2 == Perform(s1, Deliver(ib))
    ensures Enabled(s2, Return(ia)) && s3 == Perform(s2, Return(ia)) && Enabled(s3, Return(ib))
    ensures s4 == Perform(s3, Return(ib))
    ensures s4.starting == s.starting && s4.settling == {v} && s4.servers == Elected(s.servers, v, a, b)
  {
    hide VoteCalls, Supporter, LogIsStale, Delivered, Returned, BecomeLeader, SetIndices;
    var candidate := StartElection(s.servers[v]);
    var ja := VoteCallTo(candidate, SERVER_COUNT, a);
    var jb := VoteCallTo(candidate, SERVER_COUNT, b);
    ia, ib := |s.calls| + ja, |s.calls| + jb;
    s0 := Perform(s, ElectionTimeout(v));
    assert s0.calls[ia] == VoteCalls(candidate, SERVER_COUNT)[ja];
    assert s0.calls[ib] == VoteCalls(candidate, SERVER_COUNT)[jb];
    s1, s2, s3, s4 := TwoVotes(s0, ia, ib);
    WinnerAlone(s.servers, v, a, b, candidate);
  }

  lemma SettledAlone(s: State, v: nat)
    requires Nodes(s) && v < SERVER_COUNT && s.settling == {v} && SetIndices(s.servers[v]) == s.servers[v]
    ensures Enabled(s, Settle(v)) && Perform(s, Settle(v)) == s.(settling := {})
  {
    hide SetIndices;
  }

  /** The servers once v has won the next term with the votes of a and b. */
  function Elected(servers: seq<Server>, v: nat, a: nat, b: nat): seq<Server>
    requires v < |servers| && a < |servers| && b < |servers|
  {
    var term := servers[v].term + 1;
    servers[a := Supporter(servers[a], v, term)][b := Supporter(servers[b], v, term)][v := Won(servers[v])]
  }

  lemma WinnerAlone(servers: seq<Server>, v: nat, a: nat, b: nat, candidate: Server)
    requires v < |servers| && a < |servers| && b < |servers| && v != a && v != b && a != b
    requires candidate == StartElection(servers[v])
    ensures servers[v := candidate][a := Supporter(servers[a], v, candidate.term)]
            [b := Supporter(servers[b], v, candidate.term)][v := BecomeLeader(candidate.(votes := 3))] ==
            Elected(servers, v, a, b)
  {
  }

  /** A server that times out and is supported by two peers takes the role of leader. */
  lemma TakeRole(run: seq<State>, v: nat, a: nat, b: nat) returns (longer: seq<State>)
    requires IsRun(run) && v < SERVER_COUNT && a < SERVER_COUNT && b < SERVER_COUNT && v != a && v != b && a != b
    requires Last(run).settling == {}
    requires var w := Last(run).servers;
      !w[v].role.Leader? && Supports(w[a], StartElection(w[v])) && Supports(w[b], StartElection(w[v]))
    ensures IsRun(longer) && Nodes(Last(longer)) && LateSteps(longer) <= LateSteps(run)
    ensures run <= longer
    ensures Last(longer).starting == Last(run).starting && Last(longer).settling == {v}
    ensures Last(longer).servers == Elected(Last(run).servers, v, a, b)
  {
    hide Perform, Enabled, Elected, Supports, LateSteps;
    var ia, ib, s0, s1, s2, s3, s4 := FiveSteps(Last(run), v, a, b);
    hide IsRun;
    longer := Extend(run, ElectionTimeout(v));
    longer := Extend(longer, Deliver(ia));
    longer := Extend(longer, Deliver(ib));
    longer := Extend(longer, Return(ia));
    longer := Extend(longer, Return(ib));
  }

  /** It then sets its indices and leads the next term. */
  lemma WinElection(run: seq<State>, v: nat, a: nat, b: nat) returns (longer: seq<State>)
    requires IsRun(run) && v < SERVER_COUNT && a < SERVER_COUNT && b < SERVER_COUNT && v != a && v != b && a != b
    requires Last(run).settling == {}
    requires var w := Last(run).servers;
      !w[v].role.Leader? && Supports(w[a], StartElection(w[v])) && Supports(w[b], StartElection(w[v]))
    ensures IsRun(longer) && Nodes(Last(longer)) && LateSteps(longer) <= LateSteps(run)
    ensures run <= longer
    ensures Last(longer).starting == Last(run).starting && Last(longer).settling == {}
    ensures Last(longer).servers == Elected(Last(run).servers, v, a, b)
  {
    hide Perform, Enabled, Supports, LateSteps, Supporter, BecomeLeader, SetIndices;
    SettledWinner(StartElection(Last(run).servers[v]).(votes := 3));
    longer := TakeRole(run, v, a, b);
    SettledAlone(Last(longer), v);
    longer := Extend(longer, Settle(v));
  }

  // ----- one round of replication that a peer accepts

  lemma SentInTerm(w: Server, p: nat)
    requires WellFormed(w) && p < SERVER_COUNT
    ensures AppendFor(w, p).term == w.term
  {
  }

  /** A heartbeat to p that p accepts, up to the leader's handling of the reply. */
  lemma SendTo(run: seq<State>, v: nat, p: nat) returns (longer: seq<State>)
    requires IsRun(run) && v < SERVER_COUNT && p < SERVER_COUNT && v != p && Last(run).settling == {}
    requires var w := Last(run).servers; var r := AppendFor(w[v], p);
      && w[v].role.Leader? && w[p].term == w[v].term
      && 0 <= r.prevLogIndex <= |w[p].log| && PrevMatches(w[p].log, r.prevLogIndex, r.prevLogTerm)
    ensures longer != [] && IsRun(longer) && Nodes(Last(longer)) && LateSteps(longer) <= LateSteps(run)
    ensures var s, s' := Last(run), Last(longer); var r := AppendFor(s.servers[v], p);
      && s'.starting == s.starting && s'.settling == {}
      && s'.servers == s.servers[p := AcceptEntries(s.servers[p], r.prevLogIndex, r.entries, r.leaderCommit)]
                       [v := AdvanceCommit(RecordMatch(s.servers[v], p, r.sentUpTo))]
  {
    hide MergeEntries, CommitScan, LateSteps;
    var s := Last(run);
    var r := AppendFor(s.servers[v], p);
    var i := |s.calls|;
    longer := Extend(run, Heartbeat(v, p));
    assert Last(longer).calls[i] == Call(v, p, r, InFlight);
    longer := Extend(longer, Deliver(i));
    assert Last(longer).calls[i] == Call(v, p, r, Replied(Reply(s.servers[v].term, true)));
    longer := Extend(longer, Return(i));
  }

  // ----- the beginning

  ghost function Start(): State {
    State(seq(SERVER_COUNT, v requires 0 <= v < SERVER_COUNT => InitialServer(v)), [], map[], {})
  }

  lemma StartIsRun()
    ensures Init(Start()) && IsRun([Start()]) && LateSteps([Start()]) == 0
    ensures Start().starting == map[] && Start().settling == {}
    ensures forall v :: 0 <= v < SERVER_COUNT ==> Start().servers[v] == InitialServer(v)
  {
  }

  lemma FreshSupports()
    ensures var candidate := StartElection(InitialServer(0));
      Supports(InitialServer(1), candidate) && Supports(InitialServer(2), candidate) && !InitialServer(0).role.Leader?
  {
  }

  lemma WonIndices(w: Server)
    requires w.log == []
    ensures var v := Won(w);
      && v.id == w.id && v.role.Leader? && v.term == w.term + 1 && v.log == [] && v.commit == w.commit
      && v.executed == w.executed && v.nextIndex == [1, 1, 1, 1, 1] && v.matchIndex == [0, 0, 0, 0, 0]
  {
  }
}
