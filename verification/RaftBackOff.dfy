/** A leader lowers a peer's next index on every rejection and has no floor for it.  Once the index is
    below 1, the peer accepts nothing the leader sends it, until an older call's success arrives. */
module RaftBackOff {
  import opened RaftServer
  import opened RaftProtocol
  import opened RaftRuns

  /** A negative previous index is rejected by every server, and its log and commit index stay. */
  lemma NegativeIsRejected(callee: Server, r: Request)
    requires r.AppendEntries? && r.prevLogIndex < 0
    ensures var (w, reply) := HandleAppendEntries(callee, r.term, r.prevLogIndex, r.prevLogTerm, r.entries,
      r.leaderCommit);
      !reply.ok && w.log == callee.log && w.commit == callee.commit
  {
  }

  ghost predicate Sent(c: Call, v: nat, p: nat) {
    c.from == v && c.to == p && c.req.AppendEntries?
  }

  ghost predicate Succeeded(c: Call) {
    !c.status.InFlight? && c.status.reply.ok
  }

  /** Every call from v to p beyond the first n has a negative previous index and no success. */
  ghost predicate Starved(s: State, v: nat, p: nat, n: nat) {
    forall i :: n <= i < |s.calls| && Sent(s.calls[i], v, p) ==>
      s.calls[i].req.prevLogIndex < 0 && !Succeeded(s.calls[i])
  }

  /** The success of a call sent among the first n is handled between the two states. */
  ghost predicate OlderSuccess(s: State, s': State, v: nat, p: nat, n: nat) {
    exists i :: 0 <= i < n && i < |s.calls| && i < |s'.calls| && Sent(s'.calls[i], v, p) && !s.calls[i].status.Handled?
                && s'.calls[i].status.Handled? && s'.calls[i].status.reply.ok
  }

  lemma ServedCalls(s: State, i: nat, v: nat, p: nat, n: nat)
    requires Nodes(s) && Enabled(s, Deliver(i)) && n <= |s.calls| && Starved(s, v, p, n)
    ensures Starved(Perform(s, Deliver(i)), v, p, n)
  {
    if s.calls[i].req.AppendEntries? && s.calls[i].req.prevLogIndex < 0 {
      NegativeIsRejected(s.servers[s.calls[i].to], s.calls[i].req);
    }
    hide HandleAppendEntries, HandleRequestVote;
  }

  /** A reply handled at the leader, which still leads its term afterwards. */
  lemma StarvedReturn(s: State, i: nat, v: nat, p: nat, n: nat)
    requires Nodes(s) && Enabled(s, Return(i)) && v < SERVER_COUNT && p < SERVER_COUNT && v != p && n <= |s.calls|
    requires s.servers[v].role.Leader? && s.servers[v].nextIndex[p] <= 0 && Starved(s, v, p, n)
    requires var w := Perform(s, Return(i)).servers[v]; w.role.Leader? && w.term == s.servers[v].term
    ensures var s' := Perform(s, Return(i));
      OlderSuccess(s, s', v, p, n) || (s'.servers[v].nextIndex[p] <= 0 && Starved(s', v, p, n))
  {
    hide CommitScan, BecomeLeader;
    var c, s' := s.calls[i], Perform(s, Return(i));
    if Sent(c, v, p) && c.status.reply.ok {
      assert i < n;
      assert Sent(s'.calls[i], v, p) && !c.status.Handled? && s'.calls[i].status.Handled?;
    } else {
      ReturnedIndex(s, i, v, p);
      assert forall j :: 0 <= j < |s.calls| && j != i ==> s'.calls[j] == s.calls[j];
    }
  }

  /** No reply but the success of a call to p raises p's next index. */
  lemma ReturnedIndex(s: State, i: nat, v: nat, p: nat)
    requires Nodes(s) && Enabled(s, Return(i)) && v < SERVER_COUNT && p < SERVER_COUNT && s.servers[v].role.Leader?
    requires !(Sent(s.calls[i], v, p) && s.calls[i].status.reply.ok)
    requires Perform(s, Return(i)).servers[v].role.Leader?
    ensures Perform(s, Return(i)).servers[v].nextIndex[p] <= s.servers[v].nextIndex[p]
  {
    hide CommitScan, BecomeLeader;
  }

  /** A call delivered to the leader, which still leads its term afterwards, or to anyone else. */
  lemma StarvedDeliver(s: State, i: nat, v: nat, p: nat, n: nat)
    requires Nodes(s) && Enabled(s, Deliver(i)) && v < SERVER_COUNT && p < SERVER_COUNT && n <= |s.calls|
    requires s.servers[v].nextIndex[p] <= 0 && Starved(s, v, p, n)
    ensures var s' := Perform(s, Deliver(i)); s'.servers[v].nextIndex[p] <= 0 && Starved(s', v, p, n)
  {
    ServedCalls(s, i, v, p, n);
    hide MergeEntries, Starved, PrevMatches, GrantsVote;
  }

  lemma CallsGrow(s: State, step: Step)
    requires Nodes(s) && Enabled(s, step)
    ensures |s.calls| <= |Perform(s, step).calls|
  {
  }

  lemma StarvedStep(s: State, step: Step, v: nat, p: nat, n: nat)
    requires Nodes(s) && Enabled(s, step) && v < SERVER_COUNT && p < SERVER_COUNT && v != p && n <= |s.calls|
    requires v !in s.settling
    requires s.servers[v].role.Leader? && s.servers[v].nextIndex[p] <= 0 && Starved(s, v, p, n)
    requires var w := Perform(s, step).servers[v]; w.role.Leader? && w.term == s.servers[v].term
    ensures n <= |Perform(s, step).calls|
    ensures var s' := Perform(s, step);
      OlderSuccess(s, s', v, p, n) || (s'.servers[v].nextIndex[p] <= 0 && Starved(s', v, p, n))
  {
    match step
    case Deliver(i) =>
      StarvedDeliver(s, i, v, p, n);
      CallsGrow(s, step);
      hide *;
    case Return(i) =>
      StarvedReturn(s, i, v, p, n);
      CallsGrow(s, step);
      hide *;
    case _ =>
  }

  lemma NothingSentYet(s: State, v: nat, p: nat)
    ensures Starved(s, v, p, |s.calls|)
  {
  }

  /** A server that leads throughout does not win an election. */
  lemma SettlesNoMore(s: State, step: Step, v: nat)
    requires Nodes(s) && Enabled(s, step) && v < SERVER_COUNT && v !in s.settling && s.servers[v].role.Leader?
    ensures v !in Perform(s, step).settling
  {
    hide Serve, Resume;
  }

  /** Between taking the role and setting its indices, a winner's next indices are at least 1. */
  lemma {:induction false} SettlingIndex(run: seq<State>, i: nat, v: nat, p: nat)
    requires IsRun(run) && i < |run| && v < SERVER_COUNT && p < SERVER_COUNT && v in run[i].settling
    ensures run[i].servers[v].nextIndex[p] >= 1
  {
    hide Perform, Enabled;
    if i > 0 {
      assert Next(run[i - 1], run[i]);
      var step :| Enabled(run[i - 1], step) && Perform(run[i - 1], step) == run[i];
      if v in run[i - 1].settling {
        SettlingIndex(run, i - 1, v, p);
      }
      SettlingStep(run[i - 1], step, v, p);
    }
  }

  lemma SettlingStep(s: State, step: Step, v: nat, p: nat)
    requires Nodes(s) && Enabled(s, step) && v < SERVER_COUNT && p < SERVER_COUNT
    requires v in s.settling ==> s.servers[v].nextIndex[p] >= 1
    requires v in Perform(s, step).settling
    ensures Perform(s, step).servers[v].nextIndex[p] >= 1
  {
    hide Serve, CommitScan;
  }

  ghost predicate LeadsThroughout(run: seq<State>, i: nat, j: nat, v: nat)
    requires IsRun(run) && i <= j < |run| && v < SERVER_COUNT
  {
    forall k :: i <= k <= j ==> run[k].servers[v].role.Leader? && run[k].servers[v].term == run[i].servers[v].term
  }

  /** While v leads one term from moment i to moment j, with p's next index below 1 at i: either every
      call it has sent to p since i was or will be refused, or the success of an older call came in. */
  lemma {:induction false} NothingNewAccepted(run: seq<State>, i: nat, j: nat, v: nat, p: nat)
    requires IsRun(run) && i <= j < |run| && v < SERVER_COUNT && p < SERVER_COUNT && v != p
    requires LeadsThroughout(run, i, j, v) && run[i].servers[v].nextIndex[p] <= 0
    ensures |run[i].calls| <= |run[j].calls| && v !in run[j].settling
    ensures || (run[j].servers[v].nextIndex[p] <= 0 && Starved(run[j], v, p, |run[i].calls|))
            || exists k :: i < k <= j && OlderSuccess(run[k - 1], run[k], v, p, |run[i].calls|)
    decreases j
  {
    hide Perform, Enabled, Starved, OlderSuccess, Init;
    if i == j {
      NothingSentYet(run[i], v, p);
      if v in run[i].settling {
        SettlingIndex(run, i, v, p);
      }
    } else {
      NothingNewAccepted(run, i, j - 1, v, p);
      assert Next(run[j - 1], run[j]);
      var step :| Enabled(run[j - 1], step) && Perform(run[j - 1], step) == run[j];
      SettlesNoMore(run[j - 1], step, v);
      if run[j - 1].servers[v].nextIndex[p] <= 0 && Starved(run[j - 1], v, p, |run[i].calls|) {
        StarvedStep(run[j - 1], step, v, p, |run[i].calls|);
      } else {
        CallsGrow(run[j - 1], step);
      }
    }
  }

  // ----- when the index falls below 1

  /** A peer that lacks the entry before the ones sent refuses the call, in the leader's term. */
  lemma Refusal(s: State, i: nat)
    requires Nodes(s) && Enabled(s, Deliver(i)) && s.calls[i].req.AppendEntries?
    requires var c := s.calls[i];
      s.servers[c.to].term <= c.req.term && !PrevMatches(s.servers[c.to].log, c.req.prevLogIndex, c.req.prevLogTerm)
    ensures var c := s.calls[i];
      Perform(s, Deliver(i)) ==
      s.(servers := s.servers[c.to := ObserveTerm(s.servers[c.to], c.req.term)],
         calls := s.calls[i := c.(status := Replied(Reply(c.req.term, false)))])
  {
    hide PrevMatches;
  }

  lemma BackedOff(s: State, i: nat)
    requires Nodes(s) && Enabled(s, Return(i)) && s.calls[i].req.AppendEntries?
    requires s.servers[s.calls[i].from].role.Leader?
    requires s.calls[i].status == Replied(Reply(s.servers[s.calls[i].from].term, false))
    ensures var c := s.calls[i];
      Perform(s, Return(i)) == s.(servers := s.servers[c.from := BackOff(s.servers[c.from], c.to)],
                                  calls := s.calls[i := c.(status := Handled(c.status.reply))])
  {
  }

  lemma BothDelivered(run: seq<State>, i: nat) returns (longer: seq<State>)
    requires IsRun(run) && i + 1 < |Last(run).calls| && Last(run).settling == {}
    requires Last(run).calls[i] == Last(run).calls[i + 1]
    requires var c := Last(run).calls[i];
      && c.status.InFlight? && c.req.AppendEntries? && Last(run).servers[c.to].term <= c.req.term
      && !PrevMatches(Last(run).servers[c.to].log, c.req.prevLogIndex, c.req.prevLogTerm)
    ensures IsRun(longer) && Nodes(Last(longer)) && LateSteps(longer) <= LateSteps(run)
    ensures var s, c := Last(run), Last(run).calls[i]; var refused := c.(status := Replied(Reply(c.req.term, false)));
      Last(longer) == s.(servers := s.servers[c.to := ObserveTerm(s.servers[c.to], c.req.term)],
                         calls := s.calls[i := refused][i + 1 := refused])
  {
    hide LateSteps, PrevMatches, Delivered;
    Refusal(Last(run), i);
    longer := Extend(run, Deliver(i));
    Refusal(Last(longer), i + 1);
    longer := Extend(longer, Deliver(i + 1));
  }

  lemma BothReturned(run: seq<State>, i: nat) returns (longer: seq<State>)
    requires IsRun(run) && i + 1 < |Last(run).calls| && Last(run).settling == {}
    requires Last(run).calls[i] == Last(run).calls[i + 1]
    requires var c := Last(run).calls[i];
      && c.req.AppendEntries? && Last(run).servers[c.from].role.Leader?
      && c.status == Replied(Reply(Last(run).servers[c.from].term, false))
    ensures IsRun(longer) && Nodes(Last(longer)) && LateSteps(longer) <= LateSteps(run)
    ensures var s, c := Last(run), Last(run).calls[i];
      Last(longer).servers == s.servers[c.from := BackOff(BackOff(s.servers[c.from], c.to), c.to)]
  {
    hide LateSteps, Returned;
    BackedOff(Last(run), i);
    longer := Extend(run, Return(i));
    BackedOff(Last(longer), i + 1);
    longer := Extend(longer, Return(i + 1));
  }

  /** Two calls are in flight to such a peer, which refuses both. */
  lemma RefusedTwice(run: seq<State>, v: nat, p: nat) returns (longer: seq<State>)
    requires IsRun(run) && v < SERVER_COUNT && p < SERVER_COUNT && v != p && Last(run).settling == {}
    requires var w := Last(run).servers; var r := AppendFor(w[v], p);
      && w[v].role.Leader? && w[p].term <= w[v].term && !PrevMatches(w[p].log, r.prevLogIndex, r.prevLogTerm)
    ensures IsRun(longer) && Nodes(Last(longer)) && LateSteps(longer) <= LateSteps(run)
    ensures var s, s' := Last(run), Last(longer);
      s'.servers == s.servers[p := ObserveTerm(s.servers[p], s.servers[v].term)]
                    [v := BackOff(BackOff(s.servers[v], p), p)]
  {
    hide LateSteps, PrevMatches, BackOff, ObserveTerm, Delivered, Returned, AppendFor, Init, Next;
    var i := |Last(run).calls|;
    var c := Call(v, p, AppendFor(Last(run).servers[v], p), InFlight);
    SentInTerm(Last(run).servers[v], p);
    longer := Extend(run, Heartbeat(v, p));
    longer := Extend(longer, Heartbeat(v, p));
    assert Last(longer).calls[i] == c && Last(longer).calls[i + 1] == c;
    longer := BothDelivered(longer, i);
    longer := BothReturned(longer, i);
  }

  /** A winner that gets its first command before it has set its indices. */
  lemma LedWithOneEntry() returns (run: seq<State>)
    ensures IsRun(run) && Nodes(Last(run)) && LateSteps(run) == 0 && Last(run).settling == {}
    ensures var w := Last(run).servers;
      && w[0].role.Leader? && w[0].term == 1 && w[0].log == [Entry(7, 1)] && w[0].nextIndex == [2, 2, 2, 2, 2]
      && w[4] == InitialServer(4)
  {
    hide IsRun, LateSteps, Init, Start, Supports, StartElection, Supporter, BecomeLeader, ConvertToFollower;
    StartIsRun();
    FreshSupports();
    WonIndices(InitialServer(0));
    run := TakeRole([Start()], 0, 1, 2);
    run := Extend(run, TestRole(0, 7));
    run := Extend(run, Push(0));
    run := Extend(run, Settle(0));
  }

  /** A run in which every push is timely reaches a leader whose next index for a peer is 0. */
  lemma IndexReachesZero() returns (run: seq<State>)
    ensures IsTimelyRun(run)
    ensures var w := Last(run).servers;
      w[0].role.Leader? && w[0].log == [Entry(7, 1)] && w[4].log == [] && w[0].nextIndex[4] == 0
  {
    hide IsRun, LateSteps, Init;
    run := LedWithOneEntry();
    run := RefusedTwice(run, 0, 4);
    NoLateSteps(run);
  }

  /** A success is only ever reported for a call whose previous index is not negative. */
  ghost predicate SuccessesCount(s: State) {
    forall i :: 0 <= i < |s.calls| && s.calls[i].req.AppendEntries? ==>
      && s.calls[i].req.prevLogIndex <= s.calls[i].req.sentUpTo
      && (Succeeded(s.calls[i]) ==> 0 <= s.calls[i].req.prevLogIndex)
  }

  lemma {:induction false} VotesOnly(c: Server, peers: nat)
    requires peers <= SERVER_COUNT
    ensures forall i :: 0 <= i < |VoteCalls(c, peers)| ==> VoteCalls(c, peers)[i].req.RequestVote?
  {
    if peers > 0 {
      VotesOnly(c, peers - 1);
    }
  }

  lemma SuccessesStep(s: State, step: Step)
    requires Nodes(s) && Enabled(s, step) && SuccessesCount(s)
    ensures SuccessesCount(Perform(s, step))
  {
    hide Resume, MergeEntries;
    match step
    case ElectionTimeout(v) => VotesOnly(StartElection(s.servers[v]), SERVER_COUNT);
    case _ =>
  }

  lemma {:induction false} RunSuccesses(run: seq<State>, i: nat)
    requires IsRun(run) && i < |run|
    ensures SuccessesCount(run[i])
  {
    hide Perform, Enabled;
    if i > 0 {
      RunSuccesses(run, i - 1);
      assert Next(run[i - 1], run[i]);
      var step :| Enabled(run[i - 1], step) && Perform(run[i - 1], step) == run[i];
      SuccessesStep(run[i - 1], step);
    }
  }

  /** A refusal of p in the leader's own term is handled between the two states. */
  ghost predicate Refused(s: State, s': State, v: nat, p: nat)
    requires v < |s.servers|
  {
    exists i :: 0 <= i < |s.calls| && i < |s'.calls| && Sent(s.calls[i], v, p)
                && s.calls[i].status == Replied(Reply(s.servers[v].term, false)) && s'.calls[i].status.Handled?
  }

  /** Such a refusal lowers the index by one; nothing else lowers it, or sets it below 1. */
  lemma IndexStep(s: State, step: Step, v: nat, p: nat)
    requires Nodes(s) && Enabled(s, step) && SuccessesCount(s) && v < SERVER_COUNT && p < SERVER_COUNT && v != p
    requires s.servers[v].role.Leader?
    requires var w := Perform(s, step).servers[v]; w.role.Leader? && w.term == s.servers[v].term
    ensures var s' := Perform(s, step);
      && (Refused(s, s', v, p) ==> s'.servers[v].nextIndex[p] == s.servers[v].nextIndex[p] - 1)
      && (!Refused(s, s', v, p) ==>
            s'.servers[v].nextIndex[p] == s.servers[v].nextIndex[p] || 1 <= s'.servers[v].nextIndex[p])
  {
    hide CommitScan, MergeEntries, PrevMatches, GrantsVote, AppendFor;
    if step.Return? {
      var c, s' := s.calls[step.i], Perform(s, step);
      assert s'.calls[step.i].status.Handled?;
      if Sent(c, v, p) && c.status == Replied(Reply(s.servers[v].term, false)) {
        assert Refused(s, s', v, p);
      }
    }
  }

  ghost predicate IndexStaysPositive(run: seq<State>, i: nat, j: nat, v: nat, p: nat)
    requires IsRun(run) && i <= j < |run| && v < SERVER_COUNT && p < SERVER_COUNT
  {
    forall k :: i <= k <= j ==> 1 <= run[k].servers[v].nextIndex[p]
  }

  /** Every refusal handled from moment i to moment j finds the index at 2 or more. */
  ghost predicate RefusalsFindTwo(run: seq<State>, i: nat, j: nat, v: nat, p: nat)
    requires IsRun(run) && i <= j < |run| && v < SERVER_COUNT && p < SERVER_COUNT
  {
    forall k :: i < k <= j && Refused(run[k - 1], run[k], v, p) ==> 2 <= run[k - 1].servers[v].nextIndex[p]
  }

  /** While v leads one term: a next index of at least 1 stays so if and only if no refusal is handled
      that finds it at 1. */
  lemma {:induction false} PositiveExactlyWhen(run: seq<State>, i: nat, j: nat, v: nat, p: nat)
    requires IsRun(run) && i <= j < |run| && v < SERVER_COUNT && p < SERVER_COUNT && v != p
    requires LeadsThroughout(run, i, j, v) && 1 <= run[i].servers[v].nextIndex[p]
    ensures IndexStaysPositive(run, i, j, v, p) <==> RefusalsFindTwo(run, i, j, v, p)
    decreases j
  {
    hide Perform, Enabled, Refused, Init, SuccessesCount;
    if i < j {
      PositiveExactlyWhen(run, i, j - 1, v, p);
      RunSuccesses(run, j - 1);
      assert Next(run[j - 1], run[j]);
      var step :| Enabled(run[j - 1], step) && Perform(run[j - 1], step) == run[j];
      IndexStep(run[j - 1], step, v, p);
    }
  }
}
