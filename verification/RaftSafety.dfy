/** Raft's safety properties, for every run in which each push finds its server leading. */
module RaftSafety {
  import opened RaftServer
  import opened RaftProtocol
  import opened RaftInvariant
  import opened RaftPreservation
  import opened RaftElection
  import opened RaftReplication

  // ----- every step keeps the invariant

  lemma InitHolds(s: State) returns (h: History)
    requires Init(s)
    ensures Inv(s, h)
  {
    h := History(map[], map[], map[], map[], map[]);
    assert forall v :: 0 <= v < SERVER_COUNT ==> ServerOk(s.servers[v], h);
  }

  /** The callee's state after it has observed the caller's term. */
  function Observed(s: State, v: nat, t: nat): State
    requires Nodes(s) && v < SERVER_COUNT
  {
    s.(servers := s.servers[v := ObserveTerm(s.servers[v], t)])
  }

  lemma ObservedKeeps(s: State, h: History, v: nat, t: nat)
    requires Inv(s, h) && v < SERVER_COUNT
    ensures Inv(Observed(s, v, t), h)
  {
    if t > s.servers[v].term {
      ObserveKeeps(s, h, v, t);
    } else {
      assert Observed(s, v, t) == s;
    }
  }

  lemma DeliverVoteKeeps(s: State, h: History, i: nat) returns (h': History)
    requires Inv(s, h) && Enabled(s, Deliver(i)) && s.calls[i].req.RequestVote?
    ensures Inv(Perform(s, Deliver(i)), h') && Extends(h, h')
  {
    hide HistoryOk, ServersOk, CommitsOk, TalliesOk, PastOk, CallsDistinct, LeadersKeep, ServersKeep,
      CandidatesKeep, CallsOk;
    var c := s.calls[i];
    var o := Observed(s, c.to, c.req.term);
    ObservedKeeps(s, h, c.to, c.req.term);
    var voter := o.servers[c.to];
    var s' := Perform(s, Deliver(i));
    if GrantsVote(voter, c.from, c.req.term, c.req.lastLogIndex, c.req.lastLogTerm) {
      assert s'.servers == o.servers[c.to := voter.(votedFor := c.from)];
      h' := GrantKeeps(o, h, i, s');
    } else {
      assert s'.servers == o.servers;
      h' := h;
      StatusKeeps(o, h, i, s'.calls[i].status, s');
    }
  }

  lemma AcceptedByObserver(s: State, i: nat, o: State, s': State)
    requires Nodes(s) && Enabled(s, Deliver(i)) && s.calls[i].req.AppendEntries?
    requires o == Observed(s, s.calls[i].to, s.calls[i].req.term) && s' == Perform(s, Deliver(i))
    requires var r := s.calls[i].req; var callee := o.servers[s.calls[i].to];
      r.term >= callee.term && PrevMatches(callee.log, r.prevLogIndex, r.prevLogTerm)
    ensures Nodes(o) && Accepts(o, i, s')
  {
    var c := s.calls[i];
    assert s'.servers == o.servers[c.to := s'.servers[c.to]];
  }

  lemma DeliverAppendKeeps(s: State, h: History, i: nat) returns (h': History)
    requires Inv(s, h) && Enabled(s, Deliver(i)) && s.calls[i].req.AppendEntries?
    ensures Inv(Perform(s, Deliver(i)), h') && Extends(h, h')
  {
    hide HistoryOk, ServersOk, CommitsOk, TalliesOk, PastOk, CallsDistinct, LeadersKeep, ServersKeep,
      CandidatesKeep, CallsOk, MergeEntries, AcceptEntries, Accepts;
    var c := s.calls[i];
    var r := c.req;
    var o := Observed(s, c.to, r.term);
    ObservedKeeps(s, h, c.to, r.term);
    var callee := o.servers[c.to];
    var s' := Perform(s, Deliver(i));
    if r.term < callee.term || !PrevMatches(callee.log, r.prevLogIndex, r.prevLogTerm) {
      assert s'.servers == o.servers;
      h' := h;
      StatusKeeps(o, h, i, s'.calls[i].status, s');
    } else {
      AcceptedByObserver(s, i, o, s');
      h' := AcceptKeeps(o, h, i, s');
    }
  }

  /** The call's reply is noted as handled before the caller acts on it. */
  lemma HandledKeeps(s: State, h: History, i: nat) returns (m: State)
    requires Inv(s, h) && Enabled(s, Return(i))
    requires !(Granted(s.calls[i]) && StillCandidate(s, s.calls[i]))
    ensures m == s.(calls := s.calls[i := s.calls[i].(status := Handled(s.calls[i].status.reply))]) && Inv(m, h)
  {
    hide HistoryOk, ServersOk, CommitsOk, TalliesOk, PastOk, CallsDistinct, LeadersKeep, ServersKeep,
      CandidatesKeep, CallsOk;
    m := s.(calls := s.calls[i := s.calls[i].(status := Handled(s.calls[i].status.reply))]);
    StatusKeeps(s, h, i, Handled(s.calls[i].status.reply), m);
  }

  lemma ReturnVoteKeeps(s: State, h: History, i: nat) returns (h': History)
    requires Inv(s, h) && Enabled(s, Return(i)) && s.calls[i].req.RequestVote?
    ensures Inv(Perform(s, Return(i)), h') && Extends(h, h')
  {
    hide HistoryOk, ServersOk, CommitsOk, TalliesOk, PastOk, CallsDistinct, LeadersKeep, ServersKeep,
      CandidatesKeep, BecomeLeader;
    var c := s.calls[i];
    var r := c.status.reply;
    var caller := s.servers[c.from];
    var s' := Perform(s, Return(i));
    assert VoteCallOk(s, h, c);
    h' := h;
    if r.term <= caller.term && CountsVote(caller, r.ok, r.term) {
      var m := s.(servers := s.servers[c.from := CountVote(caller)], calls := s'.calls);
      CountKeeps(s, h, i, m);
      if CountVote(caller).votes >= SERVER_COUNT / 2 + 1 {
        var led := m.(servers := m.servers[c.from := BecomeLeader(m.servers[c.from])]);
        h' := LeadKeeps(m, h, c.from, led);
        assert s'.servers == led.servers;
        ThreadsKeep(led, h', s');
      }
    } else {
      var m := HandledKeeps(s, h, i);
      if r.term > caller.term {
        ObserveKeeps(m, h, c.from, r.term);
      } else {
        assert s' == m;
      }
    }
  }

  lemma ProgressKeeps(s: State, h: History, v: nat, peer: nat, sentUpTo: int, s': State)
    requires Inv(s, h) && v < SERVER_COUNT && peer < SERVER_COUNT && peer != v && s.servers[v].role.Leader?
    requires sentUpTo <= Acked(h, peer, s.servers[v].term)
    requires s' == s.(servers := s.servers[v := AdvanceCommit(RecordMatch(s.servers[v], peer, sentUpTo))])
    ensures Inv(s', h)
  {
    hide HistoryOk, TalliesOk, PastOk, CallsOk, CallsDistinct, LeadersKeep, ServersKeep, CandidatesKeep, CommitScan;
    assert ServerOk(s.servers[v], h);
    var m := RecordMatch(s.servers[v], peer, sentUpTo);
    ProgressServerOk(h, s.servers[v], peer, sentUpTo);
    assert Durable(h, m.log, m.commit, m.term);
    ScanIsDurable(h, m, |m.log|);
    BookkeepingKeeps(s, h, v, AdvanceCommit(m), s');
  }

  lemma BackOffKeeps(s: State, h: History, v: nat, peer: nat, s': State)
    requires Inv(s, h) && v < SERVER_COUNT && peer < SERVER_COUNT && s.servers[v].role.Leader?
    requires s' == s.(servers := s.servers[v := BackOff(s.servers[v], peer)])
    ensures Inv(s', h)
  {
    assert ServerOk(s.servers[v], h);
    BackOffServerOk(h, s.servers[v], peer);
    BookkeepingKeeps(s, h, v, BackOff(s.servers[v], peer), s');
  }

  lemma SuccessIsAcked(s: State, h: History, c: Call)
    requires AppendCallOk(h, c) && c.req.AppendEntries? && c.status.Replied? && c.status.reply.ok
    ensures c.status.reply.term == c.req.term && c.req.sentUpTo <= Acked(h, c.to, c.req.term)
  {
  }

  lemma ReturnAppendKeeps(s: State, h: History, i: nat)
    requires Inv(s, h) && Enabled(s, Return(i)) && s.calls[i].req.AppendEntries?
    ensures Inv(Perform(s, Return(i)), h)
  {
    hide HistoryOk, ServersOk, CommitsOk, TalliesOk, PastOk, CallsDistinct, LeadersKeep, ServersKeep,
      CandidatesKeep, AppendCallOk, VoteCallOk, AdvanceCommit, RecordMatch, BackOff;
    var c := s.calls[i];
    var r := c.status.reply;
    var caller := s.servers[c.from];
    var s' := Perform(s, Return(i));
    var m := HandledKeeps(s, h, i);
    if r.term > caller.term {
      ObserveKeeps(m, h, c.from, r.term);
    } else if !caller.role.Leader? || r.term < caller.term {
      assert s' == m;
    } else if r.ok {
      SuccessIsAcked(s, h, c);
      ProgressKeeps(m, h, c.from, c.to, c.req.sentUpTo, s');
    } else {
      BackOffKeeps(m, h, c.from, c.to, s');
    }
  }

  lemma ApplyKeeps(s: State, h: History, v: nat)
    requires Inv(s, h) && v < SERVER_COUNT
    ensures Inv(s.(servers := s.servers[v := ApplyCommitted(s.servers[v])]), h)
  {
    assert ServerOk(s.servers[v], h);
    ExecutedStaysOk(h, s.servers[v]);
    BookkeepingKeeps(s, h, v, ApplyCommitted(s.servers[v]),
      s.(servers := s.servers[v := ApplyCommitted(s.servers[v])]));
  }

  lemma InvNodes(s: State, h: History)
    requires Inv(s, h)
    ensures Nodes(s)
  {
  }

  lemma HeartbeatStep(s: State, h: History, v: nat, peer: nat)
    requires Inv(s, h) && Enabled(s, Heartbeat(v, peer))
    ensures Inv(Perform(s, Heartbeat(v, peer)), h)
  {
    hide HistoryOk, ServersOk, CommitsOk, TalliesOk, PastOk, CallsOk, CallsDistinct, LeadersKeep, ServersKeep,
      CandidatesKeep, Durable, LogOk, VoteOk, AckOk, AppendCallOk, AppendFor;
    ServerHolds(s, h, v);
    AppendForOk(h, s.servers[v], peer);
    HeartbeatKeeps(s, h, v, [Call(v, peer, AppendFor(s.servers[v], peer), InFlight)], Perform(s, Heartbeat(v, peer)));
  }

  lemma SettleKeeps(s: State, h: History, v: nat)
    requires Inv(s, h) && Enabled(s, Settle(v))
    ensures Inv(Perform(s, Settle(v)), h)
  {
    hide HistoryOk, ServersOk, CommitsOk, ServerOk, TalliesOk, PastOk, CallsOk, CallsDistinct, LeadersKeep,
      ServersKeep, CandidatesKeep, Durable;
    ServerHolds(s, h, v);
    SettledServerOk(h, s.servers[v]);
    var settled := s.(servers := s.servers[v := SetIndices(s.servers[v])]);
    BookkeepingKeeps(s, h, v, SetIndices(s.servers[v]), settled);
    ThreadsKeep(settled, h, Perform(s, Settle(v)));
  }

  lemma PushStep(s: State, h: History, v: nat) returns (h': History)
    requires Inv(s, h) && Enabled(s, Push(v)) && !LatePush(s, Push(v))
    ensures Inv(Perform(s, Push(v)), h') && Extends(h, h')
  {
    hide HistoryOk, ServersOk, CommitsOk, TalliesOk, PastOk, CallsOk, CallsDistinct, LeadersKeep, ServersKeep,
      CandidatesKeep, Extends;
    var s' := Perform(s, Push(v));
    var pushed := s.(servers := s'.servers);
    h' := AppendKeeps(s, h, v, Entry(s.starting[v], s.servers[v].term), pushed);
    ThreadsKeep(pushed, h', s');
  }

  lemma StepKeeps(s: State, h: History, step: Step) returns (h': History)
    requires Inv(s, h) && Enabled(s, step) && !LatePush(s, step)
    ensures Inv(Perform(s, step), h') && Extends(h, h')
  {
    hide Inv, Extends, Serve, Resume, AppendFor, AppendCommand, ApplyCommitted, SetIndices;
    InvNodes(s, h);
    ExtendsItself(h);
    var s' := Perform(s, step);
    h' := h;
    match step
    case ElectionTimeout(v) =>
      VoteCallsAsk(StartElection(s.servers[v]), SERVER_COUNT);
      h' := ElectionKeeps(s, h, v, VoteCalls(StartElection(s.servers[v]), SERVER_COUNT), s');
    case Heartbeat(v, peer) =>
      HeartbeatStep(s, h, v, peer);
    case Deliver(i) =>
      if s.calls[i].req.RequestVote? {
        h' := DeliverVoteKeeps(s, h, i);
      } else {
        h' := DeliverAppendKeeps(s, h, i);
      }
    case Return(i) =>
      if s.calls[i].req.RequestVote? {
        h' := ReturnVoteKeeps(s, h, i);
      } else {
        ReturnAppendKeeps(s, h, i);
      }
    case Settle(v) =>
      SettleKeeps(s, h, v);
    case TestRole(v, cmd) =>
      ThreadsKeep(s, h, s');
    case Push(v) =>
      h' := PushStep(s, h, v);
    case Apply(v) =>
      ApplyKeeps(s, h, v);
  }

  // ----- what holds in every run

  lemma {:induction false} RunInvariant(run: seq<State>, i: nat) returns (h: History)
    requires IsTimelyRun(run) && i < |run|
    ensures Inv(run[i], h)
  {
    hide Inv, Perform, Init, LatePush;
    if i == 0 {
      h := InitHolds(run[0]);
    } else {
      var h0 := RunInvariant(run, i - 1);
      assert TimelyNext(run[i - 1], run[i]);
      var step :| Enabled(run[i - 1], step) && !LatePush(run[i - 1], step) && Perform(run[i - 1], step) == run[i];
      h := StepKeeps(run[i - 1], h0, step);
    }
  }

  /** The histories of two moments of a run; the later one extends the earlier. */
  lemma {:induction false} RunHistories(run: seq<State>, i: nat, j: nat) returns (h: History, h': History)
    requires IsTimelyRun(run) && i <= j < |run|
    ensures Inv(run[i], h) && Inv(run[j], h') && Extends(h, h')
    decreases j
  {
    hide Inv, Extends, Perform, Init, LatePush;
    if i == j {
      h := RunInvariant(run, i);
      h' := h;
      ExtendsItself(h);
    } else {
      var m: History;
      h, m := RunHistories(run, i, j - 1);
      assert TimelyNext(run[j - 1], run[j]);
      var step :| Enabled(run[j - 1], step) && !LatePush(run[j - 1], step) && Perform(run[j - 1], step) == run[j];
      h' := StepKeeps(run[j - 1], m, step);
      ExtendsFurther(h, m, h');
    }
  }

  /** Log matching: entries with the same index and term, in any two logs at any two moments, are
      equal, and so is everything before them. */
  lemma LogMatching(run: seq<State>, i: nat, j: nat, v: nat, w: nat, k: nat)
    requires IsTimelyRun(run) && i <= j < |run| && v < SERVER_COUNT && w < SERVER_COUNT
    requires k < |run[i].servers[v].log| && k < |run[j].servers[w].log|
    requires run[i].servers[v].log[k].term == run[j].servers[w].log[k].term
    ensures run[i].servers[v].log[..k + 1] == run[j].servers[w].log[..k + 1]
  {
    var h, h' := RunHistories(run, i, j);
    var a, b := run[i].servers[v], run[j].servers[w];
    assert ServerOk(a, h) && ServerOk(b, h');
    LogStaysOk(h, h', a.log, a.term);
    LogsMatch(h', a.log, a.term, b.log, b.term, k);
    EqualPrefixes(a.log, b.log, k + 1);
  }

  /** Leader completeness: what any server has committed is in the log of everyone who leads the
      same term or a higher one, then or later. */
  lemma LeaderCompleteness(run: seq<State>, i: nat, j: nat, v: nat, w: nat)
    requires IsTimelyRun(run) && i <= j < |run| && v < SERVER_COUNT && w < SERVER_COUNT
    requires run[j].servers[w].role.Leader? && run[i].servers[v].term <= run[j].servers[w].term
    ensures var a := run[i].servers[v]; var b := run[j].servers[w];
      a.commit <= |a.log| && a.commit <= |b.log| && a.log[..a.commit] == b.log[..a.commit]
  {
    var h, h' := RunHistories(run, i, j);
    LeaderHoldsCommit(run[i], h, run[j], h', v, w);
    EqualPrefixes(run[i].servers[v].log, run[j].servers[w].log, run[i].servers[v].commit);
  }

  lemma LeaderHoldsCommit(s: State, h: History, s': State, h': History, v: nat, w: nat)
    requires Nodes(s) && CommitsOk(s, h) && ServersOk(s, h)
    requires Nodes(s') && ServersOk(s', h') && LeadersKeep(s', h') && Extends(h, h')
    requires v < SERVER_COUNT && w < SERVER_COUNT && s'.servers[w].role.Leader?
    requires s.servers[v].term <= s'.servers[w].term
    ensures SamePrefix(s.servers[v].log, s'.servers[w].log, s.servers[v].commit)
  {
    var a, b := s.servers[v], s'.servers[w];
    assert ServerOk(a, h) && ServerOk(b, h') && Durable(h, a.log, a.commit, a.term);
    DurableStays(h, h', a.log, a.log, a.commit, a.term, a.term);
    CommitIsInLeader(s', h', a.log, a.commit, a.term, b.term);
  }

  lemma EqualPrefixes(a: seq<Entry>, b: seq<Entry>, n: nat)
    requires SamePrefix(a, b, n)
    ensures a[..n] == b[..n]
  {
  }

  /** Two committed prefixes agree as far as both go. */
  lemma DurablesAgree(s: State, h: History, a: seq<Entry>, n: nat, ta: nat, b: seq<Entry>, m: nat, tb: nat)
    requires Nodes(s) && LeadersKeep(s, h) && Durable(h, a, n, ta) && Durable(h, b, m, tb)
    ensures forall k :: 0 <= k < n && k < m ==> k < |a| && k < |b| && a[k] == b[k]
  {
    hide Blocked;
    if n > 0 && m > 0 {
      var t0: nat, k0: nat :| t0 <= ta && CommitsPrefix(h, t0, k0, a, n);
      var t1: nat, k1: nat :| t1 <= tb && CommitsPrefix(h, t1, k1, b, m);
      CommittedIsNotBlocked(s, h, t0, k0);
      CommittedIsNotBlocked(s, h, t1, k1);
      if t0 < t1 {
        assert Safe(s, h, t0, k0, h.leaderLog[t1]);
      } else if t1 < t0 {
        assert Safe(s, h, t1, k1, h.leaderLog[t0]);
      }
    }
  }

  /** State machine safety: of the command sequences any two servers have executed at any two
      moments of a run, one is a prefix of the other. */
  lemma StateMachineSafety(run: seq<State>, i: nat, j: nat, v: nat, w: nat)
    requires IsTimelyRun(run) && i <= j < |run| && v < SERVER_COUNT && w < SERVER_COUNT
    ensures run[i].servers[v].executed <= run[j].servers[w].executed
            || run[j].servers[w].executed <= run[i].servers[v].executed
  {
    hide HistoryOk, TalliesOk, PastOk, CallsOk, CallsDistinct, LeadersKeep, ServersKeep, CandidatesKeep,
      Durable, LeaderOk, VoteOk, AckOk, LogOk, Extends;
    var h, h' := RunHistories(run, i, j);
    var a, b := run[i].servers[v], run[j].servers[w];
    assert ServerOk(a, h) && ServerOk(b, h');
    assert Durable(h, a.log, a.commit, a.term) && Durable(h', b.log, b.commit, b.term);
    DurableStays(h, h', a.log, a.log, a.commit, a.term, a.term);
    DurablesAgree(run[j], h', a.log, a.commit, a.term, b.log, b.commit, b.term);
  }

  /** Leader append-only: a server that leads the same term at two moments has only added to its log. */
  lemma LeaderAppendOnly(run: seq<State>, i: nat, j: nat, v: nat)
    requires IsTimelyRun(run) && i <= j < |run| && v < SERVER_COUNT
    requires run[i].servers[v].role.Leader? && run[j].servers[v].role.Leader?
    requires run[i].servers[v].term == run[j].servers[v].term
    ensures run[i].servers[v].log <= run[j].servers[v].log
  {
    hide IsTimelyRun, TalliesOk, PastOk, CallsOk, CallsDistinct, LeadersKeep, ServersKeep, CandidatesKeep, HistoryOk,
      CommitsOk;
    var h, h' := RunHistories(run, i, j);
    assert ServerOk(run[i].servers[v], h) && ServerOk(run[j].servers[v], h');
  }

  // ----- what is committed or executed stays so

  lemma {:induction false} ScanStays(w: Server, index: nat)
    requires index <= |w.log|
    ensures w.commit <= CommitScan(w, index)
  {
    if index > w.commit {
      ScanStays(w, index - 1);
    }
  }

  ghost predicate NothingUndone(w: Server, w': Server) {
    w.commit <= w'.commit && w.executed <= w'.executed
  }

  lemma AcceptStep(s: State, h: History, i: nat)
    requires Inv(s, h) && Enabled(s, Deliver(i)) && s.calls[i].req.AppendEntries?
    ensures var v := s.calls[i].to; NothingUndone(s.servers[v], Perform(s, Deliver(i)).servers[v])
  {
    hide HistoryOk, ServersOk, CommitsOk, TalliesOk, PastOk, CallsDistinct, LeadersKeep, ServersKeep,
      CandidatesKeep, CallsOk, MergeEntries, Accepts;
    var c := s.calls[i];
    var o, s' := Observed(s, c.to, c.req.term), Perform(s, Deliver(i));
    ObservedKeeps(s, h, c.to, c.req.term);
    if c.req.term >= o.servers[c.to].term && PrevMatches(o.servers[c.to].log, c.req.prevLogIndex, c.req.prevLogTerm) {
      AcceptedByObserver(s, i, o, s');
      AcceptedKeepsCommit(o, h, i, s');
    }
  }

  lemma ReturnStep(s: State, i: nat, v: nat)
    requires Nodes(s) && Enabled(s, Return(i)) && v < SERVER_COUNT
    ensures NothingUndone(s.servers[v], Perform(s, Return(i)).servers[v])
  {
    hide CommitScan;
    var c := s.calls[i];
    if c.req.AppendEntries? {
      var w := RecordMatch(s.servers[c.from], c.to, c.req.sentUpTo);
      ScanStays(w, |w.log|);
    }
  }

  lemma NothingUndoneStep(s: State, h: History, step: Step, v: nat)
    requires Inv(s, h) && Enabled(s, step) && v < SERVER_COUNT
    ensures NothingUndone(s.servers[v], Perform(s, step).servers[v])
  {
    hide Inv, Returned, AppendFor, HandleAppendEntries;
    InvNodes(s, h);
    match step
    case Return(i) => ReturnStep(s, i, v);
    case Deliver(i) =>
      if s.calls[i].req.AppendEntries? {
        AcceptStep(s, h, i);
      }
    case _ =>
  }

  lemma {:induction false} NothingUndoneOverRun(run: seq<State>, i: nat, j: nat, v: nat)
    requires IsTimelyRun(run) && i <= j < |run| && v < SERVER_COUNT
    ensures NothingUndone(run[i].servers[v], run[j].servers[v])
    decreases j
  {
    hide Inv, Perform, Enabled, Init;
    if i < j {
      NothingUndoneOverRun(run, i, j - 1, v);
      var h := RunInvariant(run, j - 1);
      assert Next(run[j - 1], run[j]);
      var step :| Enabled(run[j - 1], step) && Perform(run[j - 1], step) == run[j];
      NothingUndoneStep(run[j - 1], h, step, v);
    }
  }

  lemma CommitsPersist(s: State, h: History, s': State, h': History, v: nat)
    requires Inv(s, h) && Inv(s', h') && Extends(h, h') && v < SERVER_COUNT
    requires s.servers[v].commit <= s'.servers[v].commit
    ensures var a, b := s.servers[v], s'.servers[v];
      a.commit <= |a.log| && a.commit <= |b.log| && a.log[..a.commit] == b.log[..a.commit]
  {
    hide HistoryOk, ServersOk, CommitsOk, TalliesOk, PastOk, CallsDistinct, LeadersKeep, ServersKeep,
      CandidatesKeep, CallsOk, Durable, ServerOk, Extends;
    var a, b := s.servers[v], s'.servers[v];
    ServerHolds(s, h, v);
    ServerHolds(s', h', v);
    DurableStays(h, h', a.log, a.log, a.commit, a.term, a.term);
    DurablesAgree(s', h', a.log, a.commit, a.term, b.log, b.commit, b.term);
  }

  /** A server's commit index never shrinks, its committed entries never change, and what it has
      executed it has executed for good. */
  lemma CommittedForGood(run: seq<State>, i: nat, j: nat, v: nat)
    requires IsTimelyRun(run) && i <= j < |run| && v < SERVER_COUNT
    ensures var a, b := run[i].servers[v], run[j].servers[v];
      && a.commit <= b.commit && a.executed <= b.executed
      && a.commit <= |a.log| && a.commit <= |b.log| && a.log[..a.commit] == b.log[..a.commit]
  {
    hide Inv, HistoryOk, ServerOk, Durable, LeadersKeep, Extends, IsTimelyRun, IsRun;
    var h, h' := RunHistories(run, i, j);
    NothingUndoneOverRun(run, i, j, v);
    CommitsPersist(run[i], h, run[j], h', v);
  }
}
