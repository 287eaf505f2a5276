/** Every step keeps the invariant.  A handler first observes the caller's term and then acts;
    each of these parts keeps the invariant on its own. */
module RaftPreservation {
  import opened RaftServer
  import opened RaftProtocol
  import opened RaftInvariant

  // ----- histories only grow, and a server that left a term acknowledges no more of it

  ghost predicate Extends(h: History, h': History) {
    && (forall t :: t in h.leaderLog ==>
          t in h'.leaderLog && SamePrefix(h.leaderLog[t], h'.leaderLog[t], |h.leaderLog[t]|))
    && (forall t :: t in h.leader ==> t in h'.leader && h'.leader[t] == h.leader[t])
    && (forall v: nat, t: nat :: Acked(h, v, t) <= Acked(h', v, t))
    && (forall v: nat, t: nat, c: nat :: Voted(h, v, t, c) ==> Voted(h', v, t, c))
  }

  ghost predicate Advances(s: State, h: History, s': State, h': History) {
    && |s.servers| == |s'.servers| == SERVER_COUNT
    && Extends(h, h')
    && (forall v :: 0 <= v < SERVER_COUNT ==> s.servers[v].term <= s'.servers[v].term)
    && (forall v: nat, t: nat :: v < SERVER_COUNT && s.servers[v].term > t ==> Acked(h', v, t) == Acked(h, v, t))
  }

  lemma ExtendsFurther(a: History, b: History, c: History)
    requires Extends(a, b) && Extends(b, c)
    ensures Extends(a, c)
  {
  }

  lemma ExtendsItself(h: History)
    ensures Extends(h, h)
  {
  }

  lemma LogStaysOk(h: History, h': History, log: seq<Entry>, t: nat)
    requires Extends(h, h') && LogOk(h, log, t)
    ensures LogOk(h', log, t)
  {
    forall k | 0 <= k < |log| ensures Traced(h', log, k) {
      assert Traced(h, log, k);
    }
  }

  lemma CommittedStays(h: History, h': History, t: nat, k: nat)
    requires Extends(h, h') && Committed(h, t, k)
    ensures Committed(h', t, k)
  {
    var q :| IsMajority(q) && HoldsAll(h, q, t, k);
    assert HoldsAll(h', q, t, k);
  }

  lemma DurableStays(h: History, h': History, log: seq<Entry>, log': seq<Entry>, n: nat, t: nat, t': nat)
    requires Extends(h, h') && Durable(h, log, n, t) && t <= t' && (n > 0 ==> SamePrefix(log, log', n))
    ensures Durable(h', log', n, t')
  {
    if n > 0 {
      var t0: nat, k: nat :| t0 <= t && CommitsPrefix(h, t0, k, log, n);
      CommittedStays(h, h', t0, k);
      assert CommitsPrefix(h', t0, k, log', n);
    }
  }

  lemma SafeStays(s: State, h: History, s': State, h': History, t: nat, k: nat, log: seq<Entry>, log': seq<Entry>)
    requires Advances(s, h, s', h')
    requires OwnEntry(h, t, k) && Safe(s, h, t, k, log)
    requires SamePrefix(h.leaderLog[t], log, k) ==> SamePrefix(log, log', k)
    ensures Safe(s', h', t, k, log')
  {
    if Blocked(s, h, t, k) {
      var q :| IsMajority(q) && Blocks(s, h, q, t, k);
      assert Blocks(s', h', q, t, k);
    }
  }

  /** A call stays as it should be while its caller moves on. */
  lemma CallStaysOk(s: State, h: History, s': State, h': History, c: Call)
    requires Nodes(s) && Nodes(s') && c.from < SERVER_COUNT
    requires VoteCallOk(s, h, c) && AppendCallOk(h, c)
    requires Extends(h, h') && s.servers[c.from].term <= s'.servers[c.from].term
    requires c.req.RequestVote? && StillCandidate(s', c) ==>
      StillCandidate(s, c) && s.servers[c.from].log == s'.servers[c.from].log
    ensures VoteCallOk(s', h', c) && AppendCallOk(h', c)
  {
    if c.req.AppendEntries? && c.req.prevLogIndex >= 0 {
      var r := c.req;
      DurableStays(h, h', h.leaderLog[r.term], h'.leaderLog[r.term], r.leaderCommit, r.term, r.term);
      assert r.entries == h'.leaderLog[r.term][r.prevLogIndex..r.sentUpTo];
    }
  }

  /** Commit indices stay durable while logs keep what they have committed. */
  lemma CommitsStay(s: State, h: History, s': State, h': History)
    requires Nodes(s) && Nodes(s') && CommitsOk(s, h) && Extends(h, h')
    requires forall v :: 0 <= v < SERVER_COUNT ==>
      && s.servers[v].term <= s'.servers[v].term && s.servers[v].commit == s'.servers[v].commit
      && (s.servers[v].commit > 0 ==> SamePrefix(s.servers[v].log, s'.servers[v].log, s.servers[v].commit))
    ensures CommitsOk(s', h')
  {
    forall v | 0 <= v < SERVER_COUNT
      ensures Durable(h', s'.servers[v].log, s'.servers[v].commit, s'.servers[v].term)
    {
      DurableStays(h, h', s.servers[v].log, s'.servers[v].log, s.servers[v].commit, s.servers[v].term,
        s'.servers[v].term);
    }
  }

  /** Only a server that is still in the term gains acknowledgements, and it is not a past voter. */
  lemma EndorsementsStay(s: State, h: History, s': State, h': History, v: nat)
    requires Nodes(s) && Nodes(s') && PastOk(s, h) && CallsOk(s, h) && CandidatesKeep(s, h) && Advances(s, h, s', h')
    requires v < SERVER_COUNT && |s'.calls| == |s.calls|
    requires forall w: nat, t: nat :: w != v || t != s.servers[v].term ==> Acked(h', w, t) == Acked(h, w, t)
    requires forall t: nat, k: nat, w: nat :: OwnEntry(h', t, k) && w != v && k <= Acked(h, w, t) ==> OwnEntry(h, t, k)
    requires forall t: nat, k: nat :: OwnEntry(h', t, k) && t != s.servers[v].term ==> OwnEntry(h, t, k)
    requires forall i :: 0 <= i < |s'.calls| ==> SameVote(s, s', i)
    ensures CandidatesKeep(s', h')
  {
    forall i | 0 <= i < |s'.calls| ensures EndorsementKept(s', h', s'.calls[i]) {
      assert VoteCallOk(s, h, s.calls[i]);
      EndorsementStays(s, h, s', h', i);
    }
  }

  /** A candidate was one before, with the same log, or entered a new term. */
  ghost predicate CandidacyContinues(w: Server, w': Server) {
    && w.term <= w'.term
    && (w'.role.Candidate? && w'.term == w.term ==> w.role.Candidate? && w.log == w'.log)
  }

  lemma CallsStayOk(s: State, h: History, s': State, h': History)
    requires Nodes(s) && Nodes(s') && CallsOk(s, h) && CallsDistinct(s) && Extends(h, h')
    requires forall v :: 0 <= v < SERVER_COUNT ==> CandidacyContinues(s.servers[v], s'.servers[v])
    requires |s.calls| <= |s'.calls| && forall i :: 0 <= i < |s.calls| ==> s'.calls[i] == s.calls[i]
    requires forall i :: |s.calls| <= i < |s'.calls| ==> s'.calls[i].req.AppendEntries? && AppendCallOk(h', s'.calls[i])
    ensures CallsOk(s', h') && CallsDistinct(s')
  {
    forall i | 0 <= i < |s'.calls| ensures VoteCallOk(s', h', s'.calls[i]) && AppendCallOk(h', s'.calls[i]) {
      if i < |s.calls| {
        assert VoteCallOk(s, h, s.calls[i]) && CandidacyContinues(s.servers[s.calls[i].from],
          s'.servers[s.calls[i].from]);
        CallStaysOk(s, h, s', h', s.calls[i]);
      }
    }
    forall a, b | 0 <= a < b < |s'.calls| ensures !SameQuestion(s'.calls[a], s'.calls[b]) {
      assert b < |s.calls| ==> !SameQuestion(s.calls[a], s.calls[b]);
    }
  }

  lemma StatusCallsOk(s: State, h: History, i: nat, c: Call, s': State, h': History)
    requires Nodes(s) && Nodes(s') && CallsOk(s, h) && CallsDistinct(s) && Extends(h, h')
    requires forall v :: 0 <= v < SERVER_COUNT ==> CandidacyContinues(s.servers[v], s'.servers[v])
    requires i < |s.calls| && s'.calls == s.calls[i := c] && c == s.calls[i].(status := c.status)
    requires VoteCallOk(s', h', c) && AppendCallOk(h', c)
    ensures CallsOk(s', h') && CallsDistinct(s')
  {
    forall j | 0 <= j < |s'.calls| ensures VoteCallOk(s', h', s'.calls[j]) && AppendCallOk(h', s'.calls[j]) {
      if j != i {
        assert VoteCallOk(s, h, s.calls[j]) && CandidacyContinues(s.servers[s.calls[j].from],
          s'.servers[s.calls[j].from]);
        CallStaysOk(s, h, s', h', s.calls[j]);
      }
    }
    forall a, b | 0 <= a < b < |s'.calls| ensures !SameQuestion(s'.calls[a], s'.calls[b]) {
      assert !SameQuestion(s.calls[a], s.calls[b]);
    }
  }

  /** The old call behind a granted vote that still matters. */
  ghost predicate SameVote(s: State, s': State, i: int)
    requires Nodes(s) && Nodes(s') && 0 <= i < |s'.calls|
  {
    Granted(s'.calls[i]) && StillCandidate(s', s'.calls[i]) ==>
      && i < |s.calls| && Granted(s.calls[i]) && StillCandidate(s, s.calls[i])
      && s.calls[i].req == s'.calls[i].req && s.calls[i].from == s'.calls[i].from && s.calls[i].to == s'.calls[i].to
      && s.servers[s.calls[i].from].log == s'.servers[s.calls[i].from].log
  }

  lemma LeadersStillKeep(s: State, h: History, s': State, h': History)
    requires Nodes(s) && Nodes(s') && LeadersKeep(s, h) && Advances(s, h, s', h') && h'.leaderLog == h.leaderLog
    ensures LeadersKeep(s', h')
  {
    forall t: nat, t': nat, k: nat | OwnEntry(h', t, k) && t' in h'.leaderLog && t < t'
      ensures Safe(s', h', t, k, h'.leaderLog[t'])
    {
      assert OwnEntry(h, t, k);
      SafeStays(s, h, s', h', t, k, h.leaderLog[t'], h.leaderLog[t']);
    }
  }

  lemma ServerStillKeeps(s: State, h: History, s': State, h': History, v: nat, t: nat, k: nat)
    requires Nodes(s) && Nodes(s') && ServersKeep(s, h) && Advances(s, h, s', h') && v < SERVER_COUNT
    requires OwnEntry(h, t, k) && k <= Acked(h, v, t)
    requires SamePrefix(s.servers[v].log, s'.servers[v].log, |s.servers[v].log|)
    ensures Safe(s', h', t, k, s'.servers[v].log)
  {
    SafeStays(s, h, s', h', t, k, s.servers[v].log, s'.servers[v].log);
  }

  lemma EndorsementStays(s: State, h: History, s': State, h': History, i: nat)
    requires Nodes(s) && Nodes(s') && CandidatesKeep(s, h) && Advances(s, h, s', h')
    requires i < |s'.calls| && SameVote(s, s', i)
    requires forall t: nat, k: nat :: OwnEntry(h', t, k) && Endorses(s', h', s'.calls[i], t, k) ==>
      OwnEntry(h, t, k) && k <= Acked(h, s'.calls[i].to, t)
    ensures EndorsementKept(s', h', s'.calls[i])
  {
    forall t: nat, k: nat | OwnEntry(h', t, k) && Endorses(s', h', s'.calls[i], t, k)
      ensures Safe(s', h', t, k, s'.servers[s'.calls[i].from].log)
    {
      assert EndorsementKept(s, h, s.calls[i]) && Endorses(s, h, s.calls[i], t, k);
      SafeStays(s, h, s', h', t, k, s.servers[s.calls[i].from].log, s.servers[s.calls[i].from].log);
    }
  }

  /** A step that changes no log or acknowledgement keeps the three promises. */
  lemma PromisesStay(s: State, h: History, s': State, h': History)
    requires Nodes(s) && Nodes(s') && LeadersKeep(s, h) && ServersKeep(s, h) && CandidatesKeep(s, h)
    requires Advances(s, h, s', h')
    requires h'.leaderLog == h.leaderLog && h'.acked == h.acked
    requires forall v :: 0 <= v < SERVER_COUNT ==> s'.servers[v].log == s.servers[v].log
    requires forall i :: 0 <= i < |s'.calls| ==> SameVote(s, s', i) || EndorsementKept(s', h', s'.calls[i])
    ensures LeadersKeep(s', h') && ServersKeep(s', h') && CandidatesKeep(s', h')
  {
    LeadersStillKeep(s, h, s', h');
    forall v: nat, t: nat, k: nat | 0 <= v < SERVER_COUNT && OwnEntry(h', t, k) && k <= Acked(h', v, t)
      ensures Safe(s', h', t, k, s'.servers[v].log)
    {
      ServerStillKeeps(s, h, s', h', v, t, k);
    }
    forall i | 0 <= i < |s'.calls| ensures EndorsementKept(s', h', s'.calls[i]) {
      if SameVote(s, s', i) {
        EndorsementStays(s, h, s', h', i);
      }
    }
  }

  // ----- steps that only touch one server's bookkeeping, votes and calls

  lemma ServerStaysOk(w: Server, h: History, h': History)
    requires WellFormed(w) && ServerOk(w, h) && Extends(h, h')
    requires h'.leader == h.leader && h'.leaderLog == h.leaderLog && h'.acked == h.acked
    requires forall t :: (w.id, t) in h'.ledger ==> (w.id, t) in h.ledger
    ensures ServerOk(w, h')
  {
    LogStaysOk(h, h', w.log, w.term);
    if (w.id, w.term) in h.ledger {
      assert Voted(h, w.id, w.term, h.ledger[(w.id, w.term)]);
    }
  }

  lemma HistoryStaysOk(h: History, h': History)
    requires HistoryOk(h) && Extends(h, h') && h' == h.(ledger := h'.ledger)
    ensures HistoryOk(h')
  {
    forall t | t in h'.leaderLog ensures LogOk(h', h'.leaderLog[t], t) {
      LogStaysOk(h, h', h.leaderLog[t], t);
    }
    assert forall v: nat, t: nat :: Acked(h', v, t) == Acked(h, v, t);
  }

  lemma PastStaysOk(s: State, h: History, s': State, h': History, v: nat)
    requires Nodes(s) && Nodes(s') && v < SERVER_COUNT && PastOk(s, h)
    requires h' == h.(ledger := h'.ledger)
    requires forall w, t :: (w, t) in h'.ledger ==> (w, t) in h.ledger || (w == v && t <= s'.servers[v].term)
    requires forall w :: 0 <= w < SERVER_COUNT && w != v ==> s'.servers[w] == s.servers[w]
    requires s.servers[v].term <= s'.servers[v].term
    requires s.servers[v].role.Leader? ==> LeadsOrLeft(s'.servers[v], s.servers[v].term)
    ensures PastOk(s', h')
  {
    assert forall w: nat, t: nat :: Acked(h', w, t) == Acked(h, w, t);
  }

  lemma QuietStep(s: State, h: History, s': State, h': History, v: nat)
    requires Inv(s, h) && Nodes(s') && v < SERVER_COUNT
    requires h' == h.(ledger := h'.ledger) && Extends(h, h')
    requires forall w, t :: (w, t) in h'.ledger ==> (w, t) in h.ledger || (w == v && t <= s'.servers[v].term)
    requires forall w :: 0 <= w < SERVER_COUNT && w != v ==> s'.servers[w] == s.servers[w]
    requires s.servers[v].term <= s'.servers[v].term && s'.servers[v].log == s.servers[v].log
    requires s.servers[v].role.Leader? ==> LeadsOrLeft(s'.servers[v], s.servers[v].term)
    requires ServerOk(s'.servers[v], h')
    requires Durable(h', s'.servers[v].log, s'.servers[v].commit, s'.servers[v].term)
    requires TalliesOk(s') && CallsOk(s', h') && CallsDistinct(s')
    requires forall i :: 0 <= i < |s'.calls| ==> SameVote(s, s', i) || EndorsementKept(s', h', s'.calls[i])
    ensures Inv(s', h')
  {
    hide TalliesOk, CallsOk, CallsDistinct, HistoryOk, LogOk;
    HistoryStaysOk(h, h');
    PastStaysOk(s, h, s', h', v);
    forall w | 0 <= w < SERVER_COUNT ensures ServerOk(s'.servers[w], h') {
      if w != v {
        ServerStaysOk(s.servers[w], h, h');
      }
    }
    forall w | 0 <= w < SERVER_COUNT
      ensures Durable(h', s'.servers[w].log, s'.servers[w].commit, s'.servers[w].term)
    {
      if w != v {
        DurableStays(h, h', s.servers[w].log, s.servers[w].log, s.servers[w].commit, s.servers[w].term,
          s.servers[w].term);
      }
    }
    PromisesStay(s, h, s', h');
  }

  // ----- observing a higher term

  lemma ObserveServerOk(w: Server, h: History, t: nat)
    requires WellFormed(w) && ServerOk(w, h) && t > w.term
    requires Acked(h, w.id, t) == 0 && (w.id, t) !in h.ledger
    ensures ServerOk(ConvertToFollower(w, t), h)
  {
  }

  lemma NothingInFuture(s: State, h: History, v: nat, t: nat)
    requires Nodes(s) && PastOk(s, h) && v < SERVER_COUNT && t > s.servers[v].term
    ensures Acked(h, v, t) == 0 && (v, t) !in h.ledger
  {
  }

  lemma ObserveTallies(s: State, v: nat, t: nat, s': State)
    requires Nodes(s) && TalliesOk(s) && v < SERVER_COUNT
    requires s' == s.(servers := s.servers[v := ConvertToFollower(s.servers[v], t)])
    ensures Nodes(s') && TalliesOk(s')
  {
    hide Voters;
  }

  lemma ObserveKeeps(s: State, h: History, v: nat, t: nat)
    requires Inv(s, h) && v < SERVER_COUNT && t > s.servers[v].term
    ensures Inv(s.(servers := s.servers[v := ConvertToFollower(s.servers[v], t)]), h)
  {
    hide HistoryOk, ServersOk, CommitsOk, ServerOk, Durable, TalliesOk, PastOk, LeadersKeep, ServersKeep,
      CandidatesKeep, CallsOk, CallsDistinct, EndorsementKept, Extends;
    var s' := s.(servers := s.servers[v := ConvertToFollower(s.servers[v], t)]);
    NothingInFuture(s, h, v, t);
    ServerHolds(s, h, v);
    ExtendsItself(h);
    ObserveServerOk(s.servers[v], h, t);
    ObserveTallies(s, v, t, s');
    DurableStays(h, h, s.servers[v].log, s.servers[v].log, s.servers[v].commit, s.servers[v].term, t);
    CallsStayOk(s, h, s', h);
    QuietStep(s, h, s', h, v);
  }

  // ----- starting an election

  /** Fresh calls of candidate c, one per peer. */
  ghost predicate AskForVotes(c: Server, calls: seq<Call>) {
    && (forall i :: 0 <= i < |calls| ==>
          && calls[i].from == c.id && calls[i].to < SERVER_COUNT && calls[i].to != c.id && calls[i].status.InFlight?
          && calls[i].req == RequestVote(c.term, |c.log|, LastTerm(c.log)))
    && (forall i, j :: 0 <= i < j < |calls| ==> calls[i].to != calls[j].to)
  }

  lemma {:induction false} VoteCallsAsk(c: Server, peers: nat)
    requires peers <= SERVER_COUNT
    ensures AskForVotes(c, VoteCalls(c, peers))
  {
    if peers > 0 {
      VoteCallsAsk(c, peers - 1);
    }
  }

  lemma ElectionServerOk(w: Server, h: History, h': History)
    requires WellFormed(w) && ServerOk(w, h)
    requires Acked(h, w.id, w.term + 1) == 0 && Extends(h, h')
    requires h' == h.(ledger := h.ledger[(w.id, w.term + 1) := w.id])
    ensures ServerOk(StartElection(w), h')
  {
    LogStaysOk(h, h', w.log, w.term);
  }

  lemma VotersIgnoreUnhandled(calls: seq<Call>, newCalls: seq<Call>, w: nat, t: nat)
    requires forall i :: 0 <= i < |newCalls| ==> newCalls[i].status.InFlight?
    ensures Voters(calls + newCalls, w, t) == Voters(calls, w, t)
  {
    forall x | x in Voters(calls, w, t) && x != w ensures x in Voters(calls + newCalls, w, t) {
      var i :| 0 <= i < |calls| && Counted(calls[i], w, t) && calls[i].to == x;
      assert (calls + newCalls)[i] == calls[i];
    }
  }

  lemma ElectionTallies(s: State, v: nat, s': State, newCalls: seq<Call>)
    requires Nodes(s) && Nodes(s') && v < SERVER_COUNT && TalliesOk(s)
    requires forall i :: 0 <= i < |s.calls| && s.calls[i].from == v && s.calls[i].req.RequestVote? ==>
      s.calls[i].req.term <= s.servers[v].term
    requires s' == s.(servers := s.servers[v := StartElection(s.servers[v])], calls := s.calls + newCalls)
    requires AskForVotes(StartElection(s.servers[v]), newCalls)
    ensures TalliesOk(s')
  {
    forall w | 0 <= w < SERVER_COUNT && s'.servers[w].role.Candidate?
      ensures s'.servers[w].votes == |Voters(s'.calls, w, s'.servers[w].term)|
    {
      VotersIgnoreUnhandled(s.calls, newCalls, w, s'.servers[w].term);
      if w == v {
        assert Voters(s.calls, v, s'.servers[v].term) == {v};
      }
    }
  }

  lemma ElectionCalls(s: State, h: History, v: nat, s': State, h': History, newCalls: seq<Call>)
    requires Nodes(s) && Nodes(s') && v < SERVER_COUNT && CallsOk(s, h) && CallsDistinct(s)
    requires s' == s.(servers := s.servers[v := StartElection(s.servers[v])], calls := s.calls + newCalls)
    requires Extends(h, h') && AskForVotes(StartElection(s.servers[v]), newCalls)
    ensures CallsOk(s', h') && CallsDistinct(s')
  {
    forall i | 0 <= i < |s'.calls| ensures VoteCallOk(s', h', s'.calls[i]) && AppendCallOk(h', s'.calls[i]) {
      if i < |s.calls| {
        CallStaysOk(s, h, s', h', s.calls[i]);
      }
    }
  }

  lemma ElectionFrame(s: State, h: History, v: nat, s': State, h': History, newCalls: seq<Call>)
    requires Nodes(s) && v < SERVER_COUNT && PastOk(s, h) && CallsOk(s, h)
    requires s' == s.(servers := s.servers[v := StartElection(s.servers[v])], calls := s.calls + newCalls)
    requires h' == h.(ledger := h.ledger[(v, s.servers[v].term + 1) := v])
    requires AskForVotes(StartElection(s.servers[v]), newCalls)
    ensures Nodes(s') && Extends(h, h')
    ensures forall w, t :: (w, t) in h'.ledger ==> (w, t) in h.ledger || (w == v && t <= s'.servers[v].term)
    ensures forall i :: 0 <= i < |s'.calls| ==> SameVote(s, s', i)
  {
    assert (v, s.servers[v].term + 1) !in h.ledger;
    forall i | 0 <= i < |s'.calls| ensures SameVote(s, s', i) {
      assert i < |s.calls| ==> s'.calls[i] == s.calls[i] && VoteCallOk(s, h, s.calls[i]);
    }
  }

  lemma ElectionKeeps(s: State, h: History, v: nat, newCalls: seq<Call>, s': State) returns (h': History)
    requires Inv(s, h) && v < SERVER_COUNT && !s.servers[v].role.Leader?
    requires s' == s.(servers := s.servers[v := StartElection(s.servers[v])], calls := s.calls + newCalls)
    requires AskForVotes(StartElection(s.servers[v]), newCalls)
    ensures Inv(s', h') && Extends(h, h')
  {
    var c := StartElection(s.servers[v]);
    h' := h.(ledger := h.ledger[(v, c.term) := v]);
    ElectionFrame(s, h, v, s', h', newCalls);
    ElectionServerOk(s.servers[v], h, h');
    ElectionTallies(s, v, s', newCalls);
    ElectionCalls(s, h, v, s', h', newCalls);
    DurableStays(h, h', c.log, c.log, c.commit, s.servers[v].term, c.term);
    QuietStep(s, h, s', h', v);
  }

  // ----- calls that change status, and leaders that send heartbeats

  lemma VotersUnchanged(calls: seq<Call>, i: nat, c: Call, w: nat, t: nat)
    requires i < |calls| && c.from == calls[i].from && c.to == calls[i].to && c.req == calls[i].req
    requires Counted(c, w, t) == Counted(calls[i], w, t)
    ensures Voters(calls[i := c], w, t) == Voters(calls, w, t)
  {
    forall x | x != w ensures x in Voters(calls, w, t) <==> x in Voters(calls[i := c], w, t) {
      if x in Voters(calls, w, t) {
        var j :| 0 <= j < |calls| && Counted(calls[j], w, t) && calls[j].to == x;
        assert Counted(calls[i := c][j], w, t);
      }
    }
  }

  /** The call at i with a new status that adds no consent and no counted vote. */
  ghost predicate OnlyStatus(s: State, i: nat, status: Status)
    requires Nodes(s)
  {
    && i < |s.calls| && !status.InFlight?
    && (status.reply.ok ==> !s.calls[i].status.InFlight? && s.calls[i].status.reply == status.reply)
    && (Counted(s.calls[i].(status := status), s.calls[i].from, s.servers[s.calls[i].from].term) ==>
          !s.servers[s.calls[i].from].role.Candidate?)
    && !s.calls[i].status.Handled?
  }

  lemma StatusTallies(s: State, i: nat, status: Status, s': State)
    requires Nodes(s) && TalliesOk(s) && OnlyStatus(s, i, status)
    requires s' == s.(calls := s.calls[i := s.calls[i].(status := status)])
    ensures Nodes(s') && TalliesOk(s')
  {
    forall w | 0 <= w < SERVER_COUNT && s'.servers[w].role.Candidate?
      ensures s'.servers[w].votes == |Voters(s'.calls, w, s'.servers[w].term)|
    {
      VotersUnchanged(s.calls, i, s'.calls[i], w, s.servers[w].term);
    }
  }

  lemma StatusFrame(s: State, h: History, i: nat, status: Status, s': State)
    requires Nodes(s) && CallsOk(s, h) && CallsDistinct(s) && OnlyStatus(s, i, status)
    requires s' == s.(calls := s.calls[i := s.calls[i].(status := status)])
    ensures Nodes(s') && CallsOk(s', h) && CallsDistinct(s')
    ensures forall j :: 0 <= j < |s'.calls| ==> SameVote(s, s', j)
  {
    CallStaysOk(s, h, s', h, s.calls[i]);
    StatusCallsOk(s, h, i, s'.calls[i], s', h);
  }

  lemma StatusKeeps(s: State, h: History, i: nat, status: Status, s': State)
    requires Inv(s, h) && OnlyStatus(s, i, status)
    requires s' == s.(calls := s.calls[i := s.calls[i].(status := status)])
    ensures Inv(s', h)
  {
    StatusTallies(s, i, status, s');
    StatusFrame(s, h, i, status, s');
    QuietStep(s, h, s', h, s.calls[i].to);
  }

  /** A server that changes only its commit index, replication progress or executed commands. */
  lemma BookkeepingKeeps(s: State, h: History, v: nat, w: Server, s': State)
    requires Inv(s, h) && v < SERVER_COUNT
    requires s' == s.(servers := s.servers[v := w])
    requires w == s.servers[v].(commit := w.commit, executed := w.executed, nextIndex := w.nextIndex,
      matchIndex := w.matchIndex)
    requires WellFormed(w) && ServerOk(w, h) && Durable(h, w.log, w.commit, w.term)
    ensures Inv(s', h)
  {
    CallsStayOk(s, h, s', h);
    QuietStep(s, h, s', h, v);
  }

  /** Which commands wait for their push, and who is settling, is no part of the invariant. */
  lemma ThreadsKeep(s: State, h: History, s': State)
    requires Inv(s, h) && s' == s.(starting := s'.starting, settling := s'.settling)
    ensures Inv(s', h)
  {
    hide HistoryOk, ServerOk, Durable, LeadersKeep, ServersKeep, CandidatesKeep, CallsOk, EndorsementKept, Voters;
    CallsStayOk(s, h, s', h);
    QuietStep(s, h, s', h, 0);
  }

  ghost predicate SendLog(h: History, leader: Server, calls: seq<Call>) {
    forall i :: 0 <= i < |calls| ==>
      && calls[i].from == leader.id && calls[i].to < SERVER_COUNT && calls[i].to != leader.id
      && calls[i].status.InFlight? && calls[i].req.AppendEntries? && AppendCallOk(h, calls[i])
  }

  lemma AppendForOk(h: History, leader: Server, peer: nat)
    requires WellFormed(leader) && peer < SERVER_COUNT && leader.role.Leader? && LeaderOk(leader, h)
    requires ExecutedOk(leader)
    requires Durable(h, leader.log, leader.commit, leader.term)
    ensures AppendFor(leader, peer).AppendEntries?
    ensures AppendCallOk(h, Call(leader.id, peer, AppendFor(leader, peer), InFlight))
  {
    hide Durable, Acked;
    var r := AppendFor(leader, peer);
    if r.prevLogIndex >= 0 {
      assert r.entries == leader.log[r.prevLogIndex..r.sentUpTo];
    }
  }

  lemma HeartbeatTallies(s: State, newCalls: seq<Call>, s': State)
    requires Nodes(s) && Nodes(s') && TalliesOk(s) && s' == s.(calls := s.calls + newCalls)
    requires forall i :: 0 <= i < |newCalls| ==> newCalls[i].status.InFlight?
    ensures TalliesOk(s')
  {
    forall w | 0 <= w < SERVER_COUNT && s'.servers[w].role.Candidate?
      ensures s'.servers[w].votes == |Voters(s'.calls, w, s'.servers[w].term)|
    {
      VotersIgnoreUnhandled(s.calls, newCalls, w, s'.servers[w].term);
    }
  }

  lemma HeartbeatKeeps(s: State, h: History, v: nat, newCalls: seq<Call>, s': State)
    requires Inv(s, h) && v < SERVER_COUNT && SendLog(h, s.servers[v], newCalls)
    requires s' == s.(calls := s.calls + newCalls)
    ensures Inv(s', h)
  {
    hide HistoryOk, ServerOk, Durable, TalliesOk, PastOk, LeadersKeep, ServersKeep, CandidatesKeep, AppendCallOk,
      CallsOk, EndorsementKept;
    HeartbeatTallies(s, newCalls, s');
    CallsStayOk(s, h, s', h);
    QuietStep(s, h, s', h, v);
  }
}
