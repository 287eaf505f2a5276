/** What every reachable state of the protocol satisfies.  The invariant speaks about a history
    that no server stores: who led each term and with which log, who voted for whom, and how far
    each server has acknowledged the log of each term's leader. */
module RaftInvariant {
  import opened RaftServer
  import opened RaftProtocol

  datatype History = History(
    leader: map<nat, nat>,            // the server that led the term
    leaderLog: map<nat, seq<Entry>>,  // the log of that leader; it only grows
    electors: map<nat, set<nat>>,     // the majority that elected it
    ledger: map<(nat, nat), nat>,     // (voter, term) -> candidate
    acked: map<(nat, nat), nat>)      // (server, term) -> acknowledged length of that leader's log

  ghost function Acked(h: History, v: nat, t: nat): nat {
    if (v, t) in h.acked then h.acked[(v, t)] else 0
  }

  ghost predicate Voted(h: History, v: nat, t: nat, candidate: nat) {
    (v, t) in h.ledger && h.ledger[(v, t)] == candidate
  }

  // ----- majorities

  ghost predicate IsMajority(q: set<nat>) {
    (forall v :: v in q ==> v < SERVER_COUNT) && |q| > SERVER_COUNT / 2
  }

  lemma {:induction false} BelowBound(a: set<nat>, n: nat)
    requires forall v :: v in a ==> v < n
    ensures |a| <= n
  {
    if n == 0 {
      assert a == {};
    } else {
      BelowBound(a - {n - 1}, n - 1);
    }
  }

  lemma MajoritiesMeet(a: set<nat>, b: set<nat>) returns (v: nat)
    requires IsMajority(a) && IsMajority(b)
    ensures v in a && v in b
  {
    BelowBound(a + b, SERVER_COUNT);
    assert |a + b| == |a| + |b| - |a * b|;
    v :| v in a * b;
  }

  // ----- logs

  ghost predicate SamePrefix(a: seq<Entry>, b: seq<Entry>, n: nat) {
    n <= |a| && n <= |b| && forall i :: 0 <= i < n ==> a[i] == b[i]
  }

  /** The entry at position k was created by the leader of its term, and everything up to it is
      what that leader had there. */
  ghost predicate Traced(h: History, log: seq<Entry>, k: nat)
    requires k < |log|
  {
    log[k].term in h.leaderLog && SamePrefix(log, h.leaderLog[log[k].term], k + 1)
  }

  ghost predicate LogOk(h: History, log: seq<Entry>, t: nat) {
    forall k :: 0 <= k < |log| ==> log[k].term <= t && Traced(h, log, k)
  }

  /** Position k - 1 of the log of term t's leader holds an entry of term t itself. */
  ghost predicate OwnEntry(h: History, t: nat, k: nat) {
    t in h.leaderLog && 1 <= k <= |h.leaderLog[t]| && h.leaderLog[t][k - 1].term == t
  }

  // ----- commitment

  ghost predicate HoldsAll(h: History, q: set<nat>, t: nat, k: nat) {
    forall v :: v in q ==> Acked(h, v, t) >= k
  }

  /** A majority has acknowledged the first k entries of term t's leader, the last being its own. */
  ghost predicate Committed(h: History, t: nat, k: nat) {
    OwnEntry(h, t, k) && exists q :: IsMajority(q) && HoldsAll(h, q, t, k)
  }

  ghost predicate Blocks(s: State, h: History, q: set<nat>, t: nat, k: nat)
    requires |s.servers| == SERVER_COUNT && IsMajority(q)
  {
    forall v :: v in q ==> s.servers[v].term > t && Acked(h, v, t) < k
  }

  /** A majority has left term t without acknowledging k entries of it: they never will. */
  ghost predicate Blocked(s: State, h: History, t: nat, k: nat)
    requires |s.servers| == SERVER_COUNT
  {
    exists q :: IsMajority(q) && Blocks(s, h, q, t, k)
  }

  ghost predicate Safe(s: State, h: History, t: nat, k: nat, log: seq<Entry>)
    requires |s.servers| == SERVER_COUNT && t in h.leaderLog
  {
    Blocked(s, h, t, k) || SamePrefix(h.leaderLog[t], log, k)
  }

  ghost predicate CommitsPrefix(h: History, t: nat, k: nat, log: seq<Entry>, n: nat) {
    Committed(h, t, k) && n <= k && SamePrefix(h.leaderLog[t], log, n)
  }

  /** The first n entries of the log were committed in a term no later than t. */
  ghost predicate Durable(h: History, log: seq<Entry>, n: nat, t: nat) {
    n == 0 || exists t0: nat, k: nat :: t0 <= t && CommitsPrefix(h, t0, k, log, n)
  }

  // ----- the invariant

  ghost predicate HistoryOk(h: History) {
    && h.leader.Keys == h.leaderLog.Keys == h.electors.Keys
    && (forall t :: t in h.leaderLog ==>
          t >= 1 && h.leader[t] < SERVER_COUNT && IsMajority(h.electors[t]) && LogOk(h, h.leaderLog[t], t))
    && (forall t, v :: t in h.electors && v in h.electors[t] ==> Voted(h, v, t, h.leader[t]))
    && (forall v: nat, t: nat :: Acked(h, v, t) > 0 ==> t in h.leaderLog && Acked(h, v, t) <= |h.leaderLog[t]|)
  }

  ghost predicate LeaderOk(s: Server, h: History)
    requires WellFormed(s)
  {
    s.role.Leader? ==>
      && s.term in h.leader && h.leader[s.term] == s.id
      && s.term in h.leaderLog && s.log == h.leaderLog[s.term]
      && Acked(h, s.id, s.term) == |s.log|
      && (forall j :: 0 <= j < SERVER_COUNT && j != s.id ==> s.matchIndex[j] <= Acked(h, j, s.term))
      && (forall j :: 0 <= j < SERVER_COUNT ==> s.nextIndex[j] <= |s.log| + 1)
  }

  /** The vote a server remembers is the one in the ledger. */
  ghost predicate VoteOk(s: Server, h: History) {
    && (s.votedFor != NOBODY ==> (s.id, s.term) in h.ledger)
    && ((s.id, s.term) in h.ledger ==> s.votedFor == h.ledger[(s.id, s.term)])
    && (!s.role.Follower? ==> s.votedFor == s.id && s.term >= 1)
  }

  ghost predicate AckOk(s: Server, h: History) {
    s.term in h.leaderLog ==> SamePrefix(h.leaderLog[s.term], s.log, Acked(h, s.id, s.term))
  }

  ghost predicate ExecutedOk(s: Server) {
    |s.executed| <= s.commit <= |s.log| && forall k :: 0 <= k < |s.executed| ==> s.executed[k] == s.log[k].cmd
  }

  ghost predicate Counted(c: Call, candidate: nat, term: nat) {
    c.from == candidate && c.req.RequestVote? && c.req.term == term && c.status.Handled? && c.status.reply.ok
  }

  /** Those whose vote the candidate has counted, itself included. */
  ghost function Voters(calls: seq<Call>, candidate: nat, term: nat): set<nat> {
    {candidate} + set i | 0 <= i < |calls| && Counted(calls[i], candidate, term) :: calls[i].to
  }

  ghost predicate ServerOk(s: Server, h: History)
    requires WellFormed(s)
  {
    LeaderOk(s, h) && VoteOk(s, h) && AckOk(s, h) && LogOk(h, s.log, s.term) && ExecutedOk(s)
  }

  ghost predicate ServersOk(s: State, h: History)
    requires Nodes(s)
  {
    forall v :: 0 <= v < SERVER_COUNT ==> ServerOk(s.servers[v], h)
  }

  ghost predicate CommitsOk(s: State, h: History)
    requires Nodes(s)
  {
    forall v :: 0 <= v < SERVER_COUNT ==> Durable(h, s.servers[v].log, s.servers[v].commit, s.servers[v].term)
  }

  ghost predicate TalliesOk(s: State)
    requires Nodes(s)
  {
    forall v :: 0 <= v < SERVER_COUNT && s.servers[v].role.Candidate? ==>
      s.servers[v].votes == |Voters(s.calls, v, s.servers[v].term)|
  }

  ghost predicate LeadsOrLeft(s: Server, t: nat) {
    s.term > t || (s.term == t && s.role.Leader?)
  }

  /** No record is about the future of the server it names. */
  ghost predicate PastOk(s: State, h: History)
    requires Nodes(s)
  {
    && (forall t :: t in h.leader ==> h.leader[t] < SERVER_COUNT && LeadsOrLeft(s.servers[h.leader[t]], t))
    && (forall v, t :: (v, t) in h.ledger ==> v < SERVER_COUNT && t <= s.servers[v].term)
    && (forall v: nat, t: nat :: Acked(h, v, t) > 0 ==> v < SERVER_COUNT && t <= s.servers[v].term)
  }

  ghost predicate StillCandidate(s: State, c: Call)
    requires Nodes(s) && c.from < SERVER_COUNT
  {
    s.servers[c.from].role.Candidate? && s.servers[c.from].term == c.req.term
  }

  ghost predicate Granted(c: Call) {
    c.req.RequestVote? && !c.status.InFlight? && c.status.reply.ok
  }

  ghost predicate VoteCallOk(s: State, h: History, c: Call)
    requires Nodes(s) && c.from < SERVER_COUNT
  {
    c.req.RequestVote? ==>
      && c.req.term <= s.servers[c.from].term
      && (StillCandidate(s, c) ==>
            c.req.lastLogIndex == |s.servers[c.from].log| && c.req.lastLogTerm == LastTerm(s.servers[c.from].log))
      && (Granted(c) ==> c.status.reply.term == c.req.term && Voted(h, c.to, c.req.term, c.from))
  }

  /** A negative prevLogIndex never carries entries and is never accepted. */
  ghost predicate AppendCallOk(h: History, c: Call) {
    c.req.AppendEntries? ==>
      var r := c.req;
      && r.term in h.leaderLog
      && r.term in h.leader && h.leader[r.term] == c.from
      && (r.prevLogIndex >= 0 ==>
            && r.sentUpTo == r.prevLogIndex + |r.entries|
            && r.leaderCommit <= r.sentUpTo <= |h.leaderLog[r.term]|
            && r.entries == h.leaderLog[r.term][r.prevLogIndex..r.sentUpTo]
            && (r.prevLogIndex > 0 ==> r.prevLogTerm == h.leaderLog[r.term][r.prevLogIndex - 1].term)
            && Durable(h, h.leaderLog[r.term], r.leaderCommit, r.term))
      && (!c.status.InFlight? && c.status.reply.ok ==>
            r.prevLogIndex >= 0 && c.status.reply.term == r.term && r.sentUpTo <= Acked(h, c.to, r.term))
  }

  ghost predicate CallsOk(s: State, h: History)
    requires Nodes(s)
  {
    forall i :: 0 <= i < |s.calls| ==> VoteCallOk(s, h, s.calls[i]) && AppendCallOk(h, s.calls[i])
  }

  ghost predicate SameQuestion(a: Call, b: Call) {
    a.req.RequestVote? && b.req.RequestVote? && a.from == b.from && a.to == b.to && a.req.term == b.req.term
  }

  /** A candidate asks each peer once per term. */
  ghost predicate CallsDistinct(s: State) {
    forall i, j :: 0 <= i < j < |s.calls| ==> !SameQuestion(s.calls[i], s.calls[j])
  }

  /** Later leaders keep what an earlier term may still commit. */
  ghost predicate LeadersKeep(s: State, h: History)
    requires Nodes(s)
  {
    forall t: nat, t': nat, k: nat :: OwnEntry(h, t, k) && t' in h.leaderLog && t < t' ==>
      Safe(s, h, t, k, h.leaderLog[t'])
  }

  /** So do the servers that acknowledged it. */
  ghost predicate ServersKeep(s: State, h: History)
    requires Nodes(s)
  {
    forall v: nat, t: nat, k: nat :: 0 <= v < SERVER_COUNT && OwnEntry(h, t, k) && k <= Acked(h, v, t) ==>
      Safe(s, h, t, k, s.servers[v].log)
  }

  ghost predicate Endorses(s: State, h: History, c: Call, t: nat, k: nat)
    requires Nodes(s) && c.from < SERVER_COUNT
  {
    Granted(c) && StillCandidate(s, c) && t < c.req.term && k <= Acked(h, c.to, t)
  }

  ghost predicate EndorsementKept(s: State, h: History, c: Call)
    requires Nodes(s) && c.from < SERVER_COUNT
  {
    forall t: nat, k: nat :: OwnEntry(h, t, k) && Endorses(s, h, c, t, k) ==> Safe(s, h, t, k, s.servers[c.from].log)
  }

  /** So does a candidate that got the vote of a server that acknowledged it. */
  ghost predicate CandidatesKeep(s: State, h: History)
    requires Nodes(s)
  {
    forall i :: 0 <= i < |s.calls| ==> EndorsementKept(s, h, s.calls[i])
  }

  ghost predicate Inv(s: State, h: History) {
    && Nodes(s)
    && HistoryOk(h)
    && ServersOk(s, h)
    && CommitsOk(s, h)
    && TalliesOk(s)
    && PastOk(s, h)
    && CallsOk(s, h)
    && CallsDistinct(s)
    && LeadersKeep(s, h)
    && ServersKeep(s, h)
    && CandidatesKeep(s, h)
  }

  // ----- what follows from the invariant in one state

  lemma ServerHolds(s: State, h: History, v: nat)
    requires Nodes(s) && ServersOk(s, h) && CommitsOk(s, h) && v < SERVER_COUNT
    ensures ServerOk(s.servers[v], h) && s.servers[v].commit <= |s.servers[v].log|
    ensures Durable(h, s.servers[v].log, s.servers[v].commit, s.servers[v].term)
  {
  }

  lemma CommittedIsNotBlocked(s: State, h: History, t: nat, k: nat)
    requires |s.servers| == SERVER_COUNT
    requires Committed(h, t, k)
    ensures !Blocked(s, h, t, k)
  {
    if Blocked(s, h, t, k) {
      var b :| IsMajority(b) && Blocks(s, h, b, t, k);
      var q :| IsMajority(q) && HoldsAll(h, q, t, k);
      var v := MajoritiesMeet(b, q);
      assert false;
    }
  }

  /** Terms never decrease along a log. */
  lemma TermsAscend(h: History, log: seq<Entry>, t: nat, i: nat, j: nat)
    requires HistoryOk(h) && LogOk(h, log, t) && i <= j < |log|
    ensures log[i].term <= log[j].term
  {
    assert Traced(h, log, j);
    var leading := h.leaderLog[log[j].term];
    assert LogOk(h, leading, log[j].term);
    assert leading[i] == log[i];
  }

  /** Two logs with the same term at the same position agree up to there. */
  lemma LogsMatch(h: History, a: seq<Entry>, ta: nat, b: seq<Entry>, tb: nat, k: nat)
    requires LogOk(h, a, ta) && LogOk(h, b, tb)
    requires k < |a| && k < |b| && a[k].term == b[k].term
    ensures SamePrefix(a, b, k + 1)
  {
    assert Traced(h, a, k) && Traced(h, b, k);
  }
}
