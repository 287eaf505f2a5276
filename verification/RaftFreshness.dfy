/** How logs are compared in an election: by the term of their last entry, then by their length. */
module RaftFreshness {
  import opened RaftServer

  /** The candidate's last entry comes lexicographically no earlier than the voter's. */
  predicate AtLeastAsFresh(lastTerm: nat, lastIndex: nat, voterTerm: nat, voterIndex: nat) {
    voterTerm < lastTerm || (voterTerm == lastTerm && voterIndex <= lastIndex)
  }

  predicate Fresh(a: seq<Entry>, b: seq<Entry>) {
    !LogIsStale(|a|, LastTerm(a), b)
  }

  /** Of two logs one passes the other's test, and the relation is transitive: a total preorder, so any
      set of servers has one that all the others would vote for. */
  lemma FreshnessIsTotal(a: seq<Entry>, b: seq<Entry>, c: seq<Entry>)
    ensures Fresh(a, a) && (Fresh(a, b) || Fresh(b, a))
    ensures Fresh(a, b) && Fresh(b, c) ==> Fresh(a, c)
    ensures Fresh(a, b) && Fresh(b, a) <==> |a| == |b| && LastTerm(a) == LastTerm(b)
  {
  }

  /** A log that extends the voter's, with terms that do not decrease, passes the test. */
  lemma ExtensionIsFresh(voter: seq<Entry>, log: seq<Entry>)
    requires voter <= log && forall i, j :: 0 <= i <= j < |log| ==> log[i].term <= log[j].term
    ensures Fresh(log, voter)
  {
    if voter != [] {
      assert voter[|voter| - 1] == log[|voter| - 1];
    }
  }

  /** A request is granted if and only if it is not of an older term, the vote of its term is not given
      to somebody else, and the candidate's last entry is at least as fresh.  The voter moves to the
      request's term if that is newer, and remembers the vote it gives. */
  lemma GrantsExactlyWhen(s: Server, candidate: nat, term: nat, lastIndex: nat, lastTerm: nat)
    ensures var (w, reply) := HandleRequestVote(s, candidate, term, lastIndex, lastTerm);
      && (reply.ok <==>
          && s.term <= term
          && (s.term < term || s.votedFor == NOBODY || s.votedFor == candidate)
          && AtLeastAsFresh(lastTerm, lastIndex, LastTerm(s.log), |s.log|))
      && reply.term == w.term == (if s.term < term then term else s.term)
      && w.votedFor == (if reply.ok then candidate else if s.term < term then NOBODY else s.votedFor)
      && w.log == s.log && w.commit == s.commit && w.executed == s.executed
      && w.role == (if s.term < term then Follower else s.role)
      && w.votes == (if s.term < term && s.role.Candidate? then 0 else s.votes)
  {
  }
}
