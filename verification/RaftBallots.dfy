/** The part of the invariant that is about votes and terms.  It says nothing of logs, so it holds of
    every run, also of one with a push that comes too late. */
module RaftBallots {
  import opened RaftServer
  import opened RaftProtocol
  import opened RaftInvariant

  // ----- the invariant

  /** Every leader on record was elected by a majority. */
  ghost predicate BallotsOk(h: History) {
    && h.leader.Keys == h.electors.Keys
    && (forall t :: t in h.leader ==> h.leader[t] < SERVER_COUNT && IsMajority(h.electors[t]))
    && (forall t, v :: t in h.electors && v in h.electors[t] ==> Voted(h, v, t, h.leader[t]))
  }

  ghost predicate BallotOk(w: Server, h: History) {
    VoteOk(w, h) && (w.role.Leader? ==> w.term in h.leader && h.leader[w.term] == w.id)
  }

  ghost predicate ServersVote(s: State, h: History)
    requires Nodes(s)
  {
    forall v :: 0 <= v < SERVER_COUNT ==> BallotOk(s.servers[v], h)
  }

  ghost predicate PastVotes(s: State, h: History)
    requires Nodes(s)
  {
    && (forall t :: t in h.leader ==> h.leader[t] < SERVER_COUNT && LeadsOrLeft(s.servers[h.leader[t]], t))
    && (forall v, t :: (v, t) in h.ledger ==> v < SERVER_COUNT && t <= s.servers[v].term)
  }

  ghost predicate QuestionOk(s: State, h: History, c: Call)
    requires Nodes(s) && c.from < SERVER_COUNT
  {
    c.req.RequestVote? ==>
      && c.req.term <= s.servers[c.from].term
      && (Granted(c) ==> c.status.reply.term == c.req.term && Voted(h, c.to, c.req.term, c.from))
  }

  ghost predicate QuestionsOk(s: State, h: History)
    requires Nodes(s)
  {
    forall i :: 0 <= i < |s.calls| ==> QuestionOk(s, h, s.calls[i])
  }

  ghost predicate VotesInv(s: State, h: History) {
    && Nodes(s) && BallotsOk(h) && ServersVote(s, h) && PastVotes(s, h) && QuestionsOk(s, h)
    && TalliesOk(s) && CallsDistinct(s)
  }

  // ----- what the whole invariant says about votes

  lemma ServersBallots(s: State, h: History)
    requires Nodes(s) && ServersOk(s, h) && CallsOk(s, h)
    ensures ServersVote(s, h) && QuestionsOk(s, h)
  {
    hide LogOk, AckOk, ExecutedOk, AppendCallOk;
    forall v | 0 <= v < SERVER_COUNT ensures BallotOk(s.servers[v], h) {
      assert ServerOk(s.servers[v], h);
    }
    forall i | 0 <= i < |s.calls| ensures QuestionOk(s, h, s.calls[i]) {
      assert VoteCallOk(s, h, s.calls[i]);
    }
  }

  lemma RecordsBallots(s: State, h: History)
    requires Nodes(s) && HistoryOk(h) && PastOk(s, h)
    ensures BallotsOk(h) && PastVotes(s, h)
  {
    hide LogOk, IsMajority;
  }

  // ----- majorities of votes

  lemma CountedVoted(s: State, h: History, v: nat)
    requires Nodes(s) && ServersVote(s, h) && QuestionsOk(s, h) && v < SERVER_COUNT && s.servers[v].role.Candidate?
    ensures forall w :: w in Voters(s.calls, v, s.servers[v].term) ==>
              w < SERVER_COUNT && Voted(h, w, s.servers[v].term, v)
  {
    assert BallotOk(s.servers[v], h);
    forall w | w in Voters(s.calls, v, s.servers[v].term) && w != v
      ensures w < SERVER_COUNT && Voted(h, w, s.servers[v].term, v)
    {
      var i :| 0 <= i < |s.calls| && Counted(s.calls[i], v, s.servers[v].term) && s.calls[i].to == w;
      assert QuestionOk(s, h, s.calls[i]);
    }
  }

  /** A candidate with a majority is the first leader of its term. */
  lemma FirstOfTerm(s: State, h: History, v: nat)
    requires Nodes(s) && BallotsOk(h) && PastVotes(s, h) && v < SERVER_COUNT && s.servers[v].role.Candidate?
    requires IsMajority(Voters(s.calls, v, s.servers[v].term))
    requires forall w :: w in Voters(s.calls, v, s.servers[v].term) ==> Voted(h, w, s.servers[v].term, v)
    ensures s.servers[v].term !in h.leader
  {
    var t := s.servers[v].term;
    if t in h.leader {
      var w := MajoritiesMeet(h.electors[t], Voters(s.calls, v, t));
      assert false;
    }
  }

  /** A candidate's counted votes are a majority once there are enough of them. */
  lemma CountedMajority(s: State, h: History, v: nat)
    requires Nodes(s) && ServersVote(s, h) && QuestionsOk(s, h) && TalliesOk(s)
    requires v < SERVER_COUNT && s.servers[v].role.Candidate? && s.servers[v].votes > SERVER_COUNT / 2
    ensures IsMajority(Voters(s.calls, v, s.servers[v].term))
  {
    CountedVoted(s, h, v);
    hide QuestionsOk, ServersVote, Voters;
  }
}
