/** Granting a vote, counting it, and taking the lead keep the invariant. */
module RaftElection {
  import opened RaftServer
  import opened RaftProtocol
  import opened RaftInvariant
  import opened RaftBallots
  import opened RaftPreservation

  // ----- granting a vote

  /** The heart of leader completeness: a log at least as up to date as one that keeps the first
      k entries of term t keeps them too, or they can no longer be committed. */
  lemma FresherLogKeeps(s: State, h: History, t: nat, k: nat, older: seq<Entry>, to: nat, log: seq<Entry>, tl: nat)
    requires Nodes(s) && HistoryOk(h) && LeadersKeep(s, h) && OwnEntry(h, t, k)
    requires LogOk(h, older, to) && LogOk(h, log, tl)
    requires SamePrefix(h.leaderLog[t], older, k) && !LogIsStale(|log|, LastTerm(log), older)
    ensures Safe(s, h, t, k, log)
  {
    TermsAscend(h, older, to, k - 1, |older| - 1);
    assert LogOk(h, h.leaderLog[t], t) && t >= 1;
    var m := |log|;
    var last := LastTerm(log);
    assert Traced(h, log, m - 1);
    if last == LastTerm(older) {
      assert Traced(h, older, |older| - 1);
      assert SamePrefix(h.leaderLog[t], log, k);
    } else {
      assert t < last;
      var later := h.leaderLog[last];
      assert later[m - 1].term == last;
      assert SamePrefix(h.leaderLog[t], later, k) ==> k < m;
    }
  }

  lemma VoterVouches(s: State, h: History, c: Call, t: nat, k: nat)
    requires Nodes(s) && HistoryOk(h) && ServersOk(s, h) && LeadersKeep(s, h) && ServersKeep(s, h)
    requires c.from < SERVER_COUNT && c.to < SERVER_COUNT
    requires c.req.RequestVote? && VoteCallOk(s, h, c) && StillCandidate(s, c)
    requires !LogIsStale(c.req.lastLogIndex, c.req.lastLogTerm, s.servers[c.to].log)
    requires OwnEntry(h, t, k) && k <= Acked(h, c.to, t)
    ensures Safe(s, h, t, k, s.servers[c.from].log)
  {
    var voter, candidate := s.servers[c.to], s.servers[c.from];
    assert ServerOk(voter, h) && ServerOk(candidate, h);
    assert Safe(s, h, t, k, voter.log);
    if SamePrefix(h.leaderLog[t], voter.log, k) {
      FresherLogKeeps(s, h, t, k, voter.log, voter.term, candidate.log, candidate.term);
    }
  }

  lemma GrantEndorses(s: State, h: History, i: nat, s': State, h': History)
    requires Nodes(s) && HistoryOk(h) && ServersOk(s, h) && CallsOk(s, h) && LeadersKeep(s, h) && ServersKeep(s, h)
    requires i < |s.calls|
    requires var c := s.calls[i]; var voter := s.servers[c.to];
      && c.req.RequestVote? && c.req.term == voter.term
      && GrantsVote(voter, c.from, c.req.term, c.req.lastLogIndex, c.req.lastLogTerm)
      && s' == s.(servers := s.servers[c.to := voter.(votedFor := c.from)],
              calls := s.calls[i := c.(status := Replied(Reply(voter.term, true)))])
    requires h' == h.(ledger := h'.ledger) && Extends(h, h') && Nodes(s')
    ensures EndorsementKept(s', h', s'.calls[i])
  {
    var c := s.calls[i];
    var voter := s.servers[c.to];
    forall t: nat, k: nat | OwnEntry(h', t, k) && Endorses(s', h', s'.calls[i], t, k)
      ensures Safe(s', h', t, k, s'.servers[c.from].log)
    {
      var candidate := s.servers[c.from];
      assert OwnEntry(h, t, k) && k <= Acked(h, c.to, t);
      VoterVouches(s, h, c, t, k);
      SafeStays(s, h, s', h', t, k, candidate.log, candidate.log);
    }
  }

  lemma GrantServerOk(w: Server, h: History, h': History, candidate: nat)
    requires WellFormed(w) && ServerOk(w, h) && Extends(h, h')
    requires w.votedFor == NOBODY || w.votedFor == candidate
    requires candidate != w.id
    requires h' == h.(ledger := h.ledger[(w.id, w.term) := candidate])
    ensures ServerOk(w.(votedFor := candidate), h')
  {
    LogStaysOk(h, h', w.log, w.term);
  }

  lemma GrantFrame(s: State, h: History, i: nat, s': State, h': History)
    requires Nodes(s) && TalliesOk(s) && ServersOk(s, h) && CallsOk(s, h) && CallsDistinct(s) && i < |s.calls|
    requires var c := s.calls[i]; var voter := s.servers[c.to];
      && c.req.RequestVote? && c.status.InFlight? && c.req.term == voter.term
      && (voter.votedFor == NOBODY || voter.votedFor == c.from)
      && s' == s.(servers := s.servers[c.to := voter.(votedFor := c.from)],
              calls := s.calls[i := c.(status := Replied(Reply(voter.term, true)))])
      && h' == h.(ledger := h.ledger[(c.to, voter.term) := c.from])
    ensures Nodes(s') && Extends(h, h') && TalliesOk(s') && CallsOk(s', h') && CallsDistinct(s')
    ensures forall j :: 0 <= j < |s'.calls| && j != i ==> SameVote(s, s', j)
  {
    hide Voters, SameQuestion, AppendCallOk;
    var c := s.calls[i];
    var voter := s.servers[c.to];
    assert ServerOk(voter, h);
    assert (c.to, voter.term) in h.ledger ==> Voted(h, c.to, voter.term, c.from);
    assert Extends(h, h');
    forall w | 0 <= w < SERVER_COUNT && s'.servers[w].role.Candidate?
      ensures s'.servers[w].votes == |Voters(s'.calls, w, s'.servers[w].term)|
    {
      VotersUnchanged(s.calls, i, s'.calls[i], w, s.servers[w].term);
    }
    assert VoteCallOk(s, h, c);
    StatusCallsOk(s, h, i, s'.calls[i], s', h');
  }

  lemma GrantKeeps(s: State, h: History, i: nat, s': State) returns (h': History)
    requires Inv(s, h) && i < |s.calls|
    requires var c := s.calls[i]; var voter := s.servers[c.to];
      && c.req.RequestVote? && c.status.InFlight? && c.req.term == voter.term
      && GrantsVote(voter, c.from, c.req.term, c.req.lastLogIndex, c.req.lastLogTerm)
      && s' == s.(servers := s.servers[c.to := voter.(votedFor := c.from)],
              calls := s.calls[i := c.(status := Replied(Reply(voter.term, true)))])
    ensures Inv(s', h') && Extends(h, h')
  {
    hide HistoryOk, ServerOk, Durable, TalliesOk, PastOk, LeadersKeep, ServersKeep, CandidatesKeep, CallsOk,
      CallsDistinct, EndorsementKept, LogIsStale, Extends, ServersOk, CommitsOk;
    var c := s.calls[i];
    var voter := s.servers[c.to];
    h' := h.(ledger := h.ledger[(c.to, voter.term) := c.from]);
    ServerHolds(s, h, c.to);
    GrantFrame(s, h, i, s', h');
    GrantEndorses(s, h, i, s', h');
    GrantServerOk(voter, h, h', c.from);
    DurableStays(h, h', voter.log, voter.log, voter.commit, voter.term, voter.term);
    QuietStep(s, h, s', h', c.to);
  }

  // ----- counting a vote

  lemma CountFrame(s: State, h: History, i: nat, s': State)
    requires Nodes(s) && TalliesOk(s) && CallsOk(s, h) && CallsDistinct(s) && i < |s.calls|
    requires var c := s.calls[i];
      && Granted(c) && c.status.Replied? && StillCandidate(s, c)
      && s' == s.(servers := s.servers[c.from := CountVote(s.servers[c.from])],
              calls := s.calls[i := c.(status := Handled(c.status.reply))])
    ensures Nodes(s') && TalliesOk(s') && CallsOk(s', h) && CallsDistinct(s')
    ensures forall j :: 0 <= j < |s'.calls| ==> SameVote(s, s', j)
  {
    hide Voters, AppendCallOk, SameQuestion;
    var c := s.calls[i];
    CallStaysOk(s, h, s', h, c);
    StatusCallsOk(s, h, i, s'.calls[i], s', h);
    forall w | 0 <= w < SERVER_COUNT && s'.servers[w].role.Candidate?
      ensures s'.servers[w].votes == |Voters(s'.calls, w, s'.servers[w].term)|
    {
      if w == c.from {
        VotersGrow(s, i, s'.calls[i]);
      } else {
        VotersUnchanged(s.calls, i, s'.calls[i], w, s.servers[w].term);
      }
    }
  }

  lemma VotersGrow(s: State, i: nat, c': Call)
    requires Nodes(s) && CallsDistinct(s) && i < |s.calls|
    requires var c := s.calls[i]; Granted(c) && c.status.Replied? && c' == c.(status := Handled(c.status.reply))
    ensures var c := s.calls[i]; var before := Voters(s.calls, c.from, c.req.term);
      c.to !in before && Voters(s.calls[i := c'], c.from, c.req.term) == before + {c.to}
  {
    var c := s.calls[i];
    var t := c.req.term;
    if c.to in Voters(s.calls, c.from, t) {
      var j :| 0 <= j < |s.calls| && Counted(s.calls[j], c.from, t) && s.calls[j].to == c.to;
      assert SameQuestion(s.calls[i], s.calls[j]) && SameQuestion(s.calls[j], s.calls[i]);
      assert false;
    }
    var calls' := s.calls[i := c'];
    assert Counted(calls'[i], c.from, t);
    forall x | x in Voters(s.calls, c.from, t) && x != c.from ensures x in Voters(calls', c.from, t) {
      var j :| 0 <= j < |s.calls| && Counted(s.calls[j], c.from, t) && s.calls[j].to == x;
      assert Counted(calls'[j], c.from, t);
    }
  }

  lemma CountServerOk(w: Server, h: History)
    requires WellFormed(w) && ServerOk(w, h)
    ensures ServerOk(CountVote(w), h)
  {
    hide LogOk;
  }

  lemma CountKeeps(s: State, h: History, i: nat, s': State)
    requires Inv(s, h) && i < |s.calls|
    requires var c := s.calls[i];
      && Granted(c) && c.status.Replied? && StillCandidate(s, c)
      && s' == s.(servers := s.servers[c.from := CountVote(s.servers[c.from])],
              calls := s.calls[i := c.(status := Handled(c.status.reply))])
    ensures Inv(s', h)
  {
    hide HistoryOk, ServerOk, Durable, TalliesOk, PastOk, LeadersKeep, ServersKeep, CandidatesKeep, CallsOk,
      CallsDistinct, EndorsementKept, ServersOk, CommitsOk;
    var c := s.calls[i];
    ServerHolds(s, h, c.from);
    CountServerOk(s.servers[c.from], h);
    CountFrame(s, h, i, s');
    QuietStep(s, h, s', h, c.from);
  }

  // ----- taking the lead

  ghost function Elected(h: History, v: Server, voters: set<nat>): History {
    h.(leader := h.leader[v.term := v.id], leaderLog := h.leaderLog[v.term := v.log],
       electors := h.electors[v.term := voters], acked := h.acked[(v.id, v.term) := |v.log|])
  }

  /** Everyone the candidate counted has its vote in the ledger. */
  lemma VotersVoted(s: State, h: History, v: nat)
    requires Nodes(s) && ServersOk(s, h) && CallsOk(s, h) && v < SERVER_COUNT && s.servers[v].role.Candidate?
    ensures forall w :: w in Voters(s.calls, v, s.servers[v].term) ==>
      w < SERVER_COUNT && Voted(h, w, s.servers[v].term, v)
  {
    hide ServersOk, CallsOk, Voters;
    ServersBallots(s, h);
    CountedVoted(s, h, v);
  }

  lemma ElectedExtends(h: History, v: Server, voters: set<nat>, h': History)
    requires HistoryOk(h) && v.term !in h.leader && h' == Elected(h, v, voters)
    ensures Acked(h, v.id, v.term) == 0 && Extends(h, h')
    ensures forall w: nat, t: nat :: Acked(h', w, t) == if w == v.id && t == v.term then |v.log| else Acked(h, w, t)
  {
    hide IsMajority, LogOk;
  }

  lemma ElectedHistoryOk(h: History, v: Server, voters: set<nat>, h': History)
    requires HistoryOk(h) && LogOk(h, v.log, v.term) && v.term !in h.leader && v.id < SERVER_COUNT && v.term >= 1
    requires IsMajority(voters) && forall w :: w in voters ==> Voted(h, w, v.term, v.id)
    requires h' == Elected(h, v, voters)
    ensures HistoryOk(h')
  {
    hide Extends, LogOk, OwnEntry, IsMajority, Acked;
    ElectedExtends(h, v, voters, h');
    forall t | t in h'.leaderLog ensures LogOk(h', h'.leaderLog[t], t) {
      LogStaysOk(h, h', h'.leaderLog[t], t);
    }
  }

  /** The log of a new leader holds nothing of its own term yet. */
  lemma NoOwnEntries(h: History, v: Server, h': History)
    requires LogOk(h, v.log, v.term) && v.term !in h.leaderLog && h'.leaderLog == h.leaderLog[v.term := v.log]
    ensures forall k: nat :: !OwnEntry(h', v.term, k)
    ensures forall t: nat, k: nat :: OwnEntry(h', t, k) ==> OwnEntry(h, t, k)
  {
    forall k: nat ensures !OwnEntry(h', v.term, k) {
      if 1 <= k <= |v.log| {
        assert Traced(h, v.log, k - 1);
      }
    }
  }

  lemma ElectedLeaderOk(w: Server, h: History, h': History)
    requires WellFormed(w) && ServerOk(w, h) && w.role.Candidate? && LogOk(h', w.log, w.term)
    requires h'.leader == h.leader[w.term := w.id] && h'.ledger == h.ledger
    requires h'.leaderLog == h.leaderLog[w.term := w.log] && Acked(h', w.id, w.term) == |w.log|
    ensures ServerOk(BecomeLeader(w), h')
  {
    hide LogOk, Acked;
  }

  lemma ElectedOtherOk(w: Server, h: History, term: nat, leader: Server, h': History)
    requires WellFormed(w) && ServerOk(w, h) && w.id != leader.id && LogOk(h', w.log, w.term)
    requires term !in h.leader && term !in h.leaderLog
    requires h'.leader == h.leader[term := leader.id] && h'.ledger == h.ledger
    requires h'.leaderLog == h.leaderLog[term := leader.log]
    requires forall v: nat, t: nat :: v != leader.id ==> Acked(h', v, t) == Acked(h, v, t)
    requires w.role.Leader? ==> forall t: nat :: t != term ==> Acked(h', leader.id, t) == Acked(h, leader.id, t)
    requires Acked(h, w.id, term) == 0
    ensures ServerOk(w, h')
  {
    hide LogOk, Acked;
  }

  lemma ElectedServersOk(s: State, h: History, v: nat, s': State, h': History)
    requires Nodes(s) && Nodes(s') && HistoryOk(h) && ServersOk(s, h) && v < SERVER_COUNT
    requires s' == s.(servers := s.servers[v := BecomeLeader(s.servers[v])])
    requires s.servers[v].term !in h.leader && Extends(h, h') && s.servers[v].role.Candidate?
    requires h'.leader == h.leader[s.servers[v].term := v] && h'.ledger == h.ledger
    requires h'.leaderLog == h.leaderLog[s.servers[v].term := s.servers[v].log]
    requires forall w: nat, t: nat ::
      Acked(h', w, t) == if w == v && t == s.servers[v].term then |s.servers[v].log| else Acked(h, w, t)
    ensures ServersOk(s', h')
  {
    hide Traced, LogOk, Acked, Extends, IsMajority, ServerOk;
    forall w | 0 <= w < SERVER_COUNT ensures ServerOk(s'.servers[w], h') {
      assert ServerOk(s.servers[w], h);
      ServerLogOk(s.servers[w], h);
      LogStaysOk(h, h', s.servers[w].log, s.servers[w].term);
      if w == v {
        ElectedLeaderOk(s.servers[v], h, h');
      } else {
        ElectedOtherOk(s.servers[w], h, s.servers[v].term, s.servers[v], h');
      }
    }
  }

  lemma ServerLogOk(w: Server, h: History)
    requires WellFormed(w) && ServerOk(w, h)
    ensures LogOk(h, w.log, w.term)
  {
  }

  lemma ElectedLeadersKeep(s: State, h: History, v: nat, s': State, h': History)
    requires Inv(s, h) && Nodes(s') && v < SERVER_COUNT && s.servers[v].role.Candidate?
    requires IsMajority(Voters(s.calls, v, s.servers[v].term))
    requires s' == s.(servers := s.servers[v := BecomeLeader(s.servers[v])]) && Advances(s, h, s', h')
    requires h'.leaderLog == h.leaderLog[s.servers[v].term := s.servers[v].log] && s.servers[v].term !in h.leaderLog
    requires forall t: nat, k: nat :: OwnEntry(h', t, k) ==> OwnEntry(h, t, k)
    ensures LeadersKeep(s', h')
  {
    var log, term := s.servers[v].log, s.servers[v].term;
    forall t: nat, t': nat, k: nat | OwnEntry(h', t, k) && t' in h'.leaderLog && t < t'
      ensures Safe(s', h', t, k, h'.leaderLog[t'])
    {
      if t' == term {
        NewLeaderKeeps(s, h, v, t, k);
        SafeStays(s, h, s', h', t, k, log, log);
      } else {
        SafeStays(s, h, s', h', t, k, h.leaderLog[t'], h.leaderLog[t']);
      }
    }
  }

  lemma VotersBlock(s: State, h: History, v: nat, t: nat, k: nat)
    requires Nodes(s) && ServersOk(s, h) && CallsOk(s, h) && PastOk(s, h)
    requires v < SERVER_COUNT && s.servers[v].role.Candidate? && t < s.servers[v].term
    requires IsMajority(Voters(s.calls, v, s.servers[v].term))
    requires forall w :: w in Voters(s.calls, v, s.servers[v].term) ==> Acked(h, w, t) < k
    ensures Blocked(s, h, t, k)
  {
    var voters := Voters(s.calls, v, s.servers[v].term);
    VotersVoted(s, h, v);
    forall w | w in voters ensures s.servers[w].term > t && Acked(h, w, t) < k {
      assert Voted(h, w, s.servers[v].term, v);
    }
    assert Blocks(s, h, voters, t, k);
  }

  /** Whatever an earlier term may still commit, some elector acknowledged, so the log has it. */
  lemma NewLeaderKeeps(s: State, h: History, v: nat, t: nat, k: nat)
    requires Nodes(s) && ServersOk(s, h) && CallsOk(s, h) && PastOk(s, h) && ServersKeep(s, h) && CandidatesKeep(s, h)
    requires v < SERVER_COUNT && s.servers[v].role.Candidate?
    requires IsMajority(Voters(s.calls, v, s.servers[v].term))
    requires OwnEntry(h, t, k) && t < s.servers[v].term
    ensures Safe(s, h, t, k, s.servers[v].log)
  {
    hide ServerOk, PastOk, Blocked, SamePrefix, AppendCallOk;
    var term := s.servers[v].term;
    var voters := Voters(s.calls, v, term);
    VotersVoted(s, h, v);
    if w :| w in voters && k <= Acked(h, w, t) {
      if w != v {
        var i :| 0 <= i < |s.calls| && Counted(s.calls[i], v, term) && s.calls[i].to == w;
        assert EndorsementKept(s, h, s.calls[i]) && Endorses(s, h, s.calls[i], t, k);
      }
    } else {
      VotersBlock(s, h, v, t, k);
    }
  }

  lemma ElectedOthersKeep(s: State, h: History, v: nat, s': State, h': History)
    requires Nodes(s) && Nodes(s') && ServersKeep(s, h) && CandidatesKeep(s, h) && v < SERVER_COUNT
    requires s' == s.(servers := s.servers[v := BecomeLeader(s.servers[v])]) && Advances(s, h, s', h')
    requires forall t: nat, k: nat :: OwnEntry(h', t, k) ==> OwnEntry(h, t, k) && t != s.servers[v].term
    requires forall w: nat, t: nat :: t != s.servers[v].term ==> Acked(h', w, t) == Acked(h, w, t)
    ensures ServersKeep(s', h') && CandidatesKeep(s', h')
  {
    forall w: nat, t: nat, k: nat | 0 <= w < SERVER_COUNT && OwnEntry(h', t, k) && k <= Acked(h', w, t)
      ensures Safe(s', h', t, k, s'.servers[w].log)
    {
      ServerStillKeeps(s, h, s', h', w, t, k);
    }
    forall i | 0 <= i < |s'.calls| ensures EndorsementKept(s', h', s'.calls[i]) {
      EndorsementStays(s, h, s', h', i);
    }
  }

  lemma LeadTallies(s: State, v: nat, s': State)
    requires Nodes(s) && TalliesOk(s) && v < SERVER_COUNT
    requires s' == s.(servers := s.servers[v := BecomeLeader(s.servers[v])])
    ensures Nodes(s') && TalliesOk(s')
  {
    hide Voters;
  }

  lemma LeadPast(s: State, h: History, v: nat, s': State, h': History)
    requires Nodes(s) && Nodes(s') && PastOk(s, h) && v < SERVER_COUNT
    requires s' == s.(servers := s.servers[v := BecomeLeader(s.servers[v])]) && Extends(h, h')
    requires h'.leader == h.leader[s.servers[v].term := v] && h'.ledger == h.ledger
    requires forall w: nat, t: nat :: Acked(h', w, t) == Acked(h, w, t) || (w == v && t == s.servers[v].term)
    ensures PastOk(s', h') && Advances(s, h, s', h')
  {
    hide Extends, Acked;
  }

  lemma LeadFrame(s: State, h: History, v: nat, s': State, h': History)
    requires Nodes(s) && PastOk(s, h) && TalliesOk(s) && CommitsOk(s, h) && CallsOk(s, h) && CallsDistinct(s)
    requires v < SERVER_COUNT
    requires s.servers[v].role.Candidate? && forall w :: 0 <= w < SERVER_COUNT ==> ExecutedOk(s.servers[w])
    requires s' == s.(servers := s.servers[v := BecomeLeader(s.servers[v])]) && Extends(h, h')
    requires h'.leader == h.leader[s.servers[v].term := v] && h'.ledger == h.ledger
    requires forall w: nat, t: nat :: Acked(h', w, t) == Acked(h, w, t) || (w == v && t == s.servers[v].term)
    ensures Nodes(s') && PastOk(s', h') && TalliesOk(s') && CommitsOk(s', h') && CallsOk(s', h') && CallsDistinct(s')
    ensures Advances(s, h, s', h')
  {
    hide Durable, Extends, Acked, CallsOk, CallsDistinct, TalliesOk, PastOk, Advances;
    LeadTallies(s, v, s');
    LeadPast(s, h, v, s', h');
    CallsStayOk(s, h, s', h');
    CommitsStay(s, h, s', h');
  }

  lemma LeadHistory(s: State, h: History, v: nat) returns (h': History)
    requires Nodes(s) && HistoryOk(h) && ServersOk(s, h) && PastOk(s, h) && CallsOk(s, h)
    requires v < SERVER_COUNT && s.servers[v].role.Candidate?
    requires IsMajority(Voters(s.calls, v, s.servers[v].term))
    ensures s.servers[v].term !in h.leader && HistoryOk(h') && Extends(h, h')
    ensures h'.leader == h.leader[s.servers[v].term := v] && h'.ledger == h.ledger
    ensures h'.leaderLog == h.leaderLog[s.servers[v].term := s.servers[v].log]
    ensures forall w: nat, t: nat ::
      Acked(h', w, t) == if w == v && t == s.servers[v].term then |s.servers[v].log| else Acked(h, w, t)
    ensures forall t: nat, k: nat :: OwnEntry(h', t, k) ==> OwnEntry(h, t, k) && t != s.servers[v].term
  {
    var voters := Voters(s.calls, v, s.servers[v].term);
    VotersVoted(s, h, v);
    RecordsBallots(s, h);
    FirstOfTerm(s, h, v);
    assert ServerOk(s.servers[v], h);
    h' := Elected(h, s.servers[v], voters);
    ElectedExtends(h, s.servers[v], voters, h');
    ElectedHistoryOk(h, s.servers[v], voters, h');
    NoOwnEntries(h, s.servers[v], h');
  }

  lemma LeadKeeps(s: State, h: History, v: nat, s': State) returns (h': History)
    requires Inv(s, h) && v < SERVER_COUNT && s.servers[v].role.Candidate? && s.servers[v].votes > SERVER_COUNT / 2
    requires s' == s.(servers := s.servers[v := BecomeLeader(s.servers[v])])
    ensures Inv(s', h') && Extends(h, h')
  {
    ServersBallots(s, h);
    CountedMajority(s, h, v);
    h' := LeadHistory(s, h, v);
    LeadFrame(s, h, v, s', h');
    ElectedServersOk(s, h, v, s', h');
    ElectedLeadersKeep(s, h, v, s', h');
    ElectedOthersKeep(s, h, v, s', h');
  }
}
