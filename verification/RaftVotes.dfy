/** Elections alone: an invariant about votes and terms that every step keeps, also a push that comes
    too late, because no vote depends on how an entry got into a log. */
module RaftVotes {
  import opened RaftServer
  import opened RaftProtocol
  import opened RaftInvariant
  import opened RaftBallots
  import opened RaftPreservation
  import opened RaftElection

  // ----- the records

  /** Leaders on record stay on record. */
  ghost predicate Recalls(h: History, h': History) {
    forall t :: t in h.leader ==> t in h'.leader && h'.leader[t] == h.leader[t]
  }

  // ----- steps that touch no vote

  ghost predicate SameBallot(w: Server, w': Server) {
    && w'.id == w.id && w'.term == w.term && w'.votedFor == w.votedFor
    && (w'.role == w.role || (w.role.Candidate? && w'.role.Follower?))
    && (w'.role.Candidate? ==> w'.votes == w.votes)
  }

  /** Only append calls are added or get another status. */
  ghost predicate QuietCalls(a: seq<Call>, b: seq<Call>) {
    && |a| <= |b|
    && (forall i :: 0 <= i < |a| ==>
          || b[i] == a[i]
          || (a[i].req.AppendEntries? && b[i].req == a[i].req && b[i].from == a[i].from && b[i].to == a[i].to))
    && (forall i :: |a| <= i < |b| ==> b[i].req.AppendEntries?)
  }

  lemma QuietVoters(a: seq<Call>, b: seq<Call>, w: nat, t: nat)
    requires QuietCalls(a, b)
    ensures Voters(b, w, t) == Voters(a, w, t)
  {
    forall x | x in Voters(a, w, t) && x != w ensures x in Voters(b, w, t) {
      var i :| 0 <= i < |a| && Counted(a[i], w, t) && a[i].to == x;
      assert Counted(b[i], w, t);
    }
    forall x | x in Voters(b, w, t) && x != w ensures x in Voters(a, w, t) {
      var i :| 0 <= i < |b| && Counted(b[i], w, t) && b[i].to == x;
      assert i < |a| && Counted(a[i], w, t);
    }
  }

  lemma QuietTallies(s: State, s': State)
    requires Nodes(s) && Nodes(s') && TalliesOk(s) && QuietCalls(s.calls, s'.calls)
    requires forall v :: 0 <= v < SERVER_COUNT ==> SameBallot(s.servers[v], s'.servers[v])
    ensures TalliesOk(s')
  {
    forall v | 0 <= v < SERVER_COUNT && s'.servers[v].role.Candidate?
      ensures s'.servers[v].votes == |Voters(s'.calls, v, s'.servers[v].term)|
    {
      assert SameBallot(s.servers[v], s'.servers[v]);
      QuietVoters(s.calls, s'.calls, v, s.servers[v].term);
    }
  }

  lemma QuietQuestions(s: State, h: History, s': State)
    requires Nodes(s) && Nodes(s') && QuestionsOk(s, h) && CallsDistinct(s) && QuietCalls(s.calls, s'.calls)
    requires forall v :: 0 <= v < SERVER_COUNT ==> SameBallot(s.servers[v], s'.servers[v])
    ensures QuestionsOk(s', h) && CallsDistinct(s')
  {
    forall i | 0 <= i < |s'.calls| ensures QuestionOk(s', h, s'.calls[i]) {
      if i < |s.calls| {
        assert QuestionOk(s, h, s.calls[i]) && SameBallot(s.servers[s.calls[i].from], s'.servers[s.calls[i].from]);
      }
    }
    forall i, j | 0 <= i < j < |s'.calls| ensures !SameQuestion(s'.calls[i], s'.calls[j]) {
      assert j < |s.calls| ==> !SameQuestion(s.calls[i], s.calls[j]);
    }
  }

  lemma QuietVotes(s: State, h: History, s': State)
    requires VotesInv(s, h) && Nodes(s') && QuietCalls(s.calls, s'.calls)
    requires forall v :: 0 <= v < SERVER_COUNT ==> SameBallot(s.servers[v], s'.servers[v])
    ensures VotesInv(s', h)
  {
    QuietTallies(s, s');
    QuietQuestions(s, h, s');
    hide TalliesOk, QuestionsOk, CallsDistinct, BallotsOk, QuietCalls;
    forall v | 0 <= v < SERVER_COUNT ensures BallotOk(s'.servers[v], h) {
      assert BallotOk(s.servers[v], h) && SameBallot(s.servers[v], s'.servers[v]);
    }
    forall t | t in h.leader ensures LeadsOrLeft(s'.servers[h.leader[t]], t) {
      assert SameBallot(s.servers[h.leader[t]], s'.servers[h.leader[t]]);
    }
    forall v, t | (v, t) in h.ledger ensures v < SERVER_COUNT && t <= s'.servers[v].term {
      assert SameBallot(s.servers[v], s'.servers[v]);
    }
  }

  // ----- a server enters a term

  /** One server moves to a higher term, as a follower without a vote or as its own candidate. */
  lemma EntersTerm(s: State, h: History, v: nat, s': State, h': History)
    requires Nodes(s) && Nodes(s') && BallotsOk(h) && ServersVote(s, h) && PastVotes(s, h) && v < SERVER_COUNT
    requires s'.servers == s.servers[v := s'.servers[v]] && s'.servers[v].id == v
    requires s'.servers[v].term > s.servers[v].term
    requires !s'.servers[v].role.Leader? && BallotOk(s'.servers[v], h')
    requires h'.leader == h.leader && h'.electors == h.electors
    requires h'.ledger == h.ledger || h'.ledger == h.ledger[(v, s'.servers[v].term) := v]
    ensures BallotsOk(h') && ServersVote(s', h') && PastVotes(s', h')
  {
    hide IsMajority;
    assert (v, s'.servers[v].term) !in h.ledger;
    forall w | 0 <= w < SERVER_COUNT ensures BallotOk(s'.servers[w], h') {
      assert BallotOk(s.servers[w], h);
    }
    forall t, w | t in h'.electors && w in h'.electors[t] ensures Voted(h', w, t, h'.leader[t]) {
      assert Voted(h, w, t, h.leader[t]);
    }
  }

  lemma ObserveVotes(s: State, h: History, v: nat, t: nat, s': State)
    requires VotesInv(s, h) && v < SERVER_COUNT && t > s.servers[v].term
    requires s' == s.(servers := s.servers[v := ConvertToFollower(s.servers[v], t)])
    ensures VotesInv(s', h)
  {
    assert BallotOk(s'.servers[v], h);
    EntersTerm(s, h, v, s', h);
    assert QuestionsOk(s', h) by {
      forall i | 0 <= i < |s'.calls| ensures QuestionOk(s', h, s'.calls[i]) {
        assert QuestionOk(s, h, s.calls[i]);
      }
    }
  }

  lemma ElectionVotes(s: State, h: History, v: nat, newCalls: seq<Call>, s': State) returns (h': History)
    requires VotesInv(s, h) && v < SERVER_COUNT
    requires s' == s.(servers := s.servers[v := StartElection(s.servers[v])], calls := s.calls + newCalls)
    requires AskForVotes(StartElection(s.servers[v]), newCalls)
    ensures VotesInv(s', h') && h'.leader == h.leader
  {
    h' := h.(ledger := h.ledger[(v, s.servers[v].term + 1) := v]);
    assert Nodes(s');
    assert BallotOk(s'.servers[v], h');
    EntersTerm(s, h, v, s', h');
    assert forall i :: 0 <= i < |s.calls| ==> QuestionOk(s, h, s.calls[i]);
    ElectionTallies(s, v, s', newCalls);
    ElectionQuestions(s, h, v, newCalls, s', h');
  }

  lemma ElectionQuestions(s: State, h: History, v: nat, newCalls: seq<Call>, s': State, h': History)
    requires Nodes(s) && Nodes(s') && QuestionsOk(s, h) && CallsDistinct(s) && PastVotes(s, h) && v < SERVER_COUNT
    requires s' == s.(servers := s.servers[v := StartElection(s.servers[v])], calls := s.calls + newCalls)
    requires AskForVotes(StartElection(s.servers[v]), newCalls)
    requires h' == h.(ledger := h.ledger[(v, s.servers[v].term + 1) := v])
    ensures QuestionsOk(s', h') && CallsDistinct(s')
  {
    forall i | 0 <= i < |s'.calls| ensures QuestionOk(s', h', s'.calls[i]) {
      if i < |s.calls| {
        assert QuestionOk(s, h, s.calls[i]);
      }
    }
    forall i, j | 0 <= i < j < |s'.calls| ensures !SameQuestion(s'.calls[i], s'.calls[j]) {
      if j < |s.calls| {
        assert !SameQuestion(s.calls[i], s.calls[j]);
      } else if i < |s.calls| {
        assert QuestionOk(s, h, s.calls[i]);
      }
    }
  }

  // ----- a vote request is answered, and the answer handled

  lemma QuestionAt(s: State, h: History, i: nat)
    requires Nodes(s) && QuestionsOk(s, h) && i < |s.calls|
    ensures QuestionOk(s, h, s.calls[i])
  {
  }

  lemma StatusQuestions(s: State, h: History, i: nat, c': Call, s': State, h': History)
    requires Nodes(s) && Nodes(s') && QuestionsOk(s, h) && CallsDistinct(s) && i < |s.calls|
    requires s'.calls == s.calls[i := c'] && c'.req == s.calls[i].req && c'.from == s.calls[i].from
    requires c'.to == s.calls[i].to
    requires forall v :: 0 <= v < SERVER_COUNT ==> s'.servers[v].term == s.servers[v].term
    requires forall v, t, w :: Voted(h, v, t, w) ==> Voted(h', v, t, w)
    requires QuestionOk(s', h', c')
    ensures QuestionsOk(s', h') && CallsDistinct(s')
  {
    forall j | 0 <= j < |s'.calls| ensures QuestionOk(s', h', s'.calls[j]) {
      assert j != i ==> QuestionOk(s, h, s.calls[j]);
    }
    forall a, b | 0 <= a < b < |s'.calls| ensures !SameQuestion(s'.calls[a], s'.calls[b]) {
      assert !SameQuestion(s.calls[a], s.calls[b]);
    }
  }

  lemma StatusVotes(s: State, h: History, i: nat, status: Status, s': State)
    requires VotesInv(s, h) && OnlyStatus(s, i, status)
    requires s' == s.(calls := s.calls[i := s.calls[i].(status := status)])
    ensures VotesInv(s', h)
  {
    StatusTallies(s, i, status, s');
    hide TalliesOk, BallotsOk;
    assert QuestionOk(s, h, s.calls[i]);
    StatusQuestions(s, h, i, s'.calls[i], s', h);
  }

  lemma GrantVotes(s: State, h: History, i: nat, s': State) returns (h': History)
    requires VotesInv(s, h) && i < |s.calls|
    requires var c := s.calls[i]; var voter := s.servers[c.to];
      && c.req.RequestVote? && c.status.InFlight? && c.req.term == voter.term
      && (voter.votedFor == NOBODY || voter.votedFor == c.from)
      && s' == s.(servers := s.servers[c.to := voter.(votedFor := c.from)],
                  calls := s.calls[i := c.(status := Replied(Reply(voter.term, true)))])
    ensures VotesInv(s', h') && h'.leader == h.leader
  {
    var c := s.calls[i];
    var voter := s.servers[c.to];
    h' := h.(ledger := h.ledger[(c.to, voter.term) := c.from]);
    assert Nodes(s') && BallotOk(voter, h);
    GrantTallies(s, i, s');
    GrantBallots(s, h, c.to, c.from, s', h');
    assert QuestionOk(s, h, c);
    hide TalliesOk, BallotsOk, PastVotes, ServersVote;
    StatusQuestions(s, h, i, s'.calls[i], s', h');
  }

  lemma GrantTallies(s: State, i: nat, s': State)
    requires Nodes(s) && Nodes(s') && TalliesOk(s) && i < |s.calls| && s.calls[i].status.InFlight?
    requires var c := s.calls[i];
      s' == s.(servers := s.servers[c.to := s.servers[c.to].(votedFor := c.from)],
               calls := s.calls[i := c.(status := Replied(Reply(s.servers[c.to].term, true)))])
    ensures TalliesOk(s')
  {
    forall w | 0 <= w < SERVER_COUNT && s'.servers[w].role.Candidate?
      ensures s'.servers[w].votes == |Voters(s'.calls, w, s'.servers[w].term)|
    {
      VotersUnchanged(s.calls, i, s'.calls[i], w, s.servers[w].term);
    }
  }

  /** A vote not given yet in the voter's term, or given to the same candidate, enters the ledger. */
  lemma GrantBallots(s: State, h: History, v: nat, candidate: nat, s': State, h': History)
    requires Nodes(s) && Nodes(s') && BallotsOk(h) && ServersVote(s, h) && PastVotes(s, h)
    requires v < SERVER_COUNT && candidate != v
    requires s.servers[v].votedFor == NOBODY || s.servers[v].votedFor == candidate
    requires s'.servers == s.servers[v := s.servers[v].(votedFor := candidate)]
    requires h' == h.(ledger := h.ledger[(v, s.servers[v].term) := candidate])
    ensures BallotsOk(h') && ServersVote(s', h') && PastVotes(s', h')
    ensures forall w, t, c :: Voted(h, w, t, c) ==> Voted(h', w, t, c)
  {
    hide IsMajority;
    assert BallotOk(s.servers[v], h);
    forall w | 0 <= w < SERVER_COUNT ensures BallotOk(s'.servers[w], h') {
      assert BallotOk(s.servers[w], h);
    }
    forall t, w | t in h'.electors && w in h'.electors[t] ensures Voted(h', w, t, h'.leader[t]) {
      assert Voted(h, w, t, h.leader[t]);
    }
  }

  lemma CountTallies(s: State, i: nat, s': State)
    requires Nodes(s) && Nodes(s') && TalliesOk(s) && CallsDistinct(s) && i < |s.calls|
    requires var c := s.calls[i];
      && Granted(c) && c.status.Replied? && StillCandidate(s, c)
      && s' == s.(servers := s.servers[c.from := CountVote(s.servers[c.from])],
                  calls := s.calls[i := c.(status := Handled(c.status.reply))])
    ensures TalliesOk(s')
  {
    var c := s.calls[i];
    forall w | 0 <= w < SERVER_COUNT && s'.servers[w].role.Candidate?
      ensures s'.servers[w].votes == |Voters(s'.calls, w, s'.servers[w].term)|
    {
      if w == c.from {
        VotersGrow(s, i, s'.calls[i]);
      } else {
        VotersUnchanged(s.calls, i, s'.calls[i], w, s.servers[w].term);
      }
    }
  }

  lemma CountVotes(s: State, h: History, i: nat, s': State)
    requires VotesInv(s, h) && i < |s.calls|
    requires var c := s.calls[i];
      && Granted(c) && c.status.Replied? && StillCandidate(s, c)
      && s' == s.(servers := s.servers[c.from := CountVote(s.servers[c.from])],
                  calls := s.calls[i := c.(status := Handled(c.status.reply))])
    ensures VotesInv(s', h)
  {
    hide TalliesOk, BallotsOk, ServersVote, PastVotes, QuestionsOk, CallsDistinct, Voted;
    assert Nodes(s');
    CountTallies(s, i, s');
    CountBallots(s, h, s.calls[i].from, s');
    QuestionAt(s, h, i);
    StatusQuestions(s, h, i, s'.calls[i], s', h);
  }

  lemma CountBallots(s: State, h: History, v: nat, s': State)
    requires Nodes(s) && Nodes(s') && ServersVote(s, h) && PastVotes(s, h) && v < SERVER_COUNT
    requires s'.servers == s.servers[v := CountVote(s.servers[v])]
    ensures ServersVote(s', h) && PastVotes(s', h)
  {
    forall w | 0 <= w < SERVER_COUNT ensures BallotOk(s'.servers[w], h) {
      assert BallotOk(s.servers[w], h);
    }
  }

  // ----- taking the lead

  lemma LeadVotes(s: State, h: History, v: nat, s': State) returns (h': History)
    requires VotesInv(s, h) && v < SERVER_COUNT && s.servers[v].role.Candidate? && s.servers[v].votes > SERVER_COUNT / 2
    requires s' == s.(servers := s.servers[v := BecomeLeader(s.servers[v])])
    ensures VotesInv(s', h') && Recalls(h, h')
  {
    hide TalliesOk, Voters, IsMajority, BallotsOk, ServersVote, PastVotes, QuestionsOk;
    var t, voters := s.servers[v].term, Voters(s.calls, v, s.servers[v].term);
    CountedMajority(s, h, v);
    CountedVoted(s, h, v);
    FirstOfTerm(s, h, v);
    LeadTallies(s, v, s');
    h' := h.(leader := h.leader[t := v], electors := h.electors[t := voters]);
    LeadQuestions(s, h, s', h');
    LeadBallots(s, h, v, voters, s', h');
  }

  lemma LeadBallots(s: State, h: History, v: nat, voters: set<nat>, s': State, h': History)
    requires Nodes(s) && Nodes(s') && BallotsOk(h) && ServersVote(s, h) && PastVotes(s, h) && v < SERVER_COUNT
    requires s.servers[v].role.Candidate? && s.servers[v].term !in h.leader
    requires IsMajority(voters) && forall w :: w in voters ==> Voted(h, w, s.servers[v].term, v)
    requires s'.servers == s.servers[v := BecomeLeader(s.servers[v])]
    requires h' == h.(leader := h.leader[s.servers[v].term := v], electors := h.electors[s.servers[v].term := voters])
    ensures BallotsOk(h') && ServersVote(s', h') && PastVotes(s', h')
  {
    hide IsMajority;
    forall w | 0 <= w < SERVER_COUNT ensures BallotOk(s'.servers[w], h') {
      assert BallotOk(s.servers[w], h);
    }
    forall u, w | u in h'.electors && w in h'.electors[u] ensures Voted(h', w, u, h'.leader[u]) {
      assert u != s.servers[v].term ==> Voted(h, w, u, h.leader[u]);
    }
  }

  lemma LeadQuestions(s: State, h: History, s': State, h': History)
    requires Nodes(s) && Nodes(s') && QuestionsOk(s, h) && s'.calls == s.calls && h'.ledger == h.ledger
    requires forall v :: 0 <= v < SERVER_COUNT ==> s'.servers[v].term == s.servers[v].term
    ensures QuestionsOk(s', h')
  {
    forall i | 0 <= i < |s'.calls| ensures QuestionOk(s', h', s'.calls[i]) {
      assert QuestionOk(s, h, s.calls[i]);
    }
  }

  // ----- every step of every run

  /** The callee has observed the caller's term. */
  lemma ObservedVotes(s: State, h: History, v: nat, t: nat, o: State)
    requires VotesInv(s, h) && v < SERVER_COUNT && o == s.(servers := s.servers[v := ObserveTerm(s.servers[v], t)])
    ensures VotesInv(o, h)
  {
    hide BallotsOk, ServersVote, PastVotes, QuestionsOk, TalliesOk, CallsDistinct;
    if t > s.servers[v].term {
      ObserveVotes(s, h, v, t, o);
    } else {
      assert o == s;
    }
  }

  lemma DeliverVotes(s: State, h: History, i: nat) returns (h': History)
    requires VotesInv(s, h) && Enabled(s, Deliver(i))
    ensures VotesInv(Perform(s, Deliver(i)), h') && h'.leader == h.leader
  {
    hide BallotsOk, ServersVote, PastVotes, QuestionsOk, TalliesOk, CallsDistinct;
    var c := s.calls[i];
    var o := s.(servers := s.servers[c.to := ObserveTerm(s.servers[c.to], c.req.term)]);
    ObservedVotes(s, h, c.to, c.req.term, o);
    var s' := Perform(s, Deliver(i));
    h' := h;
    if c.req.AppendEntries? {
      AnswerIsQuiet(o.servers[c.to], s'.servers[c.to], c);
      assert s'.servers == o.servers[c.to := s'.servers[c.to]];
      QuietVotes(o, h, s');
    } else if GrantsVote(o.servers[c.to], c.from, c.req.term, c.req.lastLogIndex, c.req.lastLogTerm) {
      assert s'.servers == o.servers[c.to := o.servers[c.to].(votedFor := c.from)];
      h' := GrantVotes(o, h, i, s');
    } else {
      assert s'.servers == o.servers;
      StatusVotes(o, h, i, s'.calls[i].status, s');
    }
  }

  lemma AnswerIsQuiet(o: Server, w: Server, c: Call)
    requires c.req.AppendEntries? && o.term >= c.req.term
    requires w == HandleAppendEntries(o, c.req.term, c.req.prevLogIndex, c.req.prevLogTerm, c.req.entries,
      c.req.leaderCommit).0
    ensures SameBallot(o, w)
  {
  }

  lemma ReturnVotes(s: State, h: History, i: nat) returns (h': History)
    requires VotesInv(s, h) && Enabled(s, Return(i)) && s.calls[i].req.RequestVote?
    ensures VotesInv(Perform(s, Return(i)), h') && Recalls(h, h')
  {
    hide BallotsOk, ServersVote, PastVotes, QuestionsOk, TalliesOk, CallsDistinct, BecomeLeader;
    var c := s.calls[i];
    var r := c.status.reply;
    var caller := s.servers[c.from];
    var s' := Perform(s, Return(i));
    QuestionAt(s, h, i);
    h' := h;
    if r.term <= caller.term && CountsVote(caller, r.ok, r.term) {
      var m := s.(servers := s.servers[c.from := CountVote(caller)], calls := s'.calls);
      CountVotes(s, h, i, m);
      if CountVote(caller).votes >= SERVER_COUNT / 2 + 1 {
        var led := m.(servers := m.servers[c.from := BecomeLeader(m.servers[c.from])]);
        h' := LeadVotes(m, h, c.from, led);
        assert s'.servers == led.servers;
        QuietVotes(led, h', s');
      }
    } else {
      var m := s.(calls := s'.calls);
      StatusVotes(s, h, i, s'.calls[i].status, m);
      if r.term > caller.term {
        ObserveVotes(m, h, c.from, r.term, s');
      } else {
        assert s' == m;
      }
    }
  }

  lemma ReturnAppendVotes(s: State, h: History, i: nat)
    requires VotesInv(s, h) && Enabled(s, Return(i)) && s.calls[i].req.AppendEntries?
    ensures VotesInv(Perform(s, Return(i)), h)
  {
    hide BallotsOk, ServersVote, PastVotes, QuestionsOk, TalliesOk, CallsDistinct, CommitScan;
    var c := s.calls[i];
    var s' := Perform(s, Return(i));
    if c.status.reply.term > s.servers[c.from].term {
      var m := s.(calls := s'.calls);
      QuietVotes(s, h, m);
      ObserveVotes(m, h, c.from, c.status.reply.term, s');
    } else {
      QuietVotes(s, h, s');
    }
  }

  /** Settling, testing a role, pushing and applying change no call and no vote. */
  lemma LogVotes(s: State, h: History, step: Step)
    requires VotesInv(s, h) && Enabled(s, step) && (step.Settle? || step.TestRole? || step.Push? || step.Apply?)
    ensures VotesInv(Perform(s, step), h)
  {
    hide BallotsOk, ServersVote, PastVotes, QuestionsOk, TalliesOk, CallsDistinct, VoteCalls, AppendFor, Serve, Resume;
    QuietVotes(s, h, Perform(s, step));
  }

  lemma StepVotes(s: State, h: History, step: Step) returns (h': History)
    requires VotesInv(s, h) && Enabled(s, step)
    ensures VotesInv(Perform(s, step), h') && Recalls(h, h')
  {
    hide BallotsOk, ServersVote, PastVotes, QuestionsOk, TalliesOk, CallsDistinct, AppendFor, Serve, Resume;
    var s' := Perform(s, step);
    h' := h;
    match step
    case ElectionTimeout(v) =>
      VoteCallsAsk(StartElection(s.servers[v]), SERVER_COUNT);
      h' := ElectionVotes(s, h, v, VoteCalls(StartElection(s.servers[v]), SERVER_COUNT), s');
    case Deliver(i) =>
      h' := DeliverVotes(s, h, i);
    case Return(i) =>
      if s.calls[i].req.RequestVote? {
        h' := ReturnVotes(s, h, i);
      } else {
        ReturnAppendVotes(s, h, i);
      }
    case Heartbeat(_, _) =>
      QuietVotes(s, h, s');
    case _ =>
      LogVotes(s, h, step);
  }

  lemma InitVotes(s: State) returns (h: History)
    requires Init(s)
    ensures VotesInv(s, h)
  {
    h := History(map[], map[], map[], map[], map[]);
    assert forall v :: 0 <= v < SERVER_COUNT ==> BallotOk(s.servers[v], h);
  }

  lemma {:induction false} RunVotes(run: seq<State>, i: nat, j: nat) returns (h: History, h': History)
    requires IsRun(run) && i <= j < |run|
    ensures VotesInv(run[i], h) && VotesInv(run[j], h') && Recalls(h, h')
    decreases j
  {
    hide VotesInv, Init, Perform, Nodes;
    if j == 0 {
      h := InitVotes(run[0]);
      h' := h;
    } else {
      assert Next(run[j - 1], run[j]);
      var step :| Enabled(run[j - 1], step) && Perform(run[j - 1], step) == run[j];
      var before: History;
      h, before := RunVotes(run, if i == j then j - 1 else i, j - 1);
      h' := StepVotes(run[j - 1], before, step);
      if i == j {
        h := h';
      }
    }
  }

  /** Election safety: at most one server ever leads a term, over every run, late pushes included. */
  lemma ElectionSafety(run: seq<State>, i: nat, j: nat, v: nat, w: nat)
    requires IsRun(run) && i <= j < |run| && v < SERVER_COUNT && w < SERVER_COUNT
    requires run[i].servers[v].role.Leader? && run[j].servers[w].role.Leader?
    requires run[i].servers[v].term == run[j].servers[w].term
    ensures v == w
  {
    var h, h' := RunVotes(run, i, j);
    assert BallotOk(run[i].servers[v], h) && BallotOk(run[j].servers[w], h');
  }
}
