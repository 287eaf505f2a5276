/** Appending at the leader, accepting at a follower, and committing keep the invariant. */
module RaftReplication {
  import opened RaftServer
  import opened RaftProtocol
  import opened RaftInvariant
  import opened RaftPreservation

  // ----- a leader appends a command

  ghost function Appended(h: History, leader: Server, e: Entry): History
    requires leader.term in h.leaderLog
  {
    h.(leaderLog := h.leaderLog[leader.term := leader.log + [e]],
       acked := h.acked[(leader.id, leader.term) := |leader.log| + 1])
  }

  lemma AppendedExtends(h: History, leader: Server, e: Entry, h': History)
    requires leader.term in h.leaderLog && h.leaderLog[leader.term] == leader.log
    requires Acked(h, leader.id, leader.term) == |leader.log|
    requires h' == Appended(h, leader, e)
    ensures Extends(h, h')
    ensures forall w: nat, t: nat :: w != leader.id || t != leader.term ==> Acked(h', w, t) == Acked(h, w, t)
    ensures Acked(h', leader.id, leader.term) == |leader.log| + 1
  {
  }

  lemma AppendedHistoryOk(h: History, leader: Server, e: Entry, h': History)
    requires HistoryOk(h) && leader.term in h.leaderLog && h.leaderLog[leader.term] == leader.log
    requires e.term == leader.term
    requires Acked(h, leader.id, leader.term) == |leader.log|
    requires h' == Appended(h, leader, e)
    ensures HistoryOk(h')
  {
    AppendedExtends(h, leader, e, h');
    forall t | t in h'.leaderLog ensures LogOk(h', h'.leaderLog[t], t) {
      LogStaysOk(h, h', h.leaderLog[t], t);
      if t == leader.term {
        GrownLogOk(h', leader.log, e, t);
      }
    }
  }

  lemma GrownLogOk(h: History, log: seq<Entry>, e: Entry, t: nat)
    requires LogOk(h, log, t) && e.term == t && t in h.leaderLog && h.leaderLog[t] == log + [e]
    ensures LogOk(h, log + [e], t)
  {
    forall k | 0 <= k <= |log| ensures (log + [e])[k].term <= t && Traced(h, log + [e], k) {
      if k < |log| {
        assert Traced(h, log, k);
      }
    }
  }

  lemma GrownLeaderOk(leader: Server, h: History, e: Entry, h': History)
    requires WellFormed(leader) && ServerOk(leader, h) && leader.role.Leader? && e.term == leader.term
    requires leader.term in h.leaderLog && h' == Appended(h, leader, e)
    requires LogOk(h', leader.log + [e], leader.term)
    ensures ServerOk(leader.(log := leader.log + [e]), h')
  {
    hide LogOk;
  }

  lemma OtherServerOk(w: Server, h: History, leader: Server, e: Entry, h': History)
    requires WellFormed(w) && ServerOk(w, h) && w.id != leader.id && Extends(h, h')
    requires leader.term in h.leaderLog && h.leaderLog[leader.term] == leader.log && h' == Appended(h, leader, e)
    requires w.role.Leader? ==> w.term != leader.term
    ensures ServerOk(w, h')
  {
    LogStaysOk(h, h', w.log, w.term);
    hide LogOk, Extends;
  }

  lemma AppendServersOk(s: State, h: History, v: nat, e: Entry, s': State, h': History)
    requires Nodes(s) && Nodes(s') && ServersOk(s, h) && v < SERVER_COUNT && s.servers[v].role.Leader?
    requires s.servers[v].term in h.leaderLog && e.term == s.servers[v].term
    requires s' == s.(servers := s.servers[v := s.servers[v].(log := s.servers[v].log + [e])])
    requires h' == Appended(h, s.servers[v], e) && Extends(h, h') && HistoryOk(h')
    ensures ServersOk(s', h')
  {
    assert ServerOk(s.servers[v], h);
    assert LogOk(h', h'.leaderLog[s.servers[v].term], s.servers[v].term);
    hide HistoryOk, LogOk, Extends, VoteOk, AckOk, ExecutedOk;
    forall w | 0 <= w < SERVER_COUNT ensures ServerOk(s'.servers[w], h') {
      assert ServerOk(s.servers[w], h);
      if w == v {
        GrownLeaderOk(s.servers[v], h, e, h');
      } else {
        OtherServerOk(s.servers[w], h, s.servers[v], e, h');
      }
    }
  }

  /** An entry appended after a later leader was elected can never be committed. */
  lemma LateEntryIsBlocked(s: State, h: History, v: nat, h': History, t': nat)
    requires Nodes(s) && HistoryOk(h) && PastOk(s, h) && v < SERVER_COUNT
    requires t' in h.leaderLog && s.servers[v].term < t'
    requires s.servers[v].term in h.leaderLog && h.leaderLog[s.servers[v].term] == s.servers[v].log
    requires forall w: nat, t: nat :: w != v || t != s.servers[v].term ==> Acked(h', w, t) == Acked(h, w, t)
    ensures Blocked(s, h', s.servers[v].term, |s.servers[v].log| + 1)
  {
    var t := s.servers[v].term;
    forall w | w in h.electors[t'] ensures s.servers[w].term > t && Acked(h', w, t) < |s.servers[v].log| + 1 {
      assert Voted(h, w, t', h.leader[t']);
    }
    assert Blocks(s, h', h.electors[t'], t, |s.servers[v].log| + 1);
  }

  lemma BlockedByTerms(s: State, s': State, h: History, t: nat, k: nat)
    requires Nodes(s) && Nodes(s') && Blocked(s, h, t, k)
    requires forall w :: 0 <= w < SERVER_COUNT ==> s.servers[w].term <= s'.servers[w].term
    ensures Blocked(s', h, t, k)
  {
    var q :| IsMajority(q) && Blocks(s, h, q, t, k);
    assert Blocks(s', h, q, t, k);
  }

  lemma AppendLeadersKeep(s: State, h: History, v: nat, e: Entry, s': State, h': History)
    requires Nodes(s) && Nodes(s') && HistoryOk(h) && PastOk(s, h) && LeadersKeep(s, h) && v < SERVER_COUNT
    requires s.servers[v].term in h.leaderLog && h.leaderLog[s.servers[v].term] == s.servers[v].log
    requires s' == s.(servers := s.servers[v := s.servers[v].(log := s.servers[v].log + [e])]) && Advances(s, h, s', h')
    requires h' == Appended(h, s.servers[v], e) && e.term == s.servers[v].term
    requires forall w: nat, t: nat :: w != v || t != s.servers[v].term ==> Acked(h', w, t) == Acked(h, w, t)
    ensures LeadersKeep(s', h')
  {
    hide Blocked, PastOk, HistoryOk, Advances, Acked;
    forall t: nat, t': nat, k: nat | OwnEntry(h', t, k) && t' in h'.leaderLog && t < t'
      ensures Safe(s', h', t, k, h'.leaderLog[t'])
    {
      if t == s.servers[v].term && k == |s.servers[v].log| + 1 {
        LateEntryIsBlocked(s, h, v, h', t');
        BlockedByTerms(s, s', h', t, k);
      } else {
        assert OwnEntry(h, t, k);
        SafeStays(s, h, s', h', t, k, h.leaderLog[t'], h'.leaderLog[t']);
      }
    }
  }

  lemma AppendServersKeep(s: State, h: History, v: nat, e: Entry, s': State, h': History)
    requires Nodes(s) && Nodes(s') && HistoryOk(h) && ServersKeep(s, h) && v < SERVER_COUNT
    requires s.servers[v].term in h.leaderLog && h.leaderLog[s.servers[v].term] == s.servers[v].log
    requires s' == s.(servers := s.servers[v := s.servers[v].(log := s.servers[v].log + [e])]) && Advances(s, h, s', h')
    requires h' == Appended(h, s.servers[v], e)
    requires forall w: nat, t: nat :: w != v || t != s.servers[v].term ==> Acked(h', w, t) == Acked(h, w, t)
    requires Acked(h', v, s.servers[v].term) == |s.servers[v].log| + 1
    ensures ServersKeep(s', h')
  {
    forall w: nat, t: nat, k: nat | 0 <= w < SERVER_COUNT && OwnEntry(h', t, k) && k <= Acked(h', w, t)
      ensures Safe(s', h', t, k, s'.servers[w].log)
    {
      if w == v && t == s.servers[v].term {
        assert SamePrefix(h'.leaderLog[t], s'.servers[w].log, k);
      } else {
        assert OwnEntry(h, t, k);
        ServerStillKeeps(s, h, s', h', w, t, k);
      }
    }
  }

  lemma AppendCandidatesKeep(s: State, h: History, v: nat, e: Entry, s': State, h': History)
    requires Nodes(s) && Nodes(s') && HistoryOk(h) && PastOk(s, h) && CallsOk(s, h) && CandidatesKeep(s, h)
    requires v < SERVER_COUNT && s.servers[v].role.Leader?
    requires s.servers[v].term in h.leaderLog && h.leaderLog[s.servers[v].term] == s.servers[v].log
    requires s' == s.(servers := s.servers[v := s.servers[v].(log := s.servers[v].log + [e])]) && Advances(s, h, s', h')
    requires h' == Appended(h, s.servers[v], e)
    requires forall w: nat, t: nat :: w != v || t != s.servers[v].term ==> Acked(h', w, t) == Acked(h, w, t)
    ensures CandidatesKeep(s', h')
  {
    AppendedOwnEntries(h, s.servers[v], e, h');
    AppendSameVotes(s, v, e, s');
    EndorsementsStay(s, h, s', h', v);
  }

  lemma AppendSameVotes(s: State, v: nat, e: Entry, s': State)
    requires Nodes(s) && Nodes(s') && v < SERVER_COUNT && s.servers[v].role.Leader?
    requires s' == s.(servers := s.servers[v := s.servers[v].(log := s.servers[v].log + [e])])
    ensures forall i :: 0 <= i < |s'.calls| ==> SameVote(s, s', i)
  {
  }

  lemma AppendedOwnEntries(h: History, leader: Server, e: Entry, h': History)
    requires HistoryOk(h) && leader.term in h.leaderLog && h.leaderLog[leader.term] == leader.log
    requires h' == Appended(h, leader, e)
    ensures forall t: nat, k: nat, w: nat :: OwnEntry(h', t, k) && w != leader.id && k <= Acked(h, w, t) ==>
      OwnEntry(h, t, k)
    ensures forall t: nat, k: nat :: OwnEntry(h', t, k) && t != leader.term ==> OwnEntry(h, t, k)
  {
  }

  lemma AppendPast(s: State, h: History, v: nat, e: Entry, s': State, h': History)
    requires Nodes(s) && Nodes(s') && PastOk(s, h) && v < SERVER_COUNT
    requires s' == s.(servers := s.servers[v := s.servers[v].(log := s.servers[v].log + [e])])
    requires h'.leader == h.leader && h'.ledger == h.ledger
    requires forall w: nat, t: nat :: w != v || t != s.servers[v].term ==> Acked(h', w, t) == Acked(h, w, t)
    requires Extends(h, h')
    ensures PastOk(s', h') && Advances(s, h, s', h')
  {
  }

  lemma AppendFrame(s: State, h: History, v: nat, e: Entry, s': State, h': History)
    requires Nodes(s) && TalliesOk(s) && CommitsOk(s, h) && CallsOk(s, h) && CallsDistinct(s)
    requires v < SERVER_COUNT && s.servers[v].role.Leader? && ServersOk(s, h)
    requires s' == s.(servers := s.servers[v := s.servers[v].(log := s.servers[v].log + [e])]) && Extends(h, h')
    ensures Nodes(s') && TalliesOk(s') && CommitsOk(s', h') && CallsOk(s', h') && CallsDistinct(s')
  {
    assert Nodes(s');
    CallsStayOk(s, h, s', h');
    assert forall w :: 0 <= w < SERVER_COUNT ==> ServerOk(s.servers[w], h);
    CommitsStay(s, h, s', h');
  }

  lemma AppendKeeps(s: State, h: History, v: nat, e: Entry, s': State) returns (h': History)
    requires Inv(s, h) && v < SERVER_COUNT && s.servers[v].role.Leader? && e.term == s.servers[v].term
    requires s' == s.(servers := s.servers[v := s.servers[v].(log := s.servers[v].log + [e])])
    ensures Inv(s', h') && Extends(h, h')
  {
    assert ServerOk(s.servers[v], h);
    h' := Appended(h, s.servers[v], e);
    AppendedExtends(h, s.servers[v], e, h');
    AppendedHistoryOk(h, s.servers[v], e, h');
    AppendFrame(s, h, v, e, s', h');
    AppendPast(s, h, v, e, s', h');
    AppendServersOk(s, h, v, e, s', h');
    AppendLeadersKeep(s, h, v, e, s', h');
    AppendServersKeep(s, h, v, e, s', h');
    AppendCandidatesKeep(s, h, v, e, s', h');
  }

  // ----- a follower accepts entries

  /** The accept loop yields a log that follows the leader's up to the last entry sent and loses
      nothing the two logs agree on. */
  lemma {:induction false} MergeFollows(h: History, log: seq<Entry>, t: nat, leading: seq<Entry>, at: nat,
                                        entries: seq<Entry>)
    requires LogOk(h, log, t) && LogOk(h, leading, t) && SamePrefix(log, leading, at)
    requires at + |entries| <= |leading| && entries == leading[at..at + |entries|]
    ensures var merged := MergeEntries(log, at, entries);
      && SamePrefix(leading, merged, at + |entries|)
      && LogOk(h, merged, t)
      && (forall n: nat :: SamePrefix(log, leading, n) ==> SamePrefix(log, merged, n))
    decreases |entries|
  {
    if entries == [] {
    } else if at == |log| || log[at].term != entries[0].term {
      var merged := log[..at] + entries;
      assert merged == leading[..at + |entries|];
      PrefixOk(h, leading, t, at + |entries|);
    } else {
      LogsMatch(h, log, t, leading, t, at);
      assert entries[1..] == leading[at + 1..at + 1 + |entries[1..]|];
      MergeFollows(h, log, t, leading, at + 1, entries[1..]);
    }
  }

  lemma PrefixOk(h: History, log: seq<Entry>, t: nat, n: nat)
    requires LogOk(h, log, t) && n <= |log|
    ensures LogOk(h, log[..n], t)
  {
    forall k | 0 <= k < n ensures log[..n][k].term <= t && Traced(h, log[..n], k) {
      assert Traced(h, log, k);
    }
  }

  /** What a server has committed, every leader of its term or a later one also has. */
  lemma CommitIsInLeader(s: State, h: History, log: seq<Entry>, n: nat, t: nat, t': nat)
    requires Nodes(s) && LeadersKeep(s, h) && Durable(h, log, n, t) && t <= t' && t' in h.leaderLog
    ensures n > 0 ==> SamePrefix(log, h.leaderLog[t'], n)
  {
    if n > 0 {
      var t0: nat, k: nat :| t0 <= t && CommitsPrefix(h, t0, k, log, n);
      if t0 < t' {
        CommittedIsNotBlocked(s, h, t0, k);
        assert Safe(s, h, t0, k, h.leaderLog[t']);
      }
    }
  }

  ghost function Acknowledged(h: History, v: nat, t: nat, n: nat): History {
    h.(acked := h.acked[(v, t) := if n > Acked(h, v, t) then n else Acked(h, v, t)])
  }

  lemma AcknowledgedOk(h: History, v: nat, t: nat, n: nat, h': History)
    requires HistoryOk(h) && t in h.leaderLog && n <= |h.leaderLog[t]| && h' == Acknowledged(h, v, t, n)
    ensures HistoryOk(h') && Extends(h, h') && n <= Acked(h', v, t)
    ensures Acked(h', v, t) == n || Acked(h', v, t) == Acked(h, v, t)
    ensures forall w: nat, t0: nat :: w != v || t0 != t ==> Acked(h', w, t0) == Acked(h, w, t0)
  {
    assert Extends(h, h');
    forall t0 | t0 in h'.leaderLog ensures LogOk(h', h'.leaderLog[t0], t0) {
      LogStaysOk(h, h', h.leaderLog[t0], t0);
    }
  }

  /** A delivered AppendEntries call that the callee, already in its term, accepts. */
  ghost predicate Accepts(s: State, i: nat, s': State)
    requires Nodes(s)
  {
    i < |s.calls| &&
    var c := s.calls[i];
    var r := c.req;
    var callee := s.servers[c.to];
    && r.AppendEntries? && c.status.InFlight? && r.term == callee.term
    && r.prevLogIndex >= 0 && PrevMatches(callee.log, r.prevLogIndex, r.prevLogTerm) && r.prevLogIndex <= |callee.log|
    && s' == s.(servers := s.servers[c.to := AcceptEntries(callee, r.prevLogIndex, r.entries, r.leaderCommit)],
                calls := s.calls[i := c.(status := Replied(Reply(callee.term, true)))])
  }

  /** The callee's new log, in terms of its old log and the caller's. */
  lemma AcceptedLog(s: State, h: History, i: nat, s': State)
    requires Nodes(s) && HistoryOk(h) && ServersOk(s, h) && CallsOk(s, h) && Accepts(s, i, s')
    ensures var c := s.calls[i]; var leading := h.leaderLog[c.req.term]; var log := s'.servers[c.to].log;
      && SamePrefix(leading, log, c.req.sentUpTo)
      && LogOk(h, log, c.req.term)
      && (forall n: nat :: SamePrefix(s.servers[c.to].log, leading, n) ==> SamePrefix(s.servers[c.to].log, log, n))
  {
    var c := s.calls[i];
    var r := c.req;
    var callee := s.servers[c.to];
    assert AppendCallOk(h, c) && ServerOk(callee, h);
    var leading := h.leaderLog[r.term];
    if r.prevLogIndex > 0 {
      LogsMatch(h, callee.log, callee.term, leading, r.term, r.prevLogIndex - 1);
    }
    MergeFollows(h, callee.log, r.term, leading, r.prevLogIndex, r.entries);
  }

  lemma FollowerOk(h: History, h': History, before: Server, w: Server, sentUpTo: nat, leaderCommit: nat)
    requires WellFormed(before) && WellFormed(w) && ServerOk(before, h) && !before.role.Leader?
    requires before.term in h.leaderLog
    requires w == before.(role := Follower, log := w.log,
      commit := if leaderCommit <= before.commit then before.commit else leaderCommit)
    requires Extends(h, h') && h'.leader == h.leader && h'.leaderLog == h.leaderLog && h'.ledger == h.ledger
    requires var leading := h.leaderLog[before.term];
      && SamePrefix(leading, w.log, sentUpTo) && LogOk(h, w.log, before.term) && leaderCommit <= sentUpTo
      && (before.commit > 0 ==> SamePrefix(before.log, w.log, before.commit))
      && SamePrefix(leading, w.log, Acked(h, w.id, w.term))
    requires Acked(h', w.id, w.term) == sentUpTo || Acked(h', w.id, w.term) == Acked(h, w.id, w.term)
    ensures ServerOk(w, h')
  {
    LogStaysOk(h, h', w.log, w.term);
  }

  /** The leader of a term takes no entries in it. */
  lemma CalleeDoesNotLead(s: State, h: History, i: nat, s': State)
    requires Nodes(s) && ServersOk(s, h) && CallsOk(s, h) && Accepts(s, i, s')
    ensures !s.servers[s.calls[i].to].role.Leader? && s'.servers[s.calls[i].to].role.Follower?
  {
    assert AppendCallOk(h, s.calls[i]) && ServerOk(s.servers[s.calls[i].to], h);
  }

  /** What the callee has committed or acknowledged survives. */
  lemma AcceptedKeepsCommit(s: State, h: History, i: nat, s': State)
    requires Nodes(s) && HistoryOk(h) && ServersOk(s, h) && CallsOk(s, h) && CommitsOk(s, h) && LeadersKeep(s, h)
    requires Accepts(s, i, s')
    ensures var c := s.calls[i]; var before := s.servers[c.to]; var w := s'.servers[c.to];
      && (before.commit > 0 ==> SamePrefix(before.log, w.log, before.commit))
      && SamePrefix(h.leaderLog[before.term], w.log, Acked(h, w.id, w.term))
  {
    var c := s.calls[i];
    var before := s.servers[c.to];
    AcceptedLog(s, h, i, s');
    assert ServerOk(before, h) && Durable(h, before.log, before.commit, before.term);
    CommitIsInLeader(s, h, before.log, before.commit, before.term, c.req.term);
    assert SamePrefix(before.log, h.leaderLog[c.req.term], Acked(h, c.to, c.req.term));
  }

  lemma AcceptedServerOk(s: State, h: History, i: nat, s': State, h': History)
    requires Nodes(s) && HistoryOk(h) && ServersOk(s, h) && CallsOk(s, h) && CommitsOk(s, h) && LeadersKeep(s, h)
    requires Accepts(s, i, s') && Extends(h, h') && WellFormed(s'.servers[s.calls[i].to])
    requires h'.leader == h.leader && h'.leaderLog == h.leaderLog && h'.ledger == h.ledger
    requires var c := s.calls[i];
      Acked(h', c.to, c.req.term) == c.req.sentUpTo || Acked(h', c.to, c.req.term) == Acked(h, c.to, c.req.term)
    ensures var w := s'.servers[s.calls[i].to]; ServerOk(w, h') && Durable(h', w.log, w.commit, w.term)
  {
    hide HistoryOk, LeadersKeep, LogOk, Extends, MergeEntries, PrevMatches;
    var c := s.calls[i];
    AcceptedKeepsCommit(s, h, i, s');
    AcceptedLog(s, h, i, s');
    CalleeDoesNotLead(s, h, i, s');
    assert AppendCallOk(h, c) && ServerOk(s.servers[c.to], h);
    assert Durable(h, s.servers[c.to].log, s.servers[c.to].commit, s.servers[c.to].term);
    FollowerOk(h, h', s.servers[c.to], s'.servers[c.to], c.req.sentUpTo, c.req.leaderCommit);
    FollowerDurable(h, h', s.servers[c.to], s'.servers[c.to], h.leaderLog[c.req.term], c.req.leaderCommit);
  }

  lemma FollowerDurable(h: History, h': History, before: Server, w: Server, leading: seq<Entry>, leaderCommit: nat)
    requires Extends(h, h') && w.term == before.term
    requires Durable(h, before.log, before.commit, before.term) && Durable(h, leading, leaderCommit, before.term)
    requires w.commit == if leaderCommit <= before.commit then before.commit else leaderCommit
    requires before.commit > 0 ==> SamePrefix(before.log, w.log, before.commit)
    requires SamePrefix(leading, w.log, leaderCommit)
    ensures Durable(h', w.log, w.commit, w.term)
  {
    if leaderCommit <= before.commit {
      DurableStays(h, h', before.log, w.log, before.commit, before.term, w.term);
    } else {
      DurableStays(h, h', leading, w.log, leaderCommit, before.term, w.term);
    }
  }

  lemma AcceptCalls(s: State, h: History, i: nat, s': State, h': History)
    requires Nodes(s) && TalliesOk(s) && CallsOk(s, h) && CallsDistinct(s)
    requires Accepts(s, i, s') && Extends(h, h') && s'.servers[s.calls[i].to].role.Follower?
    requires s.calls[i].req.sentUpTo <= Acked(h', s.calls[i].to, s.calls[i].req.term)
    ensures Nodes(s') && TalliesOk(s') && CallsOk(s', h') && CallsDistinct(s')
    ensures forall j :: 0 <= j < |s'.calls| ==> SameVote(s, s', j)
  {
    hide MergeEntries, Durable, Voters, Extends, SameQuestion, PrevMatches;
    var c := s.calls[i];
    CallStaysOk(s, h, s', h', c);
    StatusCallsOk(s, h, i, s'.calls[i], s', h');
    forall w | 0 <= w < SERVER_COUNT && s'.servers[w].role.Candidate?
      ensures s'.servers[w].votes == |Voters(s'.calls, w, s'.servers[w].term)|
    {
      VotersUnchanged(s.calls, i, s'.calls[i], w, s.servers[w].term);
    }
  }

  lemma AcceptPast(s: State, h: History, i: nat, s': State, h': History)
    requires Nodes(s) && Nodes(s') && PastOk(s, h) && Accepts(s, i, s') && Extends(h, h')
    requires !s.servers[s.calls[i].to].role.Leader?
    requires h'.leader == h.leader && h'.ledger == h.ledger
    requires forall w: nat, t: nat :: w != s.calls[i].to || t != s.calls[i].req.term ==>
      Acked(h', w, t) == Acked(h, w, t)
    ensures PastOk(s', h') && Advances(s, h, s', h')
  {
  }

  lemma AcceptOthersOk(s: State, h: History, i: nat, s': State, h': History)
    requires Nodes(s) && Nodes(s') && HistoryOk(h) && ServersOk(s, h) && CommitsOk(s, h) && Accepts(s, i, s')
    requires Extends(h, h')
    requires h'.leader == h.leader && h'.leaderLog == h.leaderLog && h'.ledger == h.ledger
    requires forall w: nat, t: nat :: w != s.calls[i].to || t != s.calls[i].req.term ==>
      Acked(h', w, t) == Acked(h, w, t)
    requires var w := s'.servers[s.calls[i].to]; ServerOk(w, h') && Durable(h', w.log, w.commit, w.term)
    ensures ServersOk(s', h') && CommitsOk(s', h')
  {
    forall w | 0 <= w < SERVER_COUNT
      ensures ServerOk(s'.servers[w], h')
      ensures Durable(h', s'.servers[w].log, s'.servers[w].commit, s'.servers[w].term)
    {
      if w != s.calls[i].to {
        assert ServerOk(s.servers[w], h) && Durable(h, s.servers[w].log, s.servers[w].commit, s.servers[w].term);
        LogStaysOk(h, h', s.servers[w].log, s.servers[w].term);
        DurableStays(h, h', s.servers[w].log, s.servers[w].log, s.servers[w].commit, s.servers[w].term,
          s.servers[w].term);
      }
    }
  }

  /** The callee keeps what an older term may still commit, because the caller's log has it too. */
  lemma AcceptorKeepsOlder(s: State, h: History, before: Server, w: Server, t: nat, k: nat, t': nat)
    requires Nodes(s) && LeadersKeep(s, h) && OwnEntry(h, t, k) && t < t' && t' in h.leaderLog
    requires Safe(s, h, t, k, before.log)
    requires forall n: nat :: SamePrefix(before.log, h.leaderLog[t'], n) ==> SamePrefix(before.log, w.log, n)
    ensures Safe(s, h, t, k, w.log)
  {
    assert Safe(s, h, t, k, h.leaderLog[t']);
    if !Blocked(s, h, t, k) {
      assert SamePrefix(before.log, h.leaderLog[t'], k);
    }
  }

  lemma AcceptorKeeps(s: State, h: History, s': State, h': History, v: nat)
    requires Nodes(s) && Nodes(s') && PastOk(s, h) && LeadersKeep(s, h) && ServersKeep(s, h) && Advances(s, h, s', h')
    requires v < SERVER_COUNT && h'.leaderLog == h.leaderLog && s.servers[v].term in h.leaderLog
    requires forall t: nat :: t != s.servers[v].term ==> Acked(h', v, t) == Acked(h, v, t)
    requires var before := s.servers[v]; var leading := h.leaderLog[before.term]; var w := s'.servers[v];
      && SamePrefix(leading, w.log, Acked(h', v, before.term))
      && (forall n: nat :: SamePrefix(before.log, leading, n) ==> SamePrefix(before.log, w.log, n))
    ensures forall t: nat, k: nat :: OwnEntry(h', t, k) && k <= Acked(h', v, t) ==>
      Safe(s', h', t, k, s'.servers[v].log)
  {
    var before, w := s.servers[v], s'.servers[v];
    forall t: nat, k: nat | OwnEntry(h', t, k) && k <= Acked(h', v, t) ensures Safe(s', h', t, k, w.log) {
      if t != before.term {
        assert OwnEntry(h, t, k) && Acked(h, v, t) > 0;
        AcceptorKeepsOlder(s, h, before, w, t, k, before.term);
        SafeStays(s, h, s', h', t, k, w.log, w.log);
      }
    }
  }

  lemma AcceptPromises(s: State, h: History, i: nat, s': State, h': History)
    requires Nodes(s) && Nodes(s') && PastOk(s, h) && LeadersKeep(s, h) && ServersKeep(s, h) && Advances(s, h, s', h')
    requires Accepts(s, i, s') && h'.leaderLog == h.leaderLog && s.calls[i].req.term in h.leaderLog
    requires forall w: nat, t: nat :: w != s.calls[i].to || t != s.calls[i].req.term ==>
      Acked(h', w, t) == Acked(h, w, t)
    requires var c := s.calls[i]; var leading := h.leaderLog[c.req.term]; var log := s'.servers[c.to].log;
      && SamePrefix(leading, log, Acked(h', c.to, c.req.term))
      && (forall n: nat :: SamePrefix(s.servers[c.to].log, leading, n) ==> SamePrefix(s.servers[c.to].log, log, n))
    ensures LeadersKeep(s', h') && ServersKeep(s', h')
  {
    LeadersStillKeep(s, h, s', h');
    AcceptorKeeps(s, h, s', h', s.calls[i].to);
    forall w: nat, t: nat, k: nat | 0 <= w < SERVER_COUNT && OwnEntry(h', t, k) && k <= Acked(h', w, t)
      ensures Safe(s', h', t, k, s'.servers[w].log)
    {
      if w != s.calls[i].to {
        assert OwnEntry(h, t, k);
        ServerStillKeeps(s, h, s', h', w, t, k);
      }
    }
  }

  lemma AcceptKeeps(s: State, h: History, i: nat, s': State) returns (h': History)
    requires Inv(s, h) && Accepts(s, i, s')
    ensures Inv(s', h') && Extends(h, h')
  {
    hide LeadersKeep, ServersKeep, CandidatesKeep, HistoryOk, TalliesOk, LogOk, Durable;
    var c := s.calls[i];
    assert AppendCallOk(h, c);
    h' := Acknowledged(h, c.to, c.req.term, c.req.sentUpTo);
    AcknowledgedOk(h, c.to, c.req.term, c.req.sentUpTo, h');
    AcceptedServerOk(s, h, i, s', h');
    CalleeDoesNotLead(s, h, i, s');
    AcceptCalls(s, h, i, s', h');
    AcceptPast(s, h, i, s', h');
    AcceptOthersOk(s, h, i, s', h');
    AcceptedLog(s, h, i, s');
    assert ServerOk(s'.servers[c.to], h');
    AcceptPromises(s, h, i, s', h');
    EndorsementsStay(s, h, s', h', c.to);
  }

  // ----- the leader learns of progress and commits

  /** The servers the commit scan counts, as a set. */
  lemma {:induction false} HoldersSet(matchIndex: seq<int>, id: nat, index: nat, peers: nat) returns (q: set<nat>)
    requires peers <= |matchIndex|
    ensures |q| == Holders(matchIndex, id, index, peers)
    ensures forall v :: v in q ==> v < peers && v != id && matchIndex[v] >= index
  {
    if peers == 0 {
      q := {};
    } else {
      q := HoldersSet(matchIndex, id, index, peers - 1);
      if peers - 1 != id && matchIndex[peers - 1] >= index {
        q := q + {peers - 1};
      }
    }
  }

  lemma CommittableIsCommitted(h: History, leader: Server, index: nat)
    requires WellFormed(leader) && leader.role.Leader? && LeaderOk(leader, h)
    requires 1 <= index <= |leader.log| && Committable(leader, index)
    ensures Committed(h, leader.term, index)
  {
    var others := HoldersSet(leader.matchIndex, leader.id, index, |leader.matchIndex|);
    var q := others + {leader.id};
    assert HoldsAll(h, q, leader.term, index);
  }

  lemma {:induction false} ScanIsDurable(h: History, leader: Server, index: nat)
    requires WellFormed(leader) && leader.role.Leader? && LeaderOk(leader, h) && index <= |leader.log|
    requires leader.commit <= |leader.log| && Durable(h, leader.log, leader.commit, leader.term)
    ensures leader.commit <= CommitScan(leader, index) <= |leader.log|
    ensures Durable(h, leader.log, CommitScan(leader, index), leader.term)
  {
    if index > leader.commit {
      if Committable(leader, index) {
        CommittableIsCommitted(h, leader, index);
        assert CommitsPrefix(h, leader.term, index, leader.log, index);
      } else {
        ScanIsDurable(h, leader, index - 1);
      }
    }
  }

  lemma ExecutedStaysOk(h: History, w: Server)
    requires WellFormed(w) && ServerOk(w, h)
    ensures var w' := ApplyCommitted(w);
      && WellFormed(w') && ServerOk(w', h) && w' == w.(executed := w'.executed)
      && w.executed <= w'.executed
  {
  }

  lemma BackOffServerOk(h: History, leader: Server, peer: nat)
    requires WellFormed(leader) && peer < SERVER_COUNT && leader.role.Leader? && ServerOk(leader, h)
    ensures ServerOk(BackOff(leader, peer), h)
  {
  }

  lemma ProgressServerOk(h: History, leader: Server, peer: nat, sentUpTo: int)
    requires WellFormed(leader) && peer < SERVER_COUNT && peer != leader.id && leader.role.Leader?
    requires ServerOk(leader, h)
    requires HistoryOk(h) && sentUpTo <= Acked(h, peer, leader.term)
    ensures ServerOk(RecordMatch(leader, peer, sentUpTo), h)
  {
  }

  lemma SettledServerOk(h: History, w: Server)
    requires WellFormed(w) && ServerOk(w, h)
    ensures ServerOk(SetIndices(w), h)
  {
    hide LogOk;
  }
}
