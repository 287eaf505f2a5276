/** What the safety theorems leave open: that a leader commits as much as it may, that a peer it can
    reach is brought up to its log, and that what is committed is executed. */
module RaftProgress {
  import opened RaftServer
  import opened RaftProtocol
  import opened RaftInvariant
  import opened RaftPreservation
  import opened RaftReplication
  import opened RaftSafety
  import opened RaftRuns

  // ----- the commit index of a leader

  /** The servers known to hold the first k entries of the log, the leader included. */
  ghost function Holding(s: Server, k: int): set<nat> {
    {s.id} + set j: nat | j < |s.matchIndex| && j != s.id && s.matchIndex[j] >= k :: j
  }

  /** A majority of the five holds the first k entries, and the last of them is of the leader's term. */
  ghost predicate MayCommit(s: Server, k: int) {
    s.commit < k <= |s.log| && s.log[k - 1].term == s.term && |Holding(s, k)| >= 3
  }

  ghost function PeersHolding(m: seq<int>, id: nat, k: int, peers: nat): set<nat>
    requires peers <= |m|
  {
    set j: nat | j < peers && j != id && m[j] >= k :: j
  }

  lemma {:induction false} HoldersCount(m: seq<int>, id: nat, k: nat, peers: nat)
    requires peers <= |m|
    ensures Holders(m, id, k, peers) == |PeersHolding(m, id, k, peers)|
  {
    if peers == 0 {
      assert PeersHolding(m, id, k, 0) == {};
    } else {
      var last := peers - 1;
      HoldersCount(m, id, k, last);
      if last != id && m[last] >= k {
        assert PeersHolding(m, id, k, peers) == PeersHolding(m, id, k, last) + {last};
      } else {
        assert PeersHolding(m, id, k, peers) == PeersHolding(m, id, k, last);
      }
    }
  }

  lemma CommittableMeans(s: Server, k: nat)
    requires s.commit < k <= |s.log|
    ensures Committable(s, k) <==> MayCommit(s, k)
  {
    HoldersCount(s.matchIndex, s.id, k, |s.matchIndex|);
    assert Holding(s, k) == PeersHolding(s.matchIndex, s.id, k, |s.matchIndex|) + {s.id};
    hide Holders;
  }

  lemma {:induction false} ScanFindsHighest(s: Server, index: nat, k: int)
    requires index <= |s.log|
    ensures var c := CommitScan(s, index); c == s.commit || (c <= index && MayCommit(s, c))
    ensures k <= index && MayCommit(s, k) ==> k <= CommitScan(s, index)
  {
    hide Committable, Holding;
    if index > s.commit {
      CommittableMeans(s, index);
      ScanFindsHighest(s, index - 1, k);
    }
  }

  /** The commit index moves to the highest index that may be committed, and stays if there is none. */
  lemma CommitsHighest(s: Server, k: int)
    ensures MayCommit(s, k) ==> k <= AdvanceCommit(s).commit
    ensures AdvanceCommit(s).commit == s.commit || MayCommit(s, AdvanceCommit(s).commit)
  {
    ScanFindsHighest(s, |s.log|, k);
  }

  /** After the scan nothing more may be committed. */
  lemma NothingLeft(s: Server)
    ensures forall k :: !MayCommit(AdvanceCommit(s), k)
  {
    hide CommitScan;
    ScanFindsHighest(s, |s.log|, s.commit);
    forall k | MayCommit(AdvanceCommit(s), k) ensures false {
      assert Holding(AdvanceCommit(s), k) == Holding(s, k);
      CommitsHighest(s, k);
      CommitsHighest(s, AdvanceCommit(s).commit);
    }
  }

  // ----- the commit index of a follower, and execution

  function Min(a: int, b: int): int { if a < b then a else b }
  function Max(a: int, b: int): int { if a > b then a else b }

  /** A follower accepts a call exactly when it is not of an older term and its log has the previous
      entry; its commit index then reaches the leader's, as far as its log goes. */
  lemma AcceptsExactlyWhen(s: Server, r: Request)
    requires r.AppendEntries?
    ensures var (w, reply) := HandleAppendEntries(s, r.term, r.prevLogIndex, r.prevLogTerm, r.entries, r.leaderCommit);
      && reply.term == w.term == Max(s.term, r.term)
      && (reply.ok <==>
          && s.term <= r.term
          && (r.prevLogIndex == 0 ||
              (1 <= r.prevLogIndex <= |s.log| && s.log[r.prevLogIndex - 1].term == r.prevLogTerm)))
      && (reply.ok ==> w.commit >= Min(r.leaderCommit, |w.log|))
      && (w.commit == s.commit || (reply.ok && w.commit == Min(r.leaderCommit, |w.log|)))
      && (!reply.ok ==> w.log == s.log)
  {
  }

  /** In every state of a timely run, an apply executes the whole committed log. */
  lemma AppliesAll(run: seq<State>, i: nat, v: nat)
    requires IsTimelyRun(run) && i < |run| && v < SERVER_COUNT
    ensures var w := run[i].servers[v];
      w.commit <= |w.log| && ApplyCommitted(w).executed == Commands(w.log[..w.commit])
  {
    hide Inv, IsTimelyRun, IsRun;
    var h := RunInvariant(run, i);
    ExecutesLog(run[i], h, v);
  }

  lemma ExecutesLog(s: State, h: History, v: nat)
    requires Inv(s, h) && v < SERVER_COUNT
    ensures var w := s.servers[v];
      w.commit <= |w.log| && ApplyCommitted(w).executed == Commands(w.log[..w.commit])
  {
    hide HistoryOk, ServersOk, CommitsOk, TalliesOk, PastOk, CallsOk, CallsDistinct, LeadersKeep, ServersKeep,
      CandidatesKeep, LeaderOk, VoteOk, AckOk, LogOk, Durable;
    ServerHolds(s, h, v);
  }

  // ----- one round of replication

  /** The leader v can send to p: neither is between its two halves of winning, p is in no later term,
      and its next index has not fallen below 1. */
  ghost predicate InReach(s: State, v: nat, p: nat) {
    && Nodes(s) && v < SERVER_COUNT && p < SERVER_COUNT && v != p && v !in s.settling && p !in s.settling
    && s.servers[v].role.Leader? && s.servers[p].term <= s.servers[v].term && 1 <= s.servers[v].nextIndex[p]
  }

  /** The peer has all of the leader's log, and the leader knows it. */
  ghost predicate Caught(s: State, v: nat, p: nat)
    requires Nodes(s) && v < SERVER_COUNT && p < SERVER_COUNT
  {
    var leader, peer := s.servers[v], s.servers[p];
    && leader.matchIndex[p] == |leader.log| && leader.nextIndex[p] == |leader.log| + 1
    && peer.term == leader.term && SamePrefix(leader.log, peer.log, |leader.log|)
  }

  lemma SendsAll(s: Server, p: nat)
    requires WellFormed(s) && p < SERVER_COUNT && 1 <= s.nextIndex[p] <= |s.log| + 1
    ensures var r := AppendFor(s, p);
      && r.term == s.term && r.sentUpTo == |s.log| && r.prevLogIndex == s.nextIndex[p] - 1
      && s.log[..r.prevLogIndex] + r.entries == s.log && r.leaderCommit == s.commit
  {
  }

  lemma Acceptance(s: State, i: nat)
    requires Nodes(s) && Enabled(s, Deliver(i)) && s.calls[i].req.AppendEntries?
    requires var c := s.calls[i];
      s.servers[c.to].term <= c.req.term && PrevMatches(s.servers[c.to].log, c.req.prevLogIndex, c.req.prevLogTerm)
    ensures var c := s.calls[i]; var callee := ObserveTerm(s.servers[c.to], c.req.term);
      && 0 <= c.req.prevLogIndex <= |callee.log|
      && Perform(s, Deliver(i)) ==
         s.(servers := s.servers[c.to := AcceptEntries(callee, c.req.prevLogIndex, c.req.entries, c.req.leaderCommit)],
            calls := s.calls[i := c.(status := Replied(Reply(c.req.term, true)))])
  {
    hide AcceptEntries;
  }

  lemma Recorded(s: State, i: nat)
    requires Nodes(s) && Enabled(s, Return(i)) && s.calls[i].req.AppendEntries?
    requires var v := s.servers[s.calls[i].from]; v.role.Leader? && s.calls[i].status == Replied(Reply(v.term, true))
    ensures var c := s.calls[i]; var v := s.servers[c.from];
      Perform(s, Return(i)) == s.(servers := s.servers[c.from := AdvanceCommit(RecordMatch(v, c.to, c.req.sentUpTo))],
                                  calls := s.calls[i := c.(status := Handled(c.status.reply))])
  {
    hide CommitScan;
  }

  /** Sending, delivering and returning one call, if the peer has the entry before the ones sent. */
  lemma AcceptedRound(s: State, v: nat, p: nat) returns (s1: State, s2: State, s3: State)
    requires InReach(s, v, p)
    requires var r := AppendFor(s.servers[v], p); PrevMatches(s.servers[p].log, r.prevLogIndex, r.prevLogTerm)
    ensures Nodes(s1) && Nodes(s2) && Nodes(s3)
    ensures Enabled(s, Heartbeat(v, p)) && s1 == Perform(s, Heartbeat(v, p))
    ensures Enabled(s1, Deliver(|s.calls|)) && s2 == Perform(s1, Deliver(|s.calls|))
    ensures Enabled(s2, Return(|s.calls|)) && s3 == Perform(s2, Return(|s.calls|))
    ensures var r := AppendFor(s.servers[v], p); var callee := ObserveTerm(s.servers[p], r.term);
      && 0 <= r.prevLogIndex <= |callee.log|
      && s3 == s.(servers := s.servers[p := AcceptEntries(callee, r.prevLogIndex, r.entries, r.leaderCommit)]
                             [v := AdvanceCommit(RecordMatch(s.servers[v], p, r.sentUpTo))],
                  calls := s.calls + [Call(v, p, r, Handled(Reply(r.term, true)))])
  {
    var r, i := AppendFor(s.servers[v], p), |s.calls|;
    assert r.term == s.servers[v].term;
    hide Delivered, Returned, PrevMatches, AppendFor, AcceptEntries, AdvanceCommit, RecordMatch, ObserveTerm;
    s1 := Perform(s, Heartbeat(v, p));
    assert s1.calls == s.calls + [Call(v, p, r, InFlight)];
    Acceptance(s1, i);
    s2 := Perform(s1, Deliver(i));
    assert s2.calls == s.calls + [Call(v, p, r, Replied(Reply(r.term, true)))];
    Recorded(s2, i);
    s3 := Perform(s2, Return(i));
    assert s3.calls == s.calls + [Call(v, p, r, Handled(Reply(r.term, true)))];
  }

  lemma RefusedRound(s: State, v: nat, p: nat) returns (s1: State, s2: State, s3: State)
    requires InReach(s, v, p)
    requires var r := AppendFor(s.servers[v], p); !PrevMatches(s.servers[p].log, r.prevLogIndex, r.prevLogTerm)
    ensures Nodes(s1) && Nodes(s2) && Nodes(s3)
    ensures Enabled(s, Heartbeat(v, p)) && s1 == Perform(s, Heartbeat(v, p))
    ensures Enabled(s1, Deliver(|s.calls|)) && s2 == Perform(s1, Deliver(|s.calls|))
    ensures Enabled(s2, Return(|s.calls|)) && s3 == Perform(s2, Return(|s.calls|))
    ensures var term := s.servers[v].term;
      && s3.servers == s.servers[p := ObserveTerm(s.servers[p], term)][v := BackOff(s.servers[v], p)]
      && s3.starting == s.starting && s3.settling == s.settling
    ensures 2 <= s.servers[v].nextIndex[p]
  {
    var r, i := AppendFor(s.servers[v], p), |s.calls|;
    s1 := Perform(s, Heartbeat(v, p));
    assert s1.calls[i] == Call(v, p, r, InFlight);
    s2 := Perform(s1, Deliver(i));
    assert s2.calls[i] == Call(v, p, r, Replied(Reply(r.term, false)));
    s3 := Perform(s2, Return(i));
  }

  /** What a round leaves alone: everyone else, and the leader but for what it knows of p. */
  ghost predicate OnlyReplicates(s: State, s': State, v: nat, p: nat)
    requires Nodes(s) && Nodes(s') && v < SERVER_COUNT && p < SERVER_COUNT
  {
    && s'.starting == s.starting && s'.settling == s.settling
    && (forall u :: 0 <= u < SERVER_COUNT && u != v && u != p ==> s'.servers[u] == s.servers[u])
    && s'.servers[v].role.Leader? && s'.servers[v].term == s.servers[v].term && s'.servers[v].log == s.servers[v].log
    && s.servers[v].commit <= s'.servers[v].commit && s'.servers[v].executed == s.servers[v].executed
    && (forall u :: 0 <= u < SERVER_COUNT && u != p ==>
          && s'.servers[v].nextIndex[u] == s.servers[v].nextIndex[u]
          && s'.servers[v].matchIndex[u] == s.servers[v].matchIndex[u])
  }

  /** The acknowledged call is on record, so the invariant says what the peer's log holds. */
  lemma AcknowledgedIsHeld(s: State, h: History, v: nat, p: nat, i: nat)
    requires Inv(s, h) && v < SERVER_COUNT && p < SERVER_COUNT && i < |s.calls| && s.servers[v].role.Leader?
    requires s.servers[p].term == s.servers[v].term
    requires var c := s.calls[i];
      && c.to == p && c.req.AppendEntries? && c.req.term == s.servers[v].term
      && c.status == Handled(Reply(c.req.term, true)) && c.req.sentUpTo == |s.servers[v].log|
    ensures SamePrefix(s.servers[v].log, s.servers[p].log, |s.servers[v].log|)
  {
    hide HistoryOk, CommitsOk, TalliesOk, PastOk, CallsDistinct, LeadersKeep, ServersKeep, CandidatesKeep,
      VoteCallOk, VoteOk, LogOk, Durable, ExecutedOk;
    assert AppendCallOk(h, s.calls[i]);
    assert ServerOk(s.servers[v], h) && ServerOk(s.servers[p], h);
  }

  lemma IndexBound(s: State, h: History, v: nat, p: nat)
    requires Inv(s, h) && v < SERVER_COUNT && p < SERVER_COUNT && s.servers[v].role.Leader?
    ensures s.servers[v].nextIndex[p] <= |s.servers[v].log| + 1 && s.servers[v].commit <= |s.servers[v].log|
  {
    hide HistoryOk, CommitsOk, TalliesOk, PastOk, CallsDistinct, LeadersKeep, ServersKeep, CandidatesKeep,
      CallsOk, VoteOk, LogOk, AckOk;
    assert ServerOk(s.servers[v], h);
  }

  lemma ThreeSteps(run: seq<State>, a: Step, b: Step, c: Step, s1: State, s2: State, s3: State)
    returns (longer: seq<State>)
    requires IsTimelyRun(run) && Nodes(s1) && Nodes(s2) && !a.Push? && !b.Push? && !c.Push?
    requires Enabled(Last(run), a) && s1 == Perform(Last(run), a)
    requires Enabled(s1, b) && s2 == Perform(s1, b) && Enabled(s2, c) && s3 == Perform(s2, c)
    ensures longer != [] && IsTimelyRun(longer) && run <= longer && Nodes(Last(longer)) && Last(longer) == s3
  {
    hide Perform, Enabled, Nodes, IsTimelyRun;
    longer := ExtendTimely(run, a);
    longer := ExtendTimely(longer, b);
    longer := ExtendTimely(longer, c);
  }

  lemma OnlyCommits(w: Server)
    ensures AdvanceCommit(w) == w.(commit := AdvanceCommit(w).commit) && w.commit <= AdvanceCommit(w).commit
  {
    ScanStays(w, |w.log|);
  }

  /** One accepted round brings the peer up to the leader's log. */
  lemma AcceptedCatches(run: seq<State>, v: nat, p: nat) returns (longer: seq<State>)
    requires IsTimelyRun(run) && InReach(Last(run), v, p)
    requires var s := Last(run); var r := AppendFor(s.servers[v], p);
      PrevMatches(s.servers[p].log, r.prevLogIndex, r.prevLogTerm)
    ensures longer != [] && IsTimelyRun(longer) && run <= longer && Nodes(Last(longer))
    ensures OnlyReplicates(Last(run), Last(longer), v, p) && Caught(Last(longer), v, p)
    ensures var s, s' := Last(run), Last(longer);
      && s'.servers[p].commit >= s.servers[v].commit
      && forall k :: !MayCommit(s'.servers[v], k)
  {
    hide Inv, Perform, Enabled, PrevMatches, AdvanceCommit, MergeEntries, AppendFor, Init, TimelyNext, Next, MayCommit;
    var s, i := Last(run), |Last(run).calls|;
    var h := RunInvariant(run, |run| - 1);
    IndexBound(s, h, v, p);
    SendsAll(s.servers[v], p);
    OnlyCommits(RecordMatch(s.servers[v], p, |s.servers[v].log|));
    NothingLeft(RecordMatch(s.servers[v], p, |s.servers[v].log|));
    var s1, s2, s3 := AcceptedRound(s, v, p);
    longer := ThreeSteps(run, Heartbeat(v, p), Deliver(i), Return(i), s1, s2, s3);
    var h' := RunInvariant(longer, |longer| - 1);
    AcknowledgedIsHeld(s3, h', v, p, i);
  }

  /** A peer in reach is caught up, after as many refusals as it takes. */
  lemma {:induction false} CatchUp(run: seq<State>, v: nat, p: nat) returns (longer: seq<State>)
    requires IsTimelyRun(run) && InReach(Last(run), v, p)
    ensures longer != [] && IsTimelyRun(longer) && run <= longer && Nodes(Last(longer))
    ensures OnlyReplicates(Last(run), Last(longer), v, p) && Caught(Last(longer), v, p)
    ensures Last(longer).servers[p].commit >= Last(run).servers[v].commit
    ensures forall k :: !MayCommit(Last(longer).servers[v], k)
    decreases Last(run).servers[v].nextIndex[p]
  {
    hide Perform, Enabled, PrevMatches, AppendFor, Init, TimelyNext, Next, MayCommit, Caught;
    var s, i := Last(run), |Last(run).calls|;
    var r := AppendFor(s.servers[v], p);
    if PrevMatches(s.servers[p].log, r.prevLogIndex, r.prevLogTerm) {
      longer := AcceptedCatches(run, v, p);
    } else {
      var s1, s2, s3 := RefusedRound(s, v, p);
      var more := ThreeSteps(run, Heartbeat(v, p), Deliver(i), Return(i), s1, s2, s3);
      longer := CatchUp(more, v, p);
    }
  }

  lemma CaughtStays(s: State, s': State, v: nat, a: nat, b: nat)
    requires Nodes(s) && Nodes(s') && v < SERVER_COUNT && a < SERVER_COUNT && b < SERVER_COUNT && v != a && a != b
    requires OnlyReplicates(s, s', v, b) && Caught(s, v, a)
    ensures Caught(s', v, a)
  {
  }

  lemma StaysInReach(s: State, s': State, v: nat, a: nat, b: nat)
    requires InReach(s, v, a) && Nodes(s') && b < SERVER_COUNT && a != b && OnlyReplicates(s, s', v, b)
    ensures InReach(s', v, a)
  {
  }

  lemma CaughtInReach(s: State, s': State, v: nat, a: nat)
    requires InReach(s, v, a) && Nodes(s') && OnlyReplicates(s, s', v, a) && Caught(s', v, a)
    ensures InReach(s', v, a)
  {
  }

  /** With two peers caught up and an own entry last, the leader's whole log is committed. */
  lemma AllCommitted(s: State, v: nat, a: nat, b: nat)
    requires Nodes(s) && v < SERVER_COUNT && a < SERVER_COUNT && b < SERVER_COUNT && v != a && v != b && a != b
    requires Caught(s, v, a) && Caught(s, v, b)
    requires s.servers[v].log != [] && LastTerm(s.servers[v].log) == s.servers[v].term
    requires s.servers[v].commit <= |s.servers[v].log| && forall k :: !MayCommit(s.servers[v], k)
    ensures s.servers[v].commit == |s.servers[v].log|
  {
    var w := s.servers[v];
    var three, holding := {v, a, b}, Holding(w, |w.log|);
    assert three <= holding;
    assert |holding| == |three| + |holding - three|;
    assert !MayCommit(w, |w.log|);
  }

  /** Two peers in reach are caught up one after the other, and learn what was committed before. */
  lemma CatchBoth(run: seq<State>, v: nat, a: nat, b: nat) returns (longer: seq<State>)
    requires v < SERVER_COUNT && a < SERVER_COUNT && b < SERVER_COUNT && v != a && v != b && a != b
    requires IsTimelyRun(run) && InReach(Last(run), v, a) && InReach(Last(run), v, b)
    ensures longer != [] && IsTimelyRun(longer) && run <= longer && Nodes(Last(longer))
    ensures InReach(Last(longer), v, a) && InReach(Last(longer), v, b)
    ensures Caught(Last(longer), v, a) && Caught(Last(longer), v, b)
    ensures var s, s' := Last(run), Last(longer);
      && s'.servers[v].log == s.servers[v].log && s'.servers[v].term == s.servers[v].term
      && s.servers[v].commit <= s'.servers[v].commit <= |s.servers[v].log|
      && s'.servers[a].commit >= s.servers[v].commit && s'.servers[b].commit >= s.servers[v].commit
      && forall k :: !MayCommit(s'.servers[v], k)
  {
    hide Init, TimelyNext, Next, MayCommit, Caught, InReach, Inv;
    var first := CatchUp(run, v, a);
    StaysInReach(Last(run), Last(first), v, b, a);
    longer := CatchUp(first, v, b);
    CaughtInReach(Last(run), Last(first), v, a);
    StaysInReach(Last(first), Last(longer), v, a, b);
    CaughtInReach(Last(first), Last(longer), v, b);
    CaughtStays(Last(first), Last(longer), v, a, b);
    var h := RunInvariant(longer, |longer| - 1);
    IndexBound(Last(longer), h, v, a);
  }

  /** A leader whose last entry is of its own term, with two peers in reach: there is a continuation,
      with no late push, in which its whole log is committed at all three. */
  lemma CanCommit(run: seq<State>, v: nat, a: nat, b: nat) returns (longer: seq<State>)
    requires IsTimelyRun(run) && InReach(Last(run), v, a) && InReach(Last(run), v, b) && a != b
    requires var w := Last(run).servers[v]; w.log != [] && LastTerm(w.log) == w.term
    ensures longer != [] && IsTimelyRun(longer) && run <= longer && Nodes(Last(longer))
    ensures InReach(Last(longer), v, a) && InReach(Last(longer), v, b)
    ensures Caught(Last(longer), v, a) && Caught(Last(longer), v, b)
    ensures var s, s' := Last(run), Last(longer); var n := |s.servers[v].log|;
      && s'.servers[v].log == s.servers[v].log && s'.servers[v].commit == n
      && s'.servers[a].commit >= n && s'.servers[b].commit >= n
  {
    hide Init, TimelyNext, Next, MayCommit, Caught, LastTerm;
    var caught := CatchBoth(run, v, a, b);
    AllCommitted(Last(caught), v, a, b);
    longer := CatchBoth(caught, v, a, b);
  }

  lemma ApplyAt(run: seq<State>, v: nat) returns (longer: seq<State>)
    requires IsTimelyRun(run) && v < SERVER_COUNT && v !in Last(run).settling
    ensures longer != [] && IsTimelyRun(longer) && run <= longer && Nodes(Last(longer))
    ensures var s, s' := Last(run), Last(longer); var w := s.servers[v];
      && w.commit <= |w.log|
      && s' == s.(servers := s.servers[v := w.(executed := Commands(w.log[..w.commit]))])
  {
    hide Init, TimelyNext, Next, Commands;
    AppliesAll(run, |run| - 1, v);
    longer := ExtendTimely(run, Apply(v));
  }

  /** There is also one in which all three have executed the leader's whole log. */
  lemma CanExecute(run: seq<State>, v: nat, a: nat, b: nat) returns (longer: seq<State>)
    requires IsTimelyRun(run) && InReach(Last(run), v, a) && InReach(Last(run), v, b) && a != b
    requires var w := Last(run).servers[v]; w.log != [] && LastTerm(w.log) == w.term
    ensures longer != [] && IsTimelyRun(longer) && run <= longer && Nodes(Last(longer))
    ensures var commands := Commands(Last(run).servers[v].log); var w := Last(longer).servers;
      w[v].executed == commands && commands <= w[a].executed && commands <= w[b].executed
  {
    hide Init, TimelyNext, Next, LastTerm, Commands;
    var done := CanCommit(run, v, a, b);
    longer := ApplyAt(done, v);
    longer := ApplyAt(longer, a);
    longer := ApplyAt(longer, b);
    var s, w := Last(done), Last(done).servers[v];
    assert w.log[..w.commit] == w.log;
    PrefixCommands(w.log, s.servers[a].log, s.servers[a].commit);
    PrefixCommands(w.log, s.servers[b].log, s.servers[b].commit);
  }

  lemma PrefixCommands(log: seq<Entry>, other: seq<Entry>, n: nat)
    requires SamePrefix(log, other, |log|) && |log| <= n <= |other|
    ensures Commands(log) <= Commands(other[..n])
  {
  }
}
