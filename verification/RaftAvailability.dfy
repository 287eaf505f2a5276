/** No reachable state is a dead end: from every timely run, any three servers can elect one of them and
    execute a new command.  The continuation is one the code may take; that it will is not claimed. */
module RaftAvailability {
  import opened RaftServer
  import opened RaftProtocol
  import opened RaftInvariant
  import opened RaftSafety
  import opened RaftRuns
  import opened RaftFreshness
  import opened RaftProgress
  import RaftVotes

  // ----- every winner sets its indices

  lemma {:induction false} SettlingAreServers(run: seq<State>, i: nat)
    requires IsRun(run) && i < |run|
    ensures forall v :: v in run[i].settling ==> v < SERVER_COUNT
  {
    hide Perform, Enabled;
    if i > 0 {
      SettlingAreServers(run, i - 1);
      assert Next(run[i - 1], run[i]);
      var step :| Enabled(run[i - 1], step) && Perform(run[i - 1], step) == run[i];
      SettlingServersStep(run[i - 1], step);
    }
  }

  lemma SettlingServersStep(s: State, step: Step)
    requires Nodes(s) && Enabled(s, step) && forall v :: v in s.settling ==> v < SERVER_COUNT
    ensures forall v :: v in Perform(s, step).settling ==> v < SERVER_COUNT
  {
    hide Serve, Resume;
  }

  lemma {:induction false} SettleAll(run: seq<State>) returns (longer: seq<State>)
    requires IsTimelyRun(run)
    ensures longer != [] && IsTimelyRun(longer) && run <= longer && Nodes(Last(longer)) && Last(longer).settling == {}
    decreases |Last(run).settling|
  {
    hide Init, TimelyNext, Next, SetIndices;
    if Last(run).settling == {} {
      longer := run;
    } else {
      SettlingAreServers(run, |run| - 1);
      var v :| v in Last(run).settling;
      longer := ExtendTimely(run, Settle(v));
      longer := SettleAll(longer);
    }
  }

  // ----- raising a term and deposing a leader

  /** Only terms, votes and roles may differ. */
  ghost predicate SameLogs(s: State, s': State)
    requires Nodes(s) && Nodes(s')
  {
    && s'.settling == s.settling && s'.starting == s.starting
    && forall u :: 0 <= u < SERVER_COUNT ==> s'.servers[u].log == s.servers[u].log
  }

  /** A server that does not lead can time out until its term is at least t. */
  lemma {:induction false} RaiseTerm(run: seq<State>, v: nat, t: nat) returns (longer: seq<State>)
    requires IsTimelyRun(run) && v < SERVER_COUNT && Last(run).settling == {} && !Last(run).servers[v].role.Leader?
    ensures longer != [] && IsTimelyRun(longer) && run <= longer && Nodes(Last(longer))
    ensures SameLogs(Last(run), Last(longer))
    ensures var w := Last(longer).servers; w[v].term >= t && !w[v].role.Leader?
    ensures forall u :: 0 <= u < SERVER_COUNT && u != v ==> Last(longer).servers[u] == Last(run).servers[u]
    decreases t - Last(run).servers[v].term
  {
    hide Init, TimelyNext, Next, VoteCalls;
    if Last(run).servers[v].term >= t {
      longer := run;
    } else {
      longer := ExtendTimely(run, ElectionTimeout(v));
      longer := RaiseTerm(longer, v, t);
    }
  }

  /** A vote request of a newer term makes its receiver a follower and keeps its log. */
  lemma RequestDeposes(s: State, i: nat)
    requires Nodes(s) && Enabled(s, Deliver(i)) && s.calls[i].req.RequestVote?
    requires s.servers[s.calls[i].to].term < s.calls[i].req.term
    ensures var s' := Perform(s, Deliver(i)); var x := s.calls[i].to;
      && SameLogs(s, s') && !s'.servers[x].role.Leader?
      && forall u :: 0 <= u < SERVER_COUNT && u != x ==> s'.servers[u] == s.servers[u]
  {
    hide LogIsStale;
  }

  lemma Depose(run: seq<State>, b: nat, x: nat) returns (longer: seq<State>)
    requires IsTimelyRun(run) && b < SERVER_COUNT && x < SERVER_COUNT && b != x
    requires Last(run).settling == {} && !Last(run).servers[b].role.Leader?
    ensures longer != [] && IsTimelyRun(longer) && run <= longer && Nodes(Last(longer))
    ensures SameLogs(Last(run), Last(longer))
    ensures var w := Last(longer).servers; !w[b].role.Leader? && !w[x].role.Leader?
    ensures forall u :: 0 <= u < SERVER_COUNT && u != b && u != x ==> Last(longer).servers[u] == Last(run).servers[u]
  {
    hide Init, TimelyNext, Next, VoteCalls, Delivered;
    var raised := RaiseTerm(run, b, Last(run).servers[x].term);
    var s := Last(raised);
    var candidate := StartElection(s.servers[b]);
    var j := VoteCallTo(candidate, SERVER_COUNT, x);
    var i := |s.calls| + j;
    var asked := ExtendTimely(raised, ElectionTimeout(b));
    assert Last(asked).calls[i] == VoteCalls(candidate, SERVER_COUNT)[j];
    RequestDeposes(Last(asked), i);
    longer := ExtendTimely(asked, Deliver(i));
  }

  /** A heartbeat of a newer term makes its receiver a follower too. */
  lemma HeartbeatDeposes(s: State, i: nat)
    requires Nodes(s) && Enabled(s, Deliver(i)) && s.calls[i].req.AppendEntries?
    requires s.servers[s.calls[i].to].term < s.calls[i].req.term
    ensures var s' := Perform(s, Deliver(i));
      !s'.servers[s.calls[i].to].role.Leader? && s'.settling == s.settling && s'.starting == s.starting
  {
    hide MergeEntries, PrevMatches;
  }

  lemma DeposeByLeader(run: seq<State>, v: nat, x: nat) returns (longer: seq<State>)
    requires IsTimelyRun(run) && v < SERVER_COUNT && x < SERVER_COUNT && v != x && Last(run).settling == {}
    requires Last(run).servers[v].role.Leader? && Last(run).servers[x].term < Last(run).servers[v].term
    ensures longer != [] && IsTimelyRun(longer) && run <= longer && Nodes(Last(longer)) && Last(longer).settling == {}
    ensures !Last(longer).servers[x].role.Leader?
  {
    hide Init, TimelyNext, Next, Delivered, AppendFor;
    var i := |Last(run).calls|;
    SentInTerm(Last(run).servers[v], x);
    longer := ExtendTimely(run, Heartbeat(v, x));
    assert Last(longer).calls[i] == Call(v, x, AppendFor(Last(run).servers[v], x), InFlight);
    HeartbeatDeposes(Last(longer), i);
    longer := ExtendTimely(longer, Deliver(i));
  }

  // ----- three servers without a leader

  /** One of two servers can be made to follow. */
  lemma OneFollows(run: seq<State>, a: nat, b: nat) returns (longer: seq<State>, x: nat)
    requires IsTimelyRun(run) && a < SERVER_COUNT && b < SERVER_COUNT && a != b && Last(run).settling == {}
    ensures longer != [] && IsTimelyRun(longer) && run <= longer && Nodes(Last(longer)) && Last(longer).settling == {}
    ensures (x == a || x == b) && !Last(longer).servers[x].role.Leader?
  {
    hide Init, TimelyNext, Next;
    var w := Last(run).servers;
    if !w[a].role.Leader? {
      longer, x := run, a;
    } else if !w[b].role.Leader? {
      longer, x := run, b;
    } else {
      if w[a].term == w[b].term {
        RaftVotes.ElectionSafety(run, |run| - 1, |run| - 1, a, b);
      }
      if w[a].term < w[b].term {
        longer := DeposeByLeader(run, b, a);
        x := a;
      } else {
        longer := DeposeByLeader(run, a, b);
        x := b;
      }
    }
  }

  lemma NoLeaders(run: seq<State>, a: nat, b: nat, c: nat) returns (longer: seq<State>)
    requires IsTimelyRun(run) && a < SERVER_COUNT && b < SERVER_COUNT && c < SERVER_COUNT
    requires a != b && a != c && b != c && Last(run).settling == {}
    ensures longer != [] && IsTimelyRun(longer) && run <= longer && Nodes(Last(longer)) && Last(longer).settling == {}
    ensures var w := Last(longer).servers; !w[a].role.Leader? && !w[b].role.Leader? && !w[c].role.Leader?
  {
    hide Init, TimelyNext, Next;
    var x: nat;
    longer, x := OneFollows(run, a, b);
    longer := Depose(longer, x, a + b - x);
    longer := Depose(longer, x, c);
  }

  // ----- electing the freshest

  lemma Freshest(w: seq<Server>, a: nat, b: nat, c: nat) returns (v: nat, p: nat, q: nat)
    requires a < |w| && b < |w| && c < |w| && a != b && a != c && b != c
    ensures {v, p, q} == {a, b, c} && v != p && v != q && p != q && v < |w| && p < |w| && q < |w|
    ensures Fresh(w[v].log, w[p].log) && Fresh(w[v].log, w[q].log)
  {
    hide LogIsStale;
    FreshnessIsTotal(w[a].log, w[b].log, w[c].log);
    FreshnessIsTotal(w[b].log, w[a].log, w[c].log);
    FreshnessIsTotal(w[a].log, w[c].log, w[b].log);
    FreshnessIsTotal(w[b].log, w[c].log, w[a].log);
    FreshnessIsTotal(w[c].log, w[a].log, w[b].log);
    FreshnessIsTotal(w[c].log, w[b].log, w[a].log);
    if Fresh(w[a].log, w[b].log) && Fresh(w[a].log, w[c].log) {
      v, p, q := a, b, c;
    } else if Fresh(w[b].log, w[a].log) && Fresh(w[b].log, w[c].log) {
      v, p, q := b, a, c;
    } else {
      v, p, q := c, a, b;
    }
  }

  lemma WinTimely(run: seq<State>, v: nat, p: nat, q: nat) returns (longer: seq<State>)
    requires IsTimelyRun(run) && v < SERVER_COUNT && p < SERVER_COUNT && q < SERVER_COUNT && v != p && v != q && p != q
    requires Last(run).settling == {}
    requires var w := Last(run).servers;
      && !w[v].role.Leader? && w[p].term <= w[v].term && w[q].term <= w[v].term
      && Fresh(w[v].log, w[p].log) && Fresh(w[v].log, w[q].log)
    ensures longer != [] && IsTimelyRun(longer) && run <= longer && Nodes(Last(longer))
    ensures InReach(Last(longer), v, p) && InReach(Last(longer), v, q)
  {
    hide LateSteps, LogIsStale, Init, Next, TimelyNext;
    TimelyHasNoLate(run);
    longer := WinElection(run, v, p, q);
    NoLateSteps(longer);
  }

  /** Of any three servers one can come to lead, with the other two in reach. */
  lemma CanElect(run: seq<State>, a: nat, b: nat, c: nat) returns (longer: seq<State>, v: nat, p: nat, q: nat)
    requires IsTimelyRun(run) && a < SERVER_COUNT && b < SERVER_COUNT && c < SERVER_COUNT
    requires a != b && a != c && b != c
    ensures longer != [] && IsTimelyRun(longer) && run <= longer && Nodes(Last(longer))
    ensures {v, p, q} == {a, b, c} && v != p && v != q && p != q
    ensures InReach(Last(longer), v, p) && InReach(Last(longer), v, q)
  {
    hide Init, TimelyNext, Next, Fresh, InReach;
    longer := SettleAll(run);
    longer := NoLeaders(longer, a, b, c);
    var w := Last(longer).servers;
    v, p, q := Freshest(w, a, b, c);
    var t := if w[p].term < w[q].term then w[q].term else w[p].term;
    longer := RaiseTerm(longer, v, t);
    longer := WinTimely(longer, v, p, q);
  }

  // ----- serving a command

  lemma PushTimely(run: seq<State>, v: nat, cmd: Command) returns (longer: seq<State>)
    requires IsTimelyRun(run) && v < SERVER_COUNT && Last(run).servers[v].role.Leader?
    requires v !in Last(run).starting
    ensures longer != [] && IsTimelyRun(longer) && run <= longer && Nodes(Last(longer))
    ensures Last(longer).settling == Last(run).settling && v !in Last(longer).starting
    ensures Last(longer).servers == Last(run).servers[v := AppendCommand(Last(run).servers[v], cmd)]
  {
    hide Init, TimelyNext, Next;
    longer := ExtendTimely(run, TestRole(v, cmd));
    longer := ExtendTimely(longer, Push(v));
  }

  /** A Start that is under way at a leader completes. */
  lemma FinishStart(run: seq<State>, v: nat) returns (longer: seq<State>)
    requires IsTimelyRun(run) && v < SERVER_COUNT && Last(run).servers[v].role.Leader?
    ensures longer != [] && IsTimelyRun(longer) && run <= longer && Nodes(Last(longer))
    ensures Last(longer).settling == Last(run).settling && v !in Last(longer).starting
    ensures exists log :: Last(longer).servers == Last(run).servers[v := Last(run).servers[v].(log := log)]
  {
    hide Init, TimelyNext, Next;
    if v in Last(run).starting {
      longer := ExtendTimely(run, Push(v));
    } else {
      longer := run;
      assert Last(run).servers == Last(run).servers[v := Last(run).servers[v].(log := Last(run).servers[v].log)];
    }
  }

  lemma PushKeepsReach(s: State, s': State, v: nat, p: nat, log: seq<Entry>)
    requires InReach(s, v, p) && Nodes(s') && s'.settling == s.settling
    requires s'.servers == s.servers[v := s.servers[v].(log := log)]
    ensures InReach(s', v, p)
  {
  }

  /** From every timely run, for any three servers and any command: there is a timely continuation in
      which one of them leads, all three have executed its log, and the command is the last in it. */
  lemma CanServe(run: seq<State>, a: nat, b: nat, c: nat, cmd: Command)
    returns (longer: seq<State>, v: nat, p: nat, q: nat)
    requires IsTimelyRun(run) && a < SERVER_COUNT && b < SERVER_COUNT && c < SERVER_COUNT
    requires a != b && a != c && b != c
    ensures longer != [] && IsTimelyRun(longer) && run <= longer && Nodes(Last(longer))
    ensures {v, p, q} == {a, b, c} && v < SERVER_COUNT && p < SERVER_COUNT && q < SERVER_COUNT
    ensures var w := Last(longer).servers;
      && w[v].executed != [] && w[v].executed[|w[v].executed| - 1] == cmd
      && w[v].executed <= w[p].executed && w[v].executed <= w[q].executed
  {
    hide Init, TimelyNext, Next;
    var elected;
    elected, v, p, q := CanElect(run, a, b, c);
    var free := FinishStart(elected, v);
    var log :| Last(free).servers == Last(elected).servers[v := Last(elected).servers[v].(log := log)];
    PushKeepsReach(Last(elected), Last(free), v, p, log);
    PushKeepsReach(Last(elected), Last(free), v, q, log);
    var pushed := PushTimely(free, v, cmd);
    var log' := Last(pushed).servers[v].log;
    PushKeepsReach(Last(free), Last(pushed), v, p, log');
    PushKeepsReach(Last(free), Last(pushed), v, q, log');
    longer := CanExecute(pushed, v, p, q);
  }
}
