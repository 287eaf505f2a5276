/** Five servers and every remote call ever made between them.  A call is delivered at most once
    and its reply is handled at most once, in any order; a call that is never delivered, or whose
    reply is never handled, is a lost one.  Each handler runs as one atomic step, but for the winner
    of an election, which first takes the role and then sets its indices.  A client's command takes
    two steps: its thread tests the role, and later pushes the entry. */
module RaftProtocol {
  import opened RaftServer

  datatype Status = InFlight | Replied(reply: Reply) | Handled(reply: Reply)

  datatype Call = Call(from: nat, to: nat, req: Request, status: Status)

  /** `starting` holds the commands that have passed the role test of a server and are not yet in its
      log, at most one per server, as the test and the push share a mutex.  `settling` holds the
      servers inside the winning branch of the vote callback, between its two halves. */
  datatype State = State(servers: seq<Server>, calls: seq<Call>, starting: map<nat, Command>, settling: set<nat>)

  predicate Nodes(s: State) {
    && |s.servers| == SERVER_COUNT
    && (forall v :: 0 <= v < SERVER_COUNT ==> s.servers[v].id == v && WellFormed(s.servers[v]))
    && (forall i :: 0 <= i < |s.calls| ==>
          s.calls[i].from < SERVER_COUNT && s.calls[i].to < SERVER_COUNT && s.calls[i].from != s.calls[i].to)
  }

  predicate Init(s: State)
    ensures Init(s) ==> Nodes(s)
  {
    && |s.servers| == SERVER_COUNT
    && (forall v :: 0 <= v < SERVER_COUNT ==> s.servers[v] == InitialServer(v))
    && s.calls == [] && s.starting == map[] && s.settling == {}
  }

  /** One call to each of the first `peers` servers but the caller. */
  function VoteCalls(s: Server, peers: nat): (calls: seq<Call>)
    requires peers <= SERVER_COUNT
    ensures forall i :: 0 <= i < |calls| ==> calls[i].from == s.id && calls[i].to < peers && calls[i].to != s.id
  {
    if peers == 0 then []
    else VoteCalls(s, peers - 1) +
         if peers - 1 == s.id then []
         else [Call(s.id, peers - 1, RequestVote(s.term, |s.log|, LastTerm(s.log)), InFlight)]
  }

  /** What one round of the heartbeat loop sends; each call is a step of its own, as clients may push
      entries while the loop runs. */
  function HeartbeatCalls(s: Server, peers: nat): seq<Call>
    requires WellFormed(s) && peers <= SERVER_COUNT
  {
    if peers == 0 then []
    else HeartbeatCalls(s, peers - 1) +
         if peers - 1 == s.id then [] else [Call(s.id, peers - 1, AppendFor(s, peers - 1), InFlight)]
  }

  /** The reply the callee computes for a call, and the callee afterwards. */
  function Serve(callee: Server, c: Call): (Server, Reply) {
    match c.req
    case RequestVote(term, lastLogIndex, lastLogTerm) =>
      HandleRequestVote(callee, c.from, term, lastLogIndex, lastLogTerm)
    case AppendEntries(term, prevLogIndex, prevLogTerm, entries, leaderCommit, _) =>
      HandleAppendEntries(callee, term, prevLogIndex, prevLogTerm, entries, leaderCommit)
  }

  /** The caller after the callback of a call has run on its reply; a winner's indices are set again
      when it settles, and no other step of its own comes in between. */
  function Resume(caller: Server, c: Call, r: Reply): Server
    requires WellFormed(caller) && c.to < SERVER_COUNT
  {
    match c.req
    case RequestVote(_, _, _) => HandleVoteResponse(caller, r.ok, r.term)
    case AppendEntries(_, _, _, _, _, sentUpTo) => HandleAppendResponse(caller, r.ok, r.term, c.to, sentUpTo)
  }

  datatype Step =
    | ElectionTimeout(v: nat)
    | Heartbeat(v: nat, peer: nat)
    | Deliver(i: nat)
    | Return(i: nat)
    | Settle(v: nat)
    | TestRole(v: nat, cmd: Command)
    | Push(v: nat)
    | Apply(v: nat)

  predicate Enabled(s: State, step: Step)
    requires Nodes(s)
  {
    match step
    case ElectionTimeout(v) => v < SERVER_COUNT && v !in s.settling && !s.servers[v].role.Leader?
    case Heartbeat(v, peer) =>
      v < SERVER_COUNT && v !in s.settling && s.servers[v].role.Leader? && peer < SERVER_COUNT && peer != v
    case Deliver(i) => i < |s.calls| && s.calls[i].to !in s.settling && s.calls[i].status.InFlight?
    case Return(i) => i < |s.calls| && s.calls[i].from !in s.settling && s.calls[i].status.Replied?
    case Settle(v) => v < SERVER_COUNT && v in s.settling
    case TestRole(v, _) => v < SERVER_COUNT && v !in s.starting
    case Push(v) => v < SERVER_COUNT && v in s.starting
    case Apply(v) => v < SERVER_COUNT && v !in s.settling
  }

  function Delivered(s: State, i: nat): (s': State)
    requires Nodes(s) && i < |s.calls|
    ensures Nodes(s')
  {
    var c := s.calls[i];
    var (callee, reply) := Serve(s.servers[c.to], c);
    s.(servers := s.servers[c.to := callee], calls := s.calls[i := c.(status := Replied(reply))])
  }

  function Returned(s: State, i: nat): (s': State)
    requires Nodes(s) && i < |s.calls| && s.calls[i].status.Replied?
    ensures Nodes(s')
  {
    var c := s.calls[i];
    var caller, resumed := s.servers[c.from], Resume(s.servers[c.from], c, c.status.reply);
    s.(servers := s.servers[c.from := resumed],
       calls := s.calls[i := c.(status := Handled(c.status.reply))],
       settling := if resumed.role.Leader? && !caller.role.Leader? then s.settling + {c.from} else s.settling)
  }

  function Perform(s: State, step: Step): (s': State)
    requires Nodes(s) && Enabled(s, step)
    ensures Nodes(s')
  {
    match step
    case ElectionTimeout(v) =>
      var candidate := StartElection(s.servers[v]);
      s.(servers := s.servers[v := candidate], calls := s.calls + VoteCalls(candidate, SERVER_COUNT))
    case Heartbeat(v, peer) =>
      s.(calls := s.calls + [Call(v, peer, AppendFor(s.servers[v], peer), InFlight)])
    case Deliver(i) => Delivered(s, i)
    case Return(i) => Returned(s, i)
    case Settle(v) => s.(servers := s.servers[v := SetIndices(s.servers[v])], settling := s.settling - {v})
    case TestRole(v, cmd) => if s.servers[v].role.Leader? then s.(starting := s.starting[v := cmd]) else s
    case Push(v) =>
      s.(servers := s.servers[v := AppendCommand(s.servers[v], s.starting[v])], starting := s.starting - {v})
    case Apply(v) => s.(servers := s.servers[v := ApplyCommitted(s.servers[v])])
  }

  ghost predicate Next(s: State, s': State)
    requires Nodes(s)
  {
    exists step :: Enabled(s, step) && Perform(s, step) == s'
  }

  /** A finite execution: it starts in the initial state and every further state comes from the
      one before it by a step.  (Nodes is no restriction: Init and Perform guarantee it.) */
  ghost predicate IsRun(run: seq<State>) {
    && |run| > 0
    && Init(run[0])
    && (forall i :: 0 <= i < |run| ==> Nodes(run[i]))
    && (forall i :: 0 < i < |run| ==> Next(run[i - 1], run[i]))
  }

  /** The push finds its server no longer leading, although the role test found it leading. */
  predicate LatePush(s: State, step: Step)
    requires Nodes(s) && Enabled(s, step)
  {
    step.Push? && !s.servers[step.v].role.Leader?
  }

  ghost predicate TimelyNext(s: State, s': State)
    requires Nodes(s)
  {
    exists step :: Enabled(s, step) && !LatePush(s, step) && Perform(s, step) == s'
  }

  /** A run in which every push finds its server leading. */
  ghost predicate IsTimelyRun(run: seq<State>) {
    IsRun(run) && forall i :: 0 < i < |run| ==> TimelyNext(run[i - 1], run[i])
  }
}
