/** One Raft server as a value: its fields, and what each handler of the server computes from
    them.  `RaftNode` (in RaftNode.dfy) is the object that updates its fields in place and is
    proved to compute exactly these functions; `RaftProtocol` lets five of them exchange calls. */
module RaftServer {

  const SERVER_COUNT := 5
  const NOBODY := -1

  /** Commands are opaque to Raft; only their identity matters. */
  type Command = int

  datatype Role = Follower | Leader | Candidate

  datatype Entry = Entry(cmd: Command, term: nat)

  /** `executed` is what the server has handed to its state machine so far, so the source's
      `lastApplied` is its length.  Log index i of the source is position i - 1 here. */
  datatype Server = Server(
    id: nat,
    term: nat,
    votedFor: int,
    log: seq<Entry>,
    commit: nat,
    executed: seq<Command>,
    role: Role,
    nextIndex: seq<int>,
    matchIndex: seq<int>,
    votes: nat)

  /** What a server asks of a peer.  `sentUpTo` never travels: the reply callback captures it. */
  datatype Request =
    | RequestVote(term: nat, lastLogIndex: nat, lastLogTerm: nat)
    | AppendEntries(term: nat, prevLogIndex: int, prevLogTerm: nat, entries: seq<Entry>,
                    leaderCommit: nat, sentUpTo: int)

  datatype Reply = Reply(term: nat, ok: bool)

  predicate WellFormed(s: Server) {
    s.id < SERVER_COUNT && |s.nextIndex| == SERVER_COUNT && |s.matchIndex| == SERVER_COUNT
  }

  function InitialServer(id: nat): Server {
    Server(id, 0, NOBODY, [], 0, [], Follower,
           seq(SERVER_COUNT, _ => 0), seq(SERVER_COUNT, _ => 0), 0)
  }

  function LastTerm(log: seq<Entry>): nat {
    if log == [] then 0 else log[|log| - 1].term
  }

  // ----- elections

  function ConvertToFollower(s: Server, newTerm: nat): Server {
    s.(term := newTerm, role := Follower, votedFor := NOBODY,
       votes := if s.role.Candidate? then 0 else s.votes)
  }

  /** The rule applied to every incoming request and reply. */
  function ObserveTerm(s: Server, term: nat): Server {
    if term > s.term then ConvertToFollower(s, term) else s
  }

  function StartElection(s: Server): Server {
    s.(role := Candidate, term := s.term + 1, votedFor := s.id, votes := 1)
  }

  predicate LogIsStale(lastLogIndex: nat, lastLogTerm: nat, log: seq<Entry>) {
    lastLogTerm < LastTerm(log) || (lastLogTerm == LastTerm(log) && lastLogIndex < |log|)
  }

  predicate GrantsVote(s: Server, candidate: nat, candidateTerm: nat, lastLogIndex: nat, lastLogTerm: nat) {
    && candidateTerm >= s.term
    && (s.votedFor == NOBODY || s.votedFor == candidate)
    && !LogIsStale(lastLogIndex, lastLogTerm, s.log)
  }

  function HandleRequestVote(s: Server, candidate: nat, candidateTerm: nat,
                             lastLogIndex: nat, lastLogTerm: nat): (Server, Reply) {
    var s1 := ObserveTerm(s, candidateTerm);
    if GrantsVote(s1, candidate, candidateTerm, lastLogIndex, lastLogTerm)
    then (s1.(votedFor := candidate), Reply(s1.term, true))
    else (s1, Reply(s1.term, false))
  }

  predicate CountsVote(s: Server, granted: bool, term: nat) {
    s.role.Candidate? && term == s.term && granted
  }

  function CountVote(s: Server): Server {
    s.(votes := s.votes + 1)
  }

  function BecomeLeader(s: Server): Server {
    s.(role := Leader, votes := 0,
       nextIndex := seq(SERVER_COUNT, _ => |s.log| + 1), matchIndex := seq(SERVER_COUNT, _ => 0))
  }

  /** The second half of taking the lead: the indices are set from the log of that moment, to which
      clients may have pushed since the role was set. */
  function SetIndices(s: Server): Server {
    s.(nextIndex := seq(SERVER_COUNT, _ => |s.log| + 1), matchIndex := seq(SERVER_COUNT, _ => 0))
  }

  function HandleVoteResponse(s: Server, granted: bool, term: nat): Server {
    if term > s.term then ConvertToFollower(s, term)
    else if !CountsVote(s, granted, term) then s
    else if CountVote(s).votes >= SERVER_COUNT / 2 + 1 then BecomeLeader(CountVote(s))
    else CountVote(s)
  }

  // ----- log replication

  /** The call the heartbeat loop sends to `peer`: everything from nextIndex on. */
  function AppendFor(s: Server, peer: nat): (r: Request)
    requires WellFormed(s) && peer < SERVER_COUNT
    ensures r.AppendEntries?
  {
    var next := s.nextIndex[peer];
    var prev := next - 1;
    var prevTerm := if 0 < prev <= |s.log| then s.log[prev - 1].term else 0;
    var entries := if 1 <= next <= |s.log| then s.log[next - 1..] else [];
    AppendEntries(s.term, prev, prevTerm, entries, s.commit, next - 1 + |entries|)
  }

  /** prevLogIndex travels as an unsigned 64-bit number, so a negative one arrives as a value
      beyond every log length and fails the length test. */
  predicate PrevMatches(log: seq<Entry>, prevLogIndex: int, prevLogTerm: nat) {
    prevLogIndex == 0 || (0 < prevLogIndex <= |log| && log[prevLogIndex - 1].term == prevLogTerm)
  }

  /** Entries are skipped while the log already holds their term; the first one that differs
      or is missing cuts the log there and everything from it on is appended. */
  function MergeEntries(log: seq<Entry>, at: nat, entries: seq<Entry>): seq<Entry>
    requires at <= |log|
    decreases |entries|
  {
    if entries == [] then log
    else if at == |log| || log[at].term != entries[0].term then log[..at] + entries
    else MergeEntries(log, at + 1, entries[1..])
  }

  function AcceptEntries(s: Server, prevLogIndex: nat, entries: seq<Entry>, leaderCommit: nat): Server
    requires prevLogIndex <= |s.log|
  {
    var log := MergeEntries(s.log, prevLogIndex, entries);
    s.(role := if s.role.Candidate? then Follower else s.role,
       log := log,
       commit := if leaderCommit <= s.commit then s.commit
                 else if leaderCommit < |log| then leaderCommit else |log|)
  }

  function HandleAppendEntries(s: Server, term: nat, prevLogIndex: int, prevLogTerm: nat,
                               entries: seq<Entry>, leaderCommit: nat): (Server, Reply) {
    var s1 := ObserveTerm(s, term);
    if term < s1.term || !PrevMatches(s1.log, prevLogIndex, prevLogTerm)
    then (s1, Reply(s1.term, false))
    else (AcceptEntries(s1, prevLogIndex, entries, leaderCommit), Reply(s1.term, true))
  }

  /** How many of the first `peers` servers, other than `id`, are known to hold `index`. */
  function Holders(matchIndex: seq<int>, id: nat, index: nat, peers: nat): nat
    requires peers <= |matchIndex|
  {
    if peers == 0 then 0
    else Holders(matchIndex, id, index, peers - 1) +
         if peers - 1 != id && matchIndex[peers - 1] >= index then 1 else 0
  }

  predicate Committable(s: Server, index: nat)
    requires 1 <= index <= |s.log|
  {
    s.log[index - 1].term == s.term && 1 + Holders(s.matchIndex, s.id, index, |s.matchIndex|) > SERVER_COUNT / 2
  }

  /** The scan from the end of the log down to the commit index. */
  function CommitScan(s: Server, index: nat): nat
    requires index <= |s.log|
  {
    if index <= s.commit then s.commit
    else if Committable(s, index) then index
    else CommitScan(s, index - 1)
  }

  function RecordMatch(s: Server, peer: nat, sentUpTo: int): Server
    requires WellFormed(s) && peer < SERVER_COUNT
  {
    s.(matchIndex := s.matchIndex[peer := sentUpTo], nextIndex := s.nextIndex[peer := sentUpTo + 1])
  }

  function AdvanceCommit(s: Server): Server {
    s.(commit := CommitScan(s, |s.log|))
  }

  function BackOff(s: Server, peer: nat): Server
    requires WellFormed(s) && peer < SERVER_COUNT
  {
    s.(nextIndex := s.nextIndex[peer := s.nextIndex[peer] - 1])
  }

  function HandleAppendResponse(s: Server, ok: bool, term: nat, peer: nat, sentUpTo: int): Server
    requires WellFormed(s) && peer < SERVER_COUNT
  {
    if term > s.term then ConvertToFollower(s, term)
    else if !s.role.Leader? || term < s.term then s
    else if ok then AdvanceCommit(RecordMatch(s, peer, sentUpTo))
    else BackOff(s, peer)
  }

  // ----- the client and the state machine

  /** The push of a client's command.  The term is read here, after and apart from the role test. */
  function AppendCommand(s: Server, cmd: Command): Server {
    s.(log := s.log + [Entry(cmd, s.term)])
  }

  /** The index and term that Start reports to its client, read some time after the push. */
  function Ticket(s: Server): (nat, nat) {
    (|s.log|, s.term)
  }

  function Commands(log: seq<Entry>): (cmds: seq<Command>)
    ensures |cmds| == |log|
    ensures forall k :: 0 <= k < |log| ==> cmds[k] == log[k].cmd
  {
    seq(|log|, k requires 0 <= k < |log| => log[k].cmd)
  }

  function ApplyCommitted(s: Server): Server {
    var upTo := if s.commit < |s.log| then s.commit else |s.log|;
    if |s.executed| < upTo then s.(executed := s.executed + Commands(s.log[|s.executed|..upTo])) else s
  }
}
