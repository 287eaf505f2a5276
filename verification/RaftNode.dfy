/** The server object of src/deptran/raft: fields that the handlers update in place, and loops
    over the log and the peers.  Each method is proved to turn the value of the fields into what
    the function of the same name in `RaftServer` says.  Timers and mutexes carry no data. */
module RaftNode {
  import RS = RaftServer
  import RP = RaftProtocol

  class RaftNode {
    const id: nat
    var currentTerm: nat
    var votedFor: int
    var logs: seq<RS.Entry>
    var commitIndex: nat
    var lastApplied: nat
    var executed: seq<RS.Command>  // what app_next_ has received
    var serverState: RS.Role
    const nextIndex: array<int>
    const matchIndex: array<int>
    var votesReceived: nat

    ghost predicate Valid()
      reads this
    {
      && id < RS.SERVER_COUNT
      && nextIndex.Length == RS.SERVER_COUNT && matchIndex.Length == RS.SERVER_COUNT
      && nextIndex != matchIndex
      && lastApplied == |executed|
    }

    ghost function View(): (s: RS.Server)
      requires Valid()
      reads this, nextIndex, matchIndex
      ensures RS.WellFormed(s)
    {
      RS.Server(id, currentTerm, votedFor, logs, commitIndex, executed, serverState,
                nextIndex[..], matchIndex[..], votesReceived)
    }

    constructor (id: nat)
      requires id < RS.SERVER_COUNT
      ensures Valid() && View() == RS.InitialServer(id) && fresh(nextIndex) && fresh(matchIndex)
    {
      this.id := id;
      currentTerm, votedFor, logs := 0, RS.NOBODY, [];
      commitIndex, lastApplied, executed := 0, 0, [];
      serverState, votesReceived := RS.Follower, 0;
      nextIndex := new int[RS.SERVER_COUNT](_ => 0);
      matchIndex := new int[RS.SERVER_COUNT](_ => 0);
    }

    // ----- elections

    method ConvertToFollower(newTerm: nat)
      requires Valid()
      modifies this
      ensures Valid() && View() == RS.ConvertToFollower(old(View()), newTerm)
    {
      var priorState := serverState;
      currentTerm := newTerm;
      serverState := RS.Follower;
      votedFor := RS.NOBODY;
      if priorState == RS.Candidate {
        votesReceived := 0;
      }
    }

    method StartElection() returns (calls: seq<RP.Call>)
      requires Valid()
      modifies this
      ensures Valid() && View() == RS.StartElection(old(View())) && calls == RP.VoteCalls(View(), RS.SERVER_COUNT)
    {
      serverState := RS.Candidate;
      currentTerm := currentTerm + 1;
      votedFor := id;
      votesReceived := 1;
      calls := [];
      for peer := 0 to RS.SERVER_COUNT
        invariant calls == RP.VoteCalls(View(), peer)
      {
        if peer != id {
          var lastLogTerm := if |logs| == 0 then 0 else logs[|logs| - 1].term;
          calls := calls + [RP.Call(id, peer, RS.RequestVote(currentTerm, |logs|, lastLogTerm), RP.InFlight)];
        }
      }
    }

    method HandleRequestVote(candidateTerm: nat, candidateId: nat, lastLogIndex: nat, lastLogTerm: nat)
      returns (reply: RS.Reply)
      requires Valid()
      modifies this
      ensures Valid()
      ensures (View(), reply) ==
              RS.HandleRequestVote(old(View()), candidateId, candidateTerm, lastLogIndex, lastLogTerm)
    {
      if candidateTerm > currentTerm {
        ConvertToFollower(candidateTerm);
      }
      var isStaleRequest := candidateTerm < currentTerm;
      var alreadyVotedForDifferentServer := votedFor != RS.NOBODY && votedFor != candidateId;
      var myLastLogTerm := if |logs| == 0 then 0 else logs[|logs| - 1].term;
      var areLogsStale := lastLogTerm < myLastLogTerm || (lastLogTerm == myLastLogTerm && lastLogIndex < |logs|);
      if isStaleRequest || alreadyVotedForDifferentServer || areLogsStale {
        return RS.Reply(currentTerm, false);
      }
      votedFor := candidateId;
      return RS.Reply(currentTerm, true);
    }

    method HandleVoteResponse(voteGranted: bool, returnedTerm: nat)
      requires Valid()
      modifies this, nextIndex, matchIndex
      ensures Valid() && View() == RS.HandleVoteResponse(old(View()), voteGranted, returnedTerm)
    {
      if returnedTerm > currentTerm {
        ConvertToFollower(returnedTerm);
        return;
      }
      if serverState != RS.Candidate || returnedTerm < currentTerm || !voteGranted {
        return;
      }
      votesReceived := votesReceived + 1;
      if votesReceived >= RS.SERVER_COUNT / 2 + 1 {
        serverState := RS.Leader;
        votesReceived := 0;
        var nextLogIndex := |logs| + 1;
        ghost var before := View();
        for i := 0 to RS.SERVER_COUNT
          invariant Valid() && View() == before.(nextIndex := nextIndex[..], matchIndex := matchIndex[..])
          invariant forall k :: 0 <= k < i ==> nextIndex[k] == nextLogIndex && matchIndex[k] == 0
        {
          nextIndex[i] := nextLogIndex;
          matchIndex[i] := 0;
        }
        assert View().nextIndex == RS.BecomeLeader(before).nextIndex;
        assert View().matchIndex == RS.BecomeLeader(before).matchIndex;
      }
    }

    // ----- log replication

    /** What one round of the heartbeat loop sends to `peer`. */
    method AppendCall(peer: nat) returns (req: RS.Request)
      requires Valid() && peer < RS.SERVER_COUNT
      ensures req == RS.AppendFor(View(), peer)
    {
      var currNextIndex := nextIndex[peer];
      var prevIdx := currNextIndex - 1;
      var prevTerm := 0;
      if prevIdx > 0 && prevIdx <= |logs| {
        prevTerm := logs[prevIdx - 1].term;
      }
      var entries := [];
      if currNextIndex >= 1 && currNextIndex <= |logs| {
        entries := logs[currNextIndex - 1..];
      }
      var sentUpToIndex := currNextIndex - 1 + |entries|;
      req := RS.AppendEntries(currentTerm, prevIdx, prevTerm, entries, commitIndex, sentUpToIndex);
    }

    method Heartbeat() returns (calls: seq<RP.Call>)
      requires Valid()
      ensures calls == if serverState == RS.Leader then RP.HeartbeatCalls(View(), RS.SERVER_COUNT) else []
    {
      hide RS.AppendFor;
      calls := [];
      if serverState == RS.Leader {
        for peer := 0 to RS.SERVER_COUNT
          invariant calls == RP.HeartbeatCalls(View(), peer)
        {
          if peer != id {
            var req := AppendCall(peer);
            calls := calls + [RP.Call(id, peer, req, RP.InFlight)];
          }
        }
      }
    }

    method HandleAppendEntries(term: nat, prevLogIndex: int, prevLogTerm: nat, entries: seq<RS.Entry>,
                               leaderCommit: nat)
      returns (reply: RS.Reply)
      requires Valid()
      modifies this
      ensures Valid()
      ensures (View(), reply) ==
              RS.HandleAppendEntries(old(View()), term, prevLogIndex, prevLogTerm, entries, leaderCommit)
    {
      if term > currentTerm {
        ConvertToFollower(term);
      }
      if term < currentTerm {
        return RS.Reply(currentTerm, false);
      }
      if prevLogIndex != 0 {
        if prevLogIndex < 0 || prevLogIndex > |logs| {
          return RS.Reply(currentTerm, false);
        }
        if logs[prevLogIndex - 1].term != prevLogTerm {
          return RS.Reply(currentTerm, false);
        }
      }
      if serverState == RS.Candidate {
        serverState := RS.Follower;
      }
      Merge(prevLogIndex, entries);
      if leaderCommit > commitIndex {
        commitIndex := if leaderCommit < |logs| then leaderCommit else |logs|;
      }
      return RS.Reply(currentTerm, true);
    }

    /** The accept loop of HandleAppendEntries. */
    method Merge(prevLogIndex: nat, entries: seq<RS.Entry>)
      requires Valid() && prevLogIndex <= |logs|
      modifies this`logs
      ensures logs == RS.MergeEntries(old(logs), prevLogIndex, entries)
    {
      var i := 0;
      while i < |entries|
        invariant 0 <= i <= |entries| && logs == old(logs) && prevLogIndex + i <= |logs|
        invariant RS.MergeEntries(logs, prevLogIndex, entries) == RS.MergeEntries(logs, prevLogIndex + i, entries[i..])
      {
        var at := prevLogIndex + i;
        if at >= |logs| || logs[at].term != entries[i].term {
          logs := logs[..at];
          var j := i;
          while j < |entries|
            invariant i <= j <= |entries| && logs == old(logs)[..at] + entries[i..j]
          {
            logs := logs + [entries[j]];
            j := j + 1;
          }
          return;
        }
        assert entries[i..][1..] == entries[i + 1..];
        i := i + 1;
      }
      assert entries[i..] == [];
    }

    method HandleAppendResponse(success: bool, returnedTerm: nat, followerId: nat, sentUpToIndex: int)
      requires Valid() && followerId < RS.SERVER_COUNT
      modifies this, nextIndex, matchIndex
      ensures Valid()
      ensures View() == RS.HandleAppendResponse(old(View()), success, returnedTerm, followerId, sentUpToIndex)
    {
      if returnedTerm > currentTerm {
        ConvertToFollower(returnedTerm);
        return;
      }
      if serverState != RS.Leader || returnedTerm < currentTerm {
        return;
      }
      if success {
        matchIndex[followerId] := sentUpToIndex;
        nextIndex[followerId] := sentUpToIndex + 1;
        assert View() == RS.RecordMatch(old(View()), followerId, sentUpToIndex);
        AdvanceCommit();
      } else {
        nextIndex[followerId] := nextIndex[followerId] - 1;
        assert View() == RS.BackOff(old(View()), followerId);
      }
    }

    /** The commit scan of HandleAppendResponse. */
    method AdvanceCommit()
      requires Valid()
      modifies this`commitIndex
      ensures View() == RS.AdvanceCommit(old(View()))
    {
      var i := |logs|;
      while i > commitIndex
        invariant 0 <= i <= |logs| && commitIndex == old(commitIndex)
        invariant RS.CommitScan(View(), |logs|) == RS.CommitScan(View(), i)
      {
        if logs[i - 1].term == currentTerm {
          var count := 1;
          for j := 0 to RS.SERVER_COUNT
            invariant count == 1 + RS.Holders(matchIndex[..], id, i, j)
          {
            if j != id && matchIndex[j] >= i {
              count := count + 1;
            }
          }
          if count > RS.SERVER_COUNT / 2 {
            commitIndex := i;
            return;
          }
        }
        i := i - 1;
      }
    }

    // ----- the client and the state machine

    /** The first half of Start, up to the role test. */
    method TestRole() returns (leads: bool)
      requires Valid()
      ensures leads == View().role.Leader?
    {
      leads := serverState == RS.Leader;
    }

    /** The push of Start; the role may have changed since the test, and is not tested again. */
    method Push(cmd: RS.Command)
      requires Valid()
      modifies this`logs
      ensures Valid() && View() == RS.AppendCommand(old(View()), cmd)
      ensures logs == old(logs) + [RS.Entry(cmd, currentTerm)]
    {
      logs := logs + [RS.Entry(cmd, currentTerm)];
    }

    /** What Start reports once it has released the log; RaftTicket says when this names the pushed entry. */
    method Ticket() returns (index: nat, term: nat)
      requires Valid()
      ensures (index, term) == RS.Ticket(View())
    {
      index := |logs|;
      term := currentTerm;
    }

    method ApplyCommitted()
      requires Valid()
      modifies this`lastApplied, this`executed
      ensures Valid() && View() == RS.ApplyCommitted(old(View()))
    {
      var first := lastApplied;
      while lastApplied < commitIndex && lastApplied < |logs|
        invariant Valid() && first <= lastApplied
        invariant lastApplied == first || (lastApplied <= commitIndex && lastApplied <= |logs|)
        invariant first <= |logs| ==>
          lastApplied <= |logs| && executed == old(executed) + RS.Commands(logs[first..lastApplied])
        invariant first > |logs| ==> executed == old(executed)
        decreases |logs| - lastApplied
      {
        lastApplied := lastApplied + 1;
        executed := executed + [logs[lastApplied - 1].cmd];
        assert RS.Commands(logs[first..lastApplied]) ==
          RS.Commands(logs[first..lastApplied - 1]) + [logs[lastApplied - 1].cmd];
      }
    }
  }
}
