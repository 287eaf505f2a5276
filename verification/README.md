# Verification of the DepFast Raft server and its benchmark controller

This project models, in Dafny, the hard parts of the repository and proves what they promise, for
every input, every run and every reachable state.

* **The Raft server** (`src/deptran/raft`). `RaftServer` gives each handler as a function on a
  server's fields, `RaftNode` is the object that updates those fields in place and is proved to
  compute exactly these functions, and `RaftProtocol` lets five servers exchange calls that may be
  reordered, delayed or lost, while clients' threads test a server's role and push commands.
  `RaftInvariant`, `RaftBallots`, `RaftPreservation`, `RaftElection` and `RaftReplication` hold the
  inductive invariant and its proof, `RaftSafety` the theorems about logs and executed commands, and
  `RaftVotes` election safety, each about any two moments of any run. `RaftFreshness`, `RaftProgress`
  and `RaftAvailability` say what must be possible: which requests are granted, how much is committed,
  and that any three servers can always execute a new command. `RaftRuns` builds concrete
  runs: `RaftLatePush` is one in which the code breaks the theorems about logs, `RaftBackOff` has one
  in which a peer is starved, and `RaftTicket` one in which a client is told a wrong position, the
  latter two with the exact condition for it.
* **The server start-up handshake** (`run.py`): two processes, one lock and condition variable and
  one shared value, as a step machine (`Handshake`).
* **The benchmark recorder** (`run.py`): the per-type record (`TxnRecord`), the data block printed for
  it (`DataBlocks`), the recording window
  (`Window`), the controller over whole runs of heartbeats (`Recording`), its latency lists over
  whole runs (`Latencies`) and the objects that update all this in place (`BenchmarkController`);
  `RecordingRuns` holds two short runs. `FaultInjection` adds the two fault experiments, and
  `FaultRecording` ties their heartbeats to the controller's.
* **The placement allocator and the layout pipeline** (`pylib/placement_strategy.py` feeding
  `run.py`): `Hosts`, `RoundRobin`, `Placement`, `Decimal`, `Layout`, `ProcessInfo`, `Pipeline`.
* **Smaller algorithms**: merging of trial tables (`Tables`), trial division (`Prime`), and the
  reader that recovers data blocks from a log (`LogReader`). `Basics` and `Sorting` are shared.

The code is written as loops and objects where the source is: a class with `modifies` clauses for
objects updated in place, an `array` for a list overwritten in place, methods with loop invariants
for loops. Each such method is proved equal to a function, and the theorems are about the functions.

## What the proofs show about the code

* `Start` tests the role, and later, without testing it again, pushes the command with the term it
  reads then. A server that steps down in between pushes an entry into a term it does not lead. One
  run of this kind breaks log matching, leader completeness and state machine safety together
  (`RaftLatePush.LatePushBreaksSafety`): two servers execute different commands at the same index.
  All three hold in every run in which each push finds its server leading (`RaftSafety`), which a
  second test of the role at the push would guarantee, made under the lock that stepping down takes.
  Stepping down stores the new term before the new role; a push between the two stores reads the new
  term and counts as late, although the role still says leader.
  Election safety holds in every run (`RaftVotes.ElectionSafety`). Not every late push does harm, so
  the condition is sufficient only.
* No state of a timely run is a dead end: any three servers can elect the one with the freshest log
  and execute a new command on all three (`RaftAvailability.CanServe`). Nothing says that they will.
* The winner of an election takes the role before it sets its indices, and clients may push in
  between. This is harmless (`RaftSafety.SettleKeeps`).
* A follower takes `min(leaderCommit, log size)` as its commit index, not the index of the last new
  entry. This is safe here: every call a leader sends carries a commit index that its own entries
  reach (`RaftPreservation.AppendForOk`).
* Rejections lower a peer's next index without a floor. Two refusals of calls that were in flight
  together take it to 0 (`RaftBackOff.IndexReachesZero`). While a server leads one term, an index of
  at least 1 stays so if and only if every refusal handled in that term finds it at 2 or more
  (`RaftBackOff.PositiveExactlyWhen`). Once it is below 1, everything the leader sends that peer is
  rejected until the success of an older call arrives (`RaftBackOff.NothingNewAccepted`).
* `Start` reads the index and the term that it reports to its client after it has released the log.
  They name the pushed entry if and only if the server is still in the term of the push when it reads
  the term (`RaftTicket.TicketExactlyWhen`). A server that is deposed in between can report a position
  that holds another command (`RaftTicket.TicketMisleads`).
* An exception that hits the heartbeat process inside a critical section leaves the lock held: the
  handler takes the re-entrant lock once more, releases it once and ends. If the waiting process has
  still to take the lock, it never does (`Handshake.StuckRun`). Both processes can end well if and
  only if there was no such exception, nor one in the handler before it has signalled
  (`Handshake.EveryRunCanFinish`).
* If `client_run` raises, nobody resets the shared value, and the heartbeat process goes on looking at
  it. It is not a daemon, so the exit of the program waits for it. Without a further exception in that
  process it ends if and only if one had already hit it (`Handshake.FailedRunEnds`, with
  `Handshake.SpinningRun` for a run that comes round to the same state).
* Heartbeats at exactly 90 % alternately open and close the recording window, so it can open more
  than once: progress 50, 90, 90 opens it twice (`Window.OpensTwice`). `Window.OpensAtMostOnce`
  gives the exact condition, and later windows print the first window's counts again
  (`Recording.LaterPrintsRepeat`, with `RecordingRuns.SecondWindowRepeats` for a run).
* A transaction type that first appears inside a window makes `client_run` raise when the window
  closes, as its recorded time is zero (`Recording.NewTypeStops`, with `RecordingRuns.NewTypeEndsRun`
  for a run).
* In the CPU experiment only the first window runs under the fault
  (`FaultInjection.Exp1CoversFirstWindowOnly`, and `Exp1SecondWindowUncovered` for a run with a
  second window); the network experiment injects again each time.
* The network experiment leaves its hosts delayed exactly when a heartbeat raises while the delay is
  in force, as a record that cannot be printed does at the close of a window: the delete command
  comes after the print, and the clean-up after the loop is skipped
  (`FaultInjection.Exp5LeftDelayed`, with `Exp5PrintRaises` for a run). A transaction type that first
  appears inside the first window has this effect (`FaultRecording.NewTypeLeavesDelay`).
* `mid_all_latencies` grows by all earlier latencies on every push, not by the new ones
  (`Latencies.LatenciesAtClose`).
* The index `median` returns holds the returned value except when the maximum is zero and the first
  entry is not (`Tables.MedianIsATrial`, with `MedianNotATrial` for a list where it fails);
  throughputs are never negative, so this does not occur in the tables.
* The comment on `mid_status` says its final value is 3; the code ends at 2 after one window.

## Model

| member | source | states |
|---|---|---|
| RaftVotes.ElectionSafety | src/deptran/raft/server.cc:143-191 | two servers that lead the same term, at any two moments of any run, late pushes included, are the same server |
| RaftVotes.RunVotes | src/deptran/raft/server.cc:299-349 | every state of every run satisfies the invariant on votes, tallies and leaders, and no leader on record is forgotten |
| RaftVotes.StepVotes | src/deptran/raft/service.cc:17-67 | every enabled step, a late push too, keeps that invariant |
| RaftLatePush.LatePushBreaksSafety | src/deptran/raft/server.cc:386-403 | a run with no more than one late push that leaves two servers with different entries of the same index and term, different executed commands, and a later leader without a committed entry |
| RaftLatePush.TwoEntries | src/deptran/raft/server.cc:396-403 | the part of that run that breaks log matching |
| RaftBackOff.IndexReachesZero | src/deptran/raft/server.cc:257-266 | a run with no late push in which a leader holds an entry its peer lacks and the peer's next index is 0 |
| RaftBackOff.PositiveExactlyWhen | src/deptran/raft/server.cc:208-266 | while a server leads one term, in any run, a next index of at least 1 stays so if and only if every refusal it handles in that term finds it at 2 or more |
| RaftBackOff.IndexStep | src/deptran/raft/server.cc:193-272 | a refusal in the leader's term lowers the index by one, and no other step lowers it or sets it below 1 |
| RaftBackOff.NothingNewAccepted | src/deptran/raft/server.cc:257-266 | while a server leads one term with a next index below 1, every call it sends that peer has been or will be refused, unless the success of an older call was handled |
| RaftBackOff.NegativeIsRejected | src/deptran/raft/service.cc:112-134 | a call with a negative previous index is refused by every server and changes no log |
| RaftSafety.LogMatching | src/deptran/raft/service.cc:112-171 | two logs with the same term at an index, at any two moments of a run whose pushes find their server leading, agree on everything up to it |
| RaftSafety.LeaderCompleteness | src/deptran/raft/service.cc:33-66 | in such a run, what any server has committed is in the log of every leader of the same or a higher term, then and later |
| RaftSafety.StateMachineSafety | src/deptran/raft/server.cc:120-140 | in such a run, of the command sequences two servers have executed, at any two moments, one is a prefix of the other |
| RaftSafety.LeaderAppendOnly | src/deptran/raft/server.cc:396-403 | in such a run, a server that leads the same term at two moments has only added to its log in between |
| RaftTicket.TicketExactlyWhen | src/deptran/raft/server.cc:396-449 | in such a run, the index and the term that Start reads after its push, at two later moments, are those of the pushed entry, still in its place, if and only if the server is in the term of the push when it reads the term |
| RaftTicket.TicketMisleads | src/deptran/raft/server.cc:396-449 | a run with no late push in which a deposed server reports for its command the index and term of another |
| RaftTicket.LogStays | src/deptran/raft/server.cc:193-272 | from a moment at which a server leads, its log is the same as long as its term is and no other Start is under way on it |
| RaftAvailability.CanServe | src/deptran/raft/server.cc:32-449 | from every such run, for any three servers and any command, there is a continuation with no late push in which one of them leads, all three have executed its log, and the command is the last in it |
| RaftAvailability.CanElect | src/deptran/raft/server.cc:143-349 | from every such run, of any three servers one can come to lead with the other two in its term or before and next indices of at least 1 |
| RaftProgress.CanExecute | src/deptran/raft/server.cc:60-272 | a leader whose last entry is its own, with two peers in reach, can have its whole log committed and executed on all three |
| RaftProgress.CatchUp | src/deptran/raft/server.cc:66-110 | a peer in reach can be brought to hold the leader's whole log, after as many refusals as it takes, and the leader then knows it and has nothing more to commit |
| RaftProgress.CommitsHighest | src/deptran/raft/server.cc:229-253 | the commit index moves to the highest index above it that three servers hold and whose entry is of the leader's term, and stays if there is none |
| RaftProgress.AcceptsExactlyWhen | src/deptran/raft/service.cc:86-234 | an append call is accepted if and only if it is not of an older term and the log has the previous entry; the commit index then reaches the leader's as far as the log goes |
| RaftProgress.AppliesAll | src/deptran/raft/server.cc:122-135 | in every state of such a run, an apply leaves exactly the commands of the committed log executed |
| RaftFreshness.GrantsExactlyWhen | src/deptran/raft/service.cc:17-67 | a vote is granted if and only if the request is not of an older term, the vote of its term is not somebody else's, and the candidate's last term and index are lexicographically at least the voter's; what the voter remembers |
| RaftFreshness.FreshnessIsTotal | src/deptran/raft/service.cc:41-49 | the comparison of logs is a total preorder |
| RaftFreshness.ExtensionIsFresh | src/deptran/raft/service.cc:41-49 | a log that extends the voter's with terms that do not decrease passes its test |
| RaftSafety.CommittedForGood | src/deptran/raft/server.cc:120-140 | in such a run a server's commit index never shrinks, its committed entries never change, and its executed sequence only grows |
| RaftSafety.RunInvariant | src/deptran/raft/server.cc:32-353 | every state of such a run satisfies the invariant for some history of votes, leaders and acknowledgements |
| RaftSafety.RunHistories | src/deptran/raft/server.cc:32-353 | the history of a later moment extends that of an earlier one |
| RaftSafety.StepKeeps | src/deptran/raft/server.cc:32-403 | every enabled step but a late push keeps the invariant and only extends the history |
| RaftSafety.SettleKeeps | src/deptran/raft/server.cc:172-186 | setting a winner's indices from a log that may have grown since it took the role keeps the invariant |
| RaftSafety.DeliverVoteKeeps | src/deptran/raft/service.cc:17-67 | answering a vote request keeps the invariant |
| RaftSafety.DeliverAppendKeeps | src/deptran/raft/service.cc:69-237 | answering an append request keeps the invariant |
| RaftSafety.ReturnVoteKeeps | src/deptran/raft/server.cc:143-191 | handling a vote reply keeps the invariant |
| RaftSafety.ReturnAppendKeeps | src/deptran/raft/server.cc:193-272 | handling an append reply keeps the invariant |
| RaftInvariant.CommittedIsNotBlocked | src/deptran/raft/server.cc:229-253 | an entry a majority acknowledged cannot have a majority that left its term without acknowledging it |
| RaftInvariant.TermsAscend | src/deptran/raft/service.cc:154-171 | terms never decrease along a log |
| RaftElection.FresherLogKeeps | src/deptran/raft/service.cc:41-49 | a candidate log that passes the staleness test of a voter keeps everything committable that the voter acknowledged |
| RaftElection.GrantKeeps | src/deptran/raft/service.cc:60-66 | granting a vote keeps the invariant, for the history that records the vote |
| RaftElection.CountKeeps | src/deptran/raft/server.cc:166-168 | counting a granted vote keeps the invariant: a tally is the number of distinct voters |
| RaftBallots.FirstOfTerm | src/deptran/raft/server.cc:170-172 | a candidate with a majority finds no earlier leader of its term |
| RaftElection.NewLeaderKeeps | src/deptran/raft/server.cc:170-188 | the log of a newly elected leader keeps everything any earlier term may still commit |
| RaftReplication.LateEntryIsBlocked | src/deptran/raft/server.cc:396-403 | an entry appended by a leader that a majority has already left can never be committed |
| RaftReplication.AppendKeeps | src/deptran/raft/server.cc:396-403 | a client command pushed at a server that leads keeps the invariant |
| RaftReplication.MergeFollows | src/deptran/raft/service.cc:151-172 | after merging, the follower's log agrees with the leader's up to the end of the sent entries, and beyond it is unchanged or cut |
| RaftReplication.AcceptKeeps | src/deptran/raft/service.cc:143-234 | accepting entries keeps the invariant, for the history that records the acknowledgement |
| RaftReplication.CommittableIsCommitted | src/deptran/raft/server.cc:229-252 | an index the commit scan accepts is acknowledged by a majority and ends in the leader's own term |
| RaftReplication.ScanIsDurable | src/deptran/raft/server.cc:229-253 | the commit index after the scan covers only entries committed in a term not above the leader's |
| RaftPreservation.AppendForOk | src/deptran/raft/server.cc:71-109 | what a heartbeat sends is a slice of its leader's log with the right preceding term, and its commit index lies within it |
| RaftPreservation.ElectionKeeps | src/deptran/raft/server.cc:299-349 | starting an election keeps the invariant: no server is asked twice in a term |
| RaftPreservation.ObserveKeeps | src/deptran/raft/server.cc:274-297 | stepping down to a higher term keeps the invariant |
| RaftPreservation.HeartbeatKeeps | src/deptran/raft/server.cc:64-115 | sending heartbeats keeps the invariant |
| RaftNode.RaftNode.ConvertToFollower | src/deptran/raft/server.cc:274-297 | the object's fields end as the specification function says |
| RaftNode.RaftNode.StartElection | src/deptran/raft/server.cc:299-349 | likewise, and one vote request goes to every other server |
| RaftNode.RaftNode.HandleRequestVote | src/deptran/raft/service.cc:17-67 | the fields and the reply are those of the specification function |
| RaftNode.RaftNode.HandleVoteResponse | src/deptran/raft/server.cc:143-191 | likewise, with both index arrays filled by the loop on winning |
| RaftNode.RaftNode.Heartbeat | src/deptran/raft/server.cc:66-110 | the loop sends exactly the specified call to every other server |
| RaftNode.RaftNode.HandleAppendEntries | src/deptran/raft/service.cc:69-237 | the fields and the reply are those of the specification function |
| RaftNode.RaftNode.Merge | src/deptran/raft/service.cc:151-172 | the loop that skips, cuts and appends computes the recursive merge |
| RaftNode.RaftNode.HandleAppendResponse | src/deptran/raft/server.cc:193-272 | the fields end as the specification function says |
| RaftNode.RaftNode.AdvanceCommit | src/deptran/raft/server.cc:222-254 | the two nested loops find the highest index the specification scan finds |
| RaftNode.RaftNode.Push | src/deptran/raft/server.cc:394-403 | the push of Start: one entry with the term of this moment, whatever the role is now |
| RaftNode.RaftNode.ApplyCommitted | src/deptran/raft/server.cc:122-135 | the loop executes exactly the committed commands not executed before, in order |
| Handshake.StepKeeps | run.py:682-840 | every step of either process, an exception before any statement of the child included, keeps the invariant on lock, depth, value, program counters and events |
| Handshake.HandshakeSafety | run.py:696-743 | clients start only after every site was seen ready; the child leaves its loop on 0 only after the clients returned |
| Handshake.NoLostWakeup | run.py:697-704 | a waiting parent that nobody notified means value 0 and a child that has not signalled, or one about to notify, or a fatal exception before |
| Handshake.DoomedExactlyWhen | run.py:835-840 | the parent waits for a lock that is never released, or for a child that ended unheard, if and only if an exception hit a critical section while the parent had still to take the lock, or the handler before it signalled |
| Handshake.DeadlockFreedom | run.py:697-711 | no reachable state is stuck but after such an exception; a parent that raises keeps the lock only when the child has ended |
| Handshake.StuckRun | run.py:740-840 | a run that gets stuck: an exception hits the child as it is about to store 1 |
| Handshake.EveryRunCanFinish | run.py:682-840 | a run in which the clients did not fail can be continued until both processes end, the clients still not failing, if and only if no such exception occurred |
| Handshake.FailedRunEnds | run.py:690-711 | once client_run has raised, the child can end without a further exception if and only if one had hit it before |
| Handshake.SpinsUntilHit | run.py:749-821 | once client_run has raised, a child in its loop stays there until an exception hits it |
| Handshake.SpinningRun | run.py:696-821 | a run in which client_run raises and the child, finding the value 1, comes round to the same state |
| TxnRecord.RankInRange | run.py:249-259 | the nearest-rank index of a non-empty list is always in range |
| TxnRecord.PercentileIsNearestRank | run.py:235-259 | the percentile is the least element with at least that fraction of the list at or below it |
| TxnRecord.PercentilesAscend | run.py:245-259 | percentiles do not decrease with the percentage and lie between the first and last element |
| DataBlocks.BlockSummarizes | run.py:219-328 | a printed block, in terms of the record before the print: the counts since the opening, the mean recorded time and the throughput over it, and of each list (the second padded with the largest latency for every transaction given up) the minimum, the maximum, and as 50, 90, 99 and 99.9 percentiles the least members with that fraction at or below them |
| DataBlocks.PrintKeepsLists | run.py:224-238 | a print leaves the four lists sorted with the members they had, the second one padded, the recorded time averaged, and nothing else changed |
| TxnRecord.PushAllLatencies | run.py:155-165 | pushes in the recording period extend the lists from those of the earlier pushes to those of all: the latency chunks, every prefix of the chunks, the attempts, the tries, and the recorded time |
| TxnRecord.ChunksRepeat | run.py:157-158 | chunk j of n occurs once in the first list and n - j + 1 times in the second |
| TxnRecord.PrintAgrees | run.py:231-308 | a print pads and sorts both lists, keeps their values the same, and reports the same minimum and maximum for both |
| Latencies.ExtremesAgree | run.py:155-308 | after every heartbeat of every run both lists of every record hold the same values, and every block printed reports the same minimum and maximum for both |
| Latencies.ListsInWindow | run.py:116-166 | while the first window of a run is open, the lists of a type known at its opening hold exactly the chunks pushed since, across all clears and shifts |
| Latencies.HeartbeatTotals | run.py:116-166 | the transactions given up and the shortest period of a record are those of the last heartbeat alone |
| Latencies.LatenciesAtClose | run.py:155-166 | when it closes, all lists and the recorded time are those of the pushes since the opening; each chunk pushed since the opening occurs once in the first list, and chunk j of n occurs n - j + 1 times in the second |
| Window.WindowsClosedForm | run.py:541-565 | the number of windows and whether one is open, from the progress values alone |
| Window.RecordingStep | run.py:541-556 | an open window stays open below 90 percent, and a closed one opens from 10 to 90 |
| Window.OpensAtMostOnce | run.py:541-565 | at most one opening if and only if there are at most one (or two, with no earlier one) heartbeats at exactly 90 |
| Window.OpensTwice | run.py:541-565 | progress 50, 90, 90 opens the window twice |
| Recording.RecordingFollows | run.py:544-556 | over every run the recording flag is determined by the progress values |
| Recording.WindowDiscipline | run.py:541-565 | a type known by the opening heartbeat has status 0 before, then the number of window moves: 1 during and 2 after a single window |
| Recording.RecordedCountsTelescope | run.py:116-223 | the counts printed at the first close are the sum of the type's interval rows after the opening heartbeat up to the closing one |
| Recording.LaterPrintsRepeat | run.py:127-166 | of a type recorded by a closed window, every later closing heartbeat prints the same counts again |
| RecordingRuns.SecondWindowRepeats | run.py:541-565 | with progress 50, 90, 90, 90 the second window prints 10 commits, as the first, although 60 were made in it |
| RecordingRuns.NewTypeEndsRun | run.py:476-559 | after one heartbeat at 50, a heartbeat at 90 goes on with the known type and raises with a second one |
| Recording.CollectedRecord | run.py:116-166 | once a heartbeat has cleared and re-added the reports, the counters that a record's status selects equal the cumulative counts, and the others are unchanged |
| Recording.StepInWindow | run.py:211-217 | a heartbeat inside the window keeps the base and moves the counts by exactly the interval row |
| Recording.UnrecordedStops | run.py:219-224 | a type that no window has recorded makes the heartbeat that closes a window raise at its print |
| Recording.NewTypeStops | run.py:476-559 | so does a type that first appears inside the first window |
| Recording.HeartbeatConserves | run.py:452-598 | a heartbeat keeps the totals and their previous values equal to the sums over the types |
| Recording.RunConserves | run.py:569-598 | so does every run, and the Total interval row is the sum of the type rows, new types included |
| BenchmarkController.ClientController.PushReports | run.py:472-505 | the two nested loops, through the records' own methods, leave the controller the specification describes; a new type gets an object of its own |
| BenchmarkController.ClientController.MoveWindow | run.py:544-565 | the window moves as specified, with a print for every type on closing |
| BenchmarkController.ClientController.GetResults | run.py:570-598 | the interval row of every type in dictionary order, and counters moved on as specified |
| BenchmarkController.ClientController.Heartbeat | run.py:452-598 | one heartbeat over the record objects is the specified step, prints the specified rows and total, and leaves client_run exactly when specified: no answer, a print that raises, or no time passed |
| FaultInjection.WindowUnchanged | scripts/follower_slow/run_exp5.py:559-605 | both experiments record in the same windows as the plain controller |
| FaultInjection.Exp5Coverage | scripts/follower_slow/run_exp5.py:527-605 | after any heartbeats that do not raise, an open window means the delay is in force; commands alternate; after the clean-up no host is delayed |
| FaultInjection.Exp5LeftDelayed | scripts/follower_slow/run_exp5.py:510-605 | benchmark_record leaves the hosts delayed if and only if its first heartbeat to raise finds the delay in force: no answer, a record that cannot be printed at a close, or no time passed |
| FaultInjection.Exp5PrintRaises | scripts/follower_slow/run_exp5.py:583-605 | progress 50, then 90 with a record that cannot be printed, leaves every reached host delayed |
| FaultRecording.DelayAfterRun | scripts/follower_slow/run_exp5.py:455-605 | with answers, prints and times taken from a controller's run and one more heartbeat, exactly a heartbeat that stops the controller raises, and the delay then stays as that heartbeat leaves it |
| FaultRecording.NewTypeLeavesDelay | scripts/follower_slow/run_exp5.py:476-605 | a transaction type that first appears inside the first window leaves every reached host delayed when the window closes |
| FaultInjection.DelayClosedForm | scripts/follower_slow/run_exp5.py:559-605 | while progress does not fall, the delay is in force from 5 percent on but after a heartbeat that closes a window |
| FaultInjection.LoopIsRun | scripts/follower_slow/run_exp5.py:455-531 | the loop goes on exactly as long as no heartbeat raises, and is then the run of the progress values |
| FaultInjection.Exp1Coverage | scripts/follower_slow/run_exp1.py:549-614 | the quota is injected at most once, and is in force from then exactly until the first window closes |
| FaultInjection.Exp1CoversFirstWindowOnly | scripts/follower_slow/run_exp1.py:549-614 | in an open window the quota is in force if and only if it is the first window |
| FaultInjection.Exp1SecondWindowUncovered | scripts/follower_slow/run_exp1.py:549-614 | with progress 50, 90, 90 a window is open and no host is slowed |
| FaultInjection.FaultController.PrintStage | scripts/follower_slow/run_exp5.py:559-605 | the object's fields, updated by loops over the processes, follow the specified step, also when a print or a table raises |
| FaultInjection.FaultController.BenchmarkRecord | scripts/follower_slow/run_exp5.py:455-536 | the heartbeat loop runs the specified machine up to the first heartbeat that raises, and the delay experiment ends with no host delayed if none does |
| Hosts.HostsByDatacenter | pylib/placement_strategy.py:36-52 | the loops build one sorted list per distinct data centre; no data centre means a nameless one |
| Hosts.HostAtHome | pylib/placement_strategy.py:45-49 | a host is listed under a data centre if and only if that is the first listed one whose name is its prefix |
| Hosts.HostPartition | pylib/placement_strategy.py:36-52 | no host is listed twice, within a data centre or across two |
| Hosts.PrecedesMeans | pylib/placement_strategy.py:51 | the order of strings is equality or a smaller character, or the end, at the first difference |
| Hosts.HostsInOrder | pylib/placement_strategy.py:51 | every list is in code-point order without repetition |
| Placement.Assign | pylib/placement_strategy.py:79-88 | the cyclic iterators put name i in data centre i mod D on machine (i div D) mod H, and fail exactly when a machine list within the first lap is empty |
| Placement.CentresBalanced | pylib/placement_strategy.py:79-88 | the count of every data centre, and that two differ by at most one |
| Placement.HostLoad | pylib/placement_strategy.py:81-88 | the exact number of names each machine gets |
| Placement.PlacedLoad | pylib/placement_strategy.py:81-88 | a process table filled by round robin holds exactly that many entries for a host |
| Placement.HostsBalanced | pylib/placement_strategy.py:81-88 | machines of one data centre differ by at most one |
| Placement.LoadBound | pylib/placement_strategy.py:54-88 | with enough hosts per data centre no host gets more than cpu_count servers |
| Placement.GenerateProcess | pylib/placement_strategy.py:54-105 | where every server and client goes, and each way the function fails |
| Placement.PerCentreIsLeast | pylib/placement_strategy.py:54-66 | the number of server hosts per data centre is the least that is enough |
| Placement.FeasibleExactlyWhen | pylib/placement_strategy.py:54-105 | with that number, placement succeeds if and only if every data centre that is used has a host for servers and one for clients, and a host is left over or sharing is allowed |
| Placement.PlacedSplits | pylib/placement_strategy.py:54-105 | servers go to that many first hosts of their data centres, clients to the others, or to the same if none is left over |
| Placement.ClientsApart | pylib/placement_strategy.py:68-105 | while any client machine remains, no client shares a machine with a server |
| Decimal.ParseShow | pylib/placement_strategy.py:119 | reading a printed number as Python's int does gives it back, and its text is digits only, without a leading zero |
| Decimal.ParseMeans | run.py:1136-1141 | a numeral, with single underscores between digits, an optional sign and white space around it, is read as the number it spells |
| Decimal.ParsesOnly | run.py:1136-1141 | nothing else is read |
| Layout.NamesDistinct | pylib/placement_strategy.py:24-25 | server and client names are pairwise different |
| Layout.GenerateSiteServer | pylib/placement_strategy.py:111-121 | one row per shard of one entry per replica; read in order the rows are the servers with consecutive ports from 10000 |
| Layout.GenerateSiteClient | pylib/placement_strategy.py:123-131 | full rows but perhaps the last; read in order they are the clients; zero replicas fail when there are clients |
| Layout.LeaderSiteClient | pylib/placement_strategy.py:134-138 | one client per row, none lost |
| ProcessInfo.SplitSiteText | run.py:1136-1137 | splitting a printed site gives back its name and port |
| ProcessInfo.SplitExactlyWhen | run.py:1136-1139 | a site text without a colon is a name, with one a name and a port, with more an error |
| ProcessInfo.SiteExactlyWhen | run.py:1134-1141 | a site takes the name and port of its text, or the controller's port, with the control port 10000 higher for a server; unknown names are one error, and too many colons or a port that is no number the other |
| ProcessInfo.IdsFollowNames | run.py:1123-1132 | of two processes the one with the alphabetically least name gets the smaller id |
| ProcessInfo.GetProcessInfo | run.py:1118-1143 | the dictionary built from any process and site tables, or the first error |
| Pipeline.GenerateLayout | pylib/placement_strategy.py:15-34 | when it succeeds, and that its tables are complete: every name has a configured host and the rows list every site |
| Pipeline.ServerReadBack | run.py:1134-1141 | server i is read back with its name, port 10000 + i, control port 20000 + i and the next id |
| Pipeline.LayoutReadBack | run.py:1134-1141 | all sites of a complete layout are read back, with ids that run on without a gap |
| Pipeline.ReadLayout | run.py:1118-1143 | for every complete layout no key is missed, processes and sites are numbered consecutively, and the command-line port is the connected one |
| Pipeline.LayoutSitesOnce | run.py:1103-1115 | the server list and the client list together hold every site of the layout exactly once |
| Pipeline.EverySiteOnce | run.py:1103-1115 | the same for any records whose processes own their sites, each list holding its own kind only |
| Pipeline.GetSites | run.py:1103-1115 | the nested loops gather the sites of one kind in dictionary order |
| Pipeline.LayoutPorts | run.py:1001-1079 | the service, control and process ports in the records of a layout are pairwise distinct if and only if there are at most 10000 servers and the process ports miss both ranges |
| Pipeline.PortSeparation | pylib/placement_strategy.py:112-121 | the same for three ranges of port numbers starting at 10000, 20000 and any base |
| Pipeline.LayoutApart | pylib/placement_strategy.py:54-105 | with servers and clients to place, no host of a layout runs both if and only if some data centre has a host left over for clients |
| Pipeline.LayoutLoad | pylib/placement_strategy.py:15-88 | the process table of a layout, for any distinct hosts and listed data centres, has at most cpu_count servers on any host, if every data centre has enough hosts |
| Pipeline.Deploy | run.py:1103-1143 | generating a layout, reading it and listing its sites: exactly when it succeeds, that the two lists hold every site once with ids from 0, the load bound, that servers get the least number of hosts that is enough, exactly when clients and servers are apart, and exactly when no port is used twice |
| Tables.MedianIsATrial | scripts/data_processing/processing.py:199-214 | the returned index holds the returned value if and only if the maximum is not zero or the first entry is |
| Tables.MedianNotATrial | scripts/data_processing/processing.py:199-214 | for -1, 0 it does not |
| Tables.MedianRank | scripts/data_processing/processing.py:203-208 | the median is the least value with more than half of the entries at or below it, zeros counted as the maximum |
| Tables.Median | scripts/data_processing/processing.py:199-214 | the list is overwritten and restored, and the result is the specified pair |
| Tables.MergedFromOneTrial | scripts/data_processing/processing.py:318-322 | all latency fields of a merged row come from one trial, whose throughput is the reported median, and the spread is the root of the variance |
| Tables.VarianceIsLeast | scripts/data_processing/processing.py:217-230 | the mean squared distance of the throughputs from any point is the value under the root plus the squared distance of that point from the mean |
| Tables.NoVariance | scripts/data_processing/processing.py:217-230 | that value is zero if and only if all throughputs are equal |
| Tables.Merge | scripts/data_processing/processing.py:298-341 | although the result is the first trial's own list, every row that all trials have becomes the merge of the original rows and nothing else changes; it fails exactly when some trial lacks a row of the first |
| Prime.FastPrime | old-test/benchmark_service.cc:12-31 | -1 for n <= 0, else 1 if and only if n has no divisor strictly between 1 and n, also with a square root off by one |
| Prime.RootIsNear | old-test/benchmark_service.cc:21 | the exact integer square root, or one off from it, is a bound the test accepts |
| Prime.SmallDivisor | old-test/benchmark_service.cc:20-28 | a divisor implies one not above the search bound |
| LogReader.Extract | scripts/extract_txn_info.py:25-43 | the loop hands the specified block texts to the loader in order and keeps the specified dictionary, or fails |
| LogReader.LogRoundTrip | scripts/extract_txn_info.py:29-43 | reading a log file of noise and written blocks, every line with its newline, recovers exactly the block texts, in order, up to stripping |
| LogReader.BareText | scripts/extract_txn_info.py:41-43 | the text of a block whose lines have nothing to strip is those lines with their newlines |
| Basics.StripSplits | scripts/extract_txn_info.py:30 | stripping removes white space from both ends, and all of it |
| Basics.StripOf | scripts/extract_txn_info.py:30 | a text has only one such part |
| LogReader.BlockIsRead | run.py:328 | one written block is read back whole and the reader is outside a block again |
| LogReader.LastBlockKept | scripts/extract_txn_info.py:35-37 | the dictionary has exactly the names seen, each with its last block |

## Left out

- Raft election and heartbeat timers: a server that is not the leader may start an election at any step, so the theorems hold for every timing.
- Raft crashes and persistence: the code stores nothing, and a restarted server would be a new one.
- Raft concurrency inside one server: handlers, callbacks and loops run on the one thread of the server's poll manager, so each is one step, but for the two halves of winning an election; only a client's Start runs on other threads, and its role test and its push are two steps. A late push inside a step that reads the log more than once (the loop that sends vote requests, the append handler) is taken to come before or after the step; a push that finds its server leading, in its own term, makes no such difference. Stepping down is one step, although it stores the term before the role: a push between the two stores counts as late.
- RaftSafety.LogMatching, LeaderCompleteness and StateMachineSafety: runs with a late push are excluded, because the code breaks all three there (RaftLatePush); that they hold in some runs with a late push is not characterised.
- Raft duplicate delivery: a call is delivered at most once and its reply handled at most once, as the RPC layer does.
- Raft liveness: elections and commits are shown to be possible from every timely run, not to happen; timers and fair delivery are not modelled.
- The Raft coordinator, frame, command marshalling and the test driver: commands are opaque values.
- RaftTicket.TicketExactlyWhen: for pushes that find their server leading; what is reported after a late push is not characterised.
- Handshake: exceptions reach the child only; a signal that interrupts the parent is not modelled, and waiting for a lock cannot fail.
- BenchmarkController.ClientController.Heartbeat: of the tables only the counts; the ratio, throughput and latency columns and the best-interval row are not modelled.
- TxnRecord averages, throughput and configuration fields of the printed block: each is one expression.
- Recording.RecordedCountsTelescope: for types known by the opening heartbeat; a type first seen later has no opening count.
- Rounds in which a client call raises: the finish set then holds positions of futures, so nothing is claimed about finishing.
- Floating-point error in progress, ceilings and percentiles: exact integers, fractions and reals are used.
- FaultInjection: a remote command is taken to succeed and is reduced to the set of hosts it leaves slowed.
- Placement.GenerateProcess: the order in which a Python set is listed is a parameter, any enumeration of the set.
- Layout.GenerateSiteClient: a negative number of replicas is not modelled.
- ProcessInfo.GetProcessInfo: process and site records are values in the dictionary.
- Tables.Merge: the square root of the variance is a parameter, and the twin figures repeat the same loop.
- Prime.FastPrime: the library square root is a parameter that may be one off; 32-bit overflow cannot occur for the loop variables and is not modelled.
- LogReader.Extract: YAML loading is a parameter function from text to a name and a document.
- RPC, ssh, deployment, logging, argument parsing, plotting and the other copies of the run scripts: input and output, or repetitions.
