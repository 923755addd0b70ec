# Verified model of PGo's systems and runtime

PGo compiles Modular PlusCal to Go. This project models, in Dafny, the hardest of what it ships: the generated Raft
key-value store, the transactional runtime on which its critical sections run, the replicated data types, and a few
self-contained algorithms. Everything is stated for every input, every run and every number of processes; nothing is
bounded.

## What is modelled

**Raft** (`Raft*.dfy`). A cluster of N servers. Each server is the five interleaved processes of the generated code
sharing one state, and each critical section is one atomic step (`RaftServer`, as functions; `RaftProcess`, as a class
whose methods read and write the variables one by one and are proved to do what those functions say). `RaftSystem` adds
one FIFO stream per sending process and destination; sends may be skipped and messages lost, but the rest keep their
order. `Config.modular` selects the composed system of `raftres`, in which committed commands go to an accept channel
read by a separate key-value server, and a second process advances the commit index of followers.

The proof keeps a history beside the state (`RaftHistory`): the elections won with the votes that counted, every vote
with the voter's log at that moment, and how much of each leader's log every server has held. Leader completeness is a
theorem about that record alone (`RaftHistory.LeaderCompleteness`, by induction on the later term); `RaftInvariant` ties
it to the servers and to the messages on their way; `RaftSections`, `RaftAppend`, `RaftActions` and `RaftFrame` show for
every critical section what it does to it; `RaftPreservation` puts them together; `RaftSafety` states what follows for
all runs, down to responses being given in real-time order, and `RaftCounting` where a leader's counts come from.
`RaftDecisions` says when a server votes, takes an append and answers, in terms of logs and commands alone, and
`RaftExample` has a run in which all of it happens. Two departures of the generated code from the Raft paper (Ongaro and Ousterhout, "In Search of an
Understandable Consensus Algorithm", extended version, Figure 3 and sections 5.2 to 5.4.3) are part of the model: the vote
requester reads the term and the log anew on each send without looking at the role, and the applier goes on after its
server has stepped down. So is the append handler's unconditional cut of the log, which is harmless only because one
process sends all appends, in order.

**The runtime.** `LocalShared` has the shared value and its semaphore as classes; `Serializability` lets any number of
archetypes interleave resource calls, time out, commit and abort, and proves the committed sections serializable in
commit order. `CriticalSection` has the commit and abort loops over a context's handles and over a map's elements.
`TcpMailboxes` is the two-phase send protocol and the receiver whose reads can be undone. `PersistentLog` is Raft's log
with its recorded operations. `Fairness` is the odometer behind branch selection.

**Replicated data.** `GCounter`, `AddWinsSet`, `CrdtResource` (a counter in the crdt resource, whose background merger
also works in the middle of sections), and `NestedCrdt` (the nested CRDT archetype with the counter's functions).

**Algorithms.** `Permutations` is Heap's algorithm in place on an array, for every size. `Values` is equality and hashing
of nested values; `HashMap` the hash map built on them. `LockService` is the lock server with any number of clients.

Where a loop of the source iterates over an immutable or a Go map, the method here takes the elements in an arbitrary
order. Time, the network's delays, randomness and timeouts are choices of the step or parameters.

## Where the code and its documentation differ

The model follows the code.

- `ModuleDoubleAtSignSymbol` (distsys/tla/symbols.go:322-330) lets the right operand win; TLA+ `@@` lets the left one win.
- `ModuleSeq` (distsys/tla/symbols.go:226-267) yields the permutations of a set; TLA+ `Seq(S)` is all finite sequences.
- The comment on `ReceiveValue` (distsys/resources/crdt.go:329-332) says updates wait until the critical section is over;
  the merger does not wait (305-317), and an abort can drop what it merged (`CrdtResource.MergeKeptExactly` says exactly when).
- Tuple and record-field hashes drop the sums they compute (distsys/tla/value.go:443-452, 534-539), so all tuples collide.
- The nested counter takes any increment (systems/nestedcrdtimpl/nestedcrdtimpl_test.go:71-79); one that makes a section's
  sum negative is lost once the node has an entry (`NestedCrdt.CommitCounts` says exactly when it counts).
- The fairness counter is meant to go round all combinations of branches (distsys/fairness.go:30-37). Labels that go to
  themselves (systems/raftkvs/raftkvs.go:1599, systems/nestedcrdtimpl/NestedCRDTImpl.go:270) start their next execution
  with the stack of the last one, and branching points it does not reach again slow those it does
  (`Fairness.FairExactly` says exactly when).

## Model

| member | source | states |
|---|---|---|
| RaftOps.FindMaxAgreeIndexIsGreatest | systems/raftkvs/raftkvs.go:90-111 | The recursion returns the greatest index within the log on which a quorum agrees, or Nil when there is none |
| RaftOps.ApplyLogContinuesReplay | systems/raftkvs/raftkvs.go:118-143 | Applying entries start..end to what the commands before start leave gives what the commands up to end leave |
| RaftOps.QuorumsIntersect | systems/raftkvs/raftkvs.go:84-89 | Any two quorums of servers have a server in common |
| RaftOps.OneSideIsQuorum | systems/raftkvs/raftkvs.go:84-89 | Of any set of servers and the rest one is a quorum, unless the cluster splits evenly |
| RaftOps.ReplayReadsLastPut | systems/raftkvs/raftkvs.go:118-143 | Commands leave for every key the value of the last put to it, and for keys never put to nothing |
| RaftProcess.AServer.HandleRequestVoteRequest | systems/raftkvs/raftkvs.go:391-549 | A vote request leaves term, role, vote and leader, and is answered, as the protocol step of the safety proof requires |
| RaftProcess.AServer.HandleRequestVoteResponse | systems/raftkvs/raftkvs.go:558-677 | A vote of the current term is counted and a candidate with a quorum signals the leader process |
| RaftProcess.AServer.HandleAppendEntriesRequest | systems/raftkvs/raftkvs.go:688-1080 | An append makes its receiver step down, then is refused, or cuts and extends the log, applies up to the leader's commit index and is acknowledged; or an assertion fails |
| RaftProcess.AServer.HandleAppendEntriesResponse | systems/raftkvs/raftkvs.go:1094-1230 | An answer of the current term moves the follower's indices forward, or its next index back by one but not below 1 |
| RaftProcess.AServer.HandleClientRequestMessage | systems/raftkvs/raftkvs.go:1246-1295 | A leader appends the command with its term to log and persistent log; others do not |
| RaftProcess.AServer.ServerRequestVoteLoop | systems/raftkvs/raftkvs.go:1373-1530 | After a timeout the server is a candidate of the next term with its own vote |
| RaftProcess.AServer.RequestVoteLoop | systems/raftkvs/raftkvs.go:1533-1694 | Each round asks one other server with the term and log of that moment, whatever the role is by then |
| RaftProcess.AServer.AppendEntriesLoop | systems/raftkvs/raftkvs.go:1780-2028 | Each round sends a leader's log from the follower's next index to its end, or stops when it no longer leads |
| RaftProcess.AServer.AdvanceCommitIndexLoop | systems/raftkvs/raftkvs.go:2037-2168 | A leader's new target is the greatest agreed index if that entry is of its term, else its commit index |
| RaftProcess.AServer.ApplyLoop | systems/raftkvs/raftkvs.go:2172-2355 | One round applies the next entry and answers its client, without looking at the role |
| RaftProcess.AServer.BecomeLeaderLoop | systems/raftkvs/raftkvs.go:2364-2541 | A candidate with a quorum and a signal becomes leader with next indices past its log and match indices 0 |
| RaftHistory.LeaderCompleteness | systems/raftkvs/raftkvs.go:402-506 | What a leader committed in its term, every leader of a later term started its log from |
| RaftHistory.LogsMatch | systems/raftkvs/raftkvs.go:725-977 | Two logs made by leaders that agree on the term at an index agree on everything up to it |
| RaftHistory.CommittedLogsAgree | systems/raftkvs/raftkvs.go:2091-2163 | Of any two committed logs one extends the other |
| RaftAppend.AcceptedLogIsLeaders | systems/raftkvs/raftkvs.go:921-977 | After the unconditional cut and the concatenation the log is the leader's log as it was when the append was sent |
| RaftAppend.TargetSurvives | systems/raftkvs/raftkvs.go:921-977 | Replacing the log keeps every entry the server has applied or may still apply |
| RaftServer.PopAndConcatOutcome | systems/raftkvs/persistentlog.go:187-216 | The handler's pop and concat, run as the persistent log's own commands, cut and extend it as the log, and panic exactly if there is less to pop |
| RaftSections.QuorumIsLeader | systems/raftkvs/raftkvs.go:2453-2479 | A server with a quorum of the votes of a term is the only leader that term can have |
| RaftActions.AgreedNotBelowCommit | systems/raftkvs/raftkvs.go:2160-2162 | A newly agreed index of the leader's own term is never below its commit index |
| RaftPreservation.StepKeepsInv | systems/raftkvs/raftkvs.go:228-2541 | Every critical section, delivery and loss keeps the whole invariant and only adds to the history |
| RaftSafety.ElectionSafety | systems/raftkvs/raftkvs.go:402-506 | No term has two leaders, at one moment of a run or at two |
| RaftSafety.LogMatching | systems/raftkvs/raftkvs.go:725-977 | Logs of any two servers at any two moments that agree on a term at an index agree up to it |
| RaftSafety.LogTermsOrdered | systems/raftkvs/raftkvs.go:1252-1282 | Terms along a log never fall and never exceed the server's term |
| RaftSafety.StateMachineSafety | systems/raftkvs/raftkvs.go:84-111 | The committed prefixes of any two servers at any two moments agree as far as both go |
| RaftSafety.LeadersHoldCommitted | systems/raftkvs/raftkvs.go:2363-2542 | Every leader of a later term, and of the same term later on, holds every committed entry |
| RaftSafety.NothingFails | systems/raftkvs/raftkvs.go:911-990 | No assertion of the protocol fails and no log lookup is out of range in any run |
| RaftSafety.LeaderIndicesInRange | systems/raftkvs/raftkvs.go:1883-1938 | A leader keeps 1 <= nextIndex <= Len(log)+1 and matchIndex <= Len(log) for every server |
| RaftSafety.LeaderAdvancesExactly | systems/raftkvs/raftkvs.go:2091-2163 | A leader's new target is its commit index or an agreed index of its own term, and no agreed index of its own term is above it |
| RaftSafety.AcknowledgedIsDurable | systems/raftkvs/raftkvs.go:914-977 | A prefix a follower has acknowledged in a term it keeps, entry for entry, for as long as it stays in that term, whether or not the leader still leads |
| RaftSafety.AcknowledgedIsLeaders | systems/raftkvs/raftkvs.go:1041-1068 | Whoever leads that term at any moment is the one it was acknowledged to; its log and the follower's extend one another, and from then on it has those entries too |
| RaftSafety.MatchIndexWasAcknowledged | systems/raftkvs/raftkvs.go:1172-1209 | What a leader counts for another server that one has acknowledged to it in the leader's term |
| RaftSafety.MatchIndexIsHeld | systems/raftkvs/raftkvs.go:1172-1209 | What a leader counts for a follower the follower holds of its log, then and for as long as it stays in the leader's term |
| RaftSafety.AppendsMatchLogs | systems/raftkvs/raftkvs.go:1868-1986 | An append on its way that agrees with a log on the term at an index agrees with it on all it carries up to there |
| RaftSafety.IndicesNeverFall | systems/raftkvs/raftkvs.go:991-1040 | Commit index and term of a server never fall |
| RaftSafety.StoreIsReplayOfCommitted | systems/raftkvs/raftkvs.go:2217-2348 | On every server the store is the replay of the committed commands, whichever process applied them; the persistent log is the log; in the composed system the accept channel is those commands in order, once each |
| RaftSafety.StoresAgree | systems/raftkvs/raftkvs.go:991-1040 | Servers that have applied equally far hold the same store |
| RaftSafety.RepliesAgree | systems/raftkvs/raftkvs.go:2280-2340 | Two success responses for one log position are identical, whichever servers gave them |
| RaftSafety.CommitsFollowRealTime | systems/raftkvs/raftkvs.go:1246-1295 | A command a leader takes in is committed, if ever, behind everything any server had committed by then, and as the command it is |
| RaftSafety.RepliesFollowRealTime | systems/raftkvs/raftkvs.go:2280-2340 | A command taken in after a response was given is answered for a greater index |
| RaftDecisions.VoteGivenExactly | systems/raftkvs/raftkvs.go:402-506 | A vote is given exactly to a candidate of the current or a later term whose log is no older than the voter's, and in the current term only if the voter has not voted for another |
| RaftDecisions.OneLogIsGoodEnough | systems/raftkvs/raftkvs.go:451-473 | Of any two logs one is good enough for a vote of the other's server, and each for itself |
| RaftDecisions.EveryServerIsAsked | systems/raftkvs/raftkvs.go:1598-1653 | A round of vote requests asks every other server, in the term and for the log of that moment |
| RaftDecisions.AppendTakenExactly | systems/raftkvs/raftkvs.go:725-1068 | In any run an append is taken exactly if its receiver is in no later term and holds all before the entries as the leader does; then its log is the leader's up to there and it learns how far to apply |
| RaftDecisions.RefusalsReachTheStart | systems/raftkvs/raftkvs.go:1172-1209 | Refusals take the next index back one by one, down to the start of the log, and the append then sent reaches from there to its end |
| RaftDecisions.AcknowledgementMoves | systems/raftkvs/raftkvs.go:1172-1209 | After an acknowledgement the next append starts right behind what was acknowledged |
| RaftDecisions.FirstAppendIsEmpty | systems/raftkvs/raftkvs.go:2480-2530 | A new leader's first append to any server carries nothing and asks about the last entry of its log |
| RaftDecisions.EveryServerIsSent | systems/raftkvs/raftkvs.go:1868-1986 | A leader's round sends every other server what that one is missing |
| RaftDecisions.ReplyReadsLastPut | systems/raftkvs/raftkvs.go:2280-2340 | Every response answers the command at its index of the log and reads the value of the last put to the key up to there, or that there is none |
| RaftDecisions.StoreReadsLastPut | systems/raftkvs/raftkvs.go:991-1040 | Every server's store, and every key-value server's, reads so for the commands it has applied |
| RaftDecisions.AppliedIsAnswered | systems/raftkvs/raftkvs.go:2217-2348 | Each round of the apply loop applies one entry and answers its client, until the target is reached |
| RaftExample.CommandIsServed | systems/raftkvs/raftkvs.go:228-2541 | A cluster of three has a run in which any given command is taken in by an elected leader, committed, applied and answered, and applied by a follower, in both systems |
| RaftSafety.AcceptChannelsAgree | systems/raftres/raft/raft.go:2456-2535 | The accept channels of any two servers agree as far as both go, and one server's only grows |
| RaftSafety.KeyValueServersAgree | systems/raftres/kv/kv.go:163-232 | Key-value servers that consumed equally many accepts hold the same store, the replay of that many committed commands |
| RaftActions.FollowerApplyStepOk | systems/raftres/raft/raft.go:2828-2907 | The second advancer applies only committed entries and keeps channel and commit index together |
| LocalShared.LocalArchetypeResource.WriteValue | distsys/archetyperesource.go:131-138 | A write keeps the value an abort goes back to |
| LocalShared.LocalArchetypeResource.Commit | distsys/archetyperesource.go:121-125 | The written value is the committed one |
| LocalShared.LocalArchetypeResource.Abort | distsys/archetyperesource.go:108-115 | The value is the one of the last commit |
| LocalShared.LocalSharedResource.ReadValue | distsys/resources/localshared.go:120-129 | A read succeeds exactly if units are held or one is free in time, and takes that one |
| LocalShared.LocalSharedResource.WriteValue | distsys/resources/localshared.go:131-140 | A write upgrades to all units of the semaphore or fails and changes nothing |
| LocalShared.LocalSharedResource.Commit | distsys/resources/localshared.go:106-118 | A writer's value is committed and everything held is given back |
| LocalShared.LocalSharedResource.Abort | distsys/resources/localshared.go:88-100 | A writer's value is undone and everything held is given back |
| CriticalSection.IncMap.Write | distsys/resources/incmap.go:34-44 | Writing an element changes what the map holds there and nowhere else, and not what an abort goes back to |
| CriticalSection.IncMap.Commit | distsys/resources/incmap.go:74-100 | The whole map's contents become what an abort goes back to |
| CriticalSection.IncMap.Abort | distsys/resources/incmap.go:102-128 | The whole map is what it was at the last commit |
| CriticalSection.MPCalContext.Read | distsys/archetypeinterface.go:56-70 | A read marks its handle dirty, takes at most that handle's lock and leaves the other shared values alone |
| CriticalSection.MPCalContext.Write | distsys/archetypeinterface.go:38-52 | A write marks its handle dirty, takes that handle's whole lock or fails, and leaves the other shared values alone |
| CriticalSection.MPCalContext.Commit | distsys/mpcalctx.go:401-451 | Every shared value a section used is committed and released, and no other touched |
| CriticalSection.MPCalContext.Abort | distsys/mpcalctx.go:382-399 | Every shared value a section used is undone and released, and no other touched |
| Serializability.StepKeepsInv | distsys/resources/localshared.go:88-140 | Every resource call, timeout, commit and abort of any archetype keeps the locking invariant |
| Serializability.CommittedSectionsAreSerial | distsys/mpcalctx.go:401-451 | Run one after the other in commit order from the initial values, the committed sections read what they read |
| Serializability.SharedValuesAreSerial | distsys/resources/localshared.go:88-118 | A shared value is what that serial run leaves, or will be again after its writer's abort |
| Serializability.AttemptsReadConsistently | distsys/mpcalctx.go:534-577 | An attempt still running, even one that will abort, has read only what it would have read alone |
| Serializability.WritersAreAlone | distsys/resources/localshared.go:120-140 | While one archetype holds a value for writing no other holds it at all |
| Serializability.OnlyConflictsWait | distsys/resources/localshared.go:48-140 | The semaphore has the units for a read exactly if no other archetype holds the value for writing, and for a write exactly if no other holds it at all |
| TcpMailboxes.HandleConn.Round | distsys/resources/tcpmailboxes.go:191-257 | What each frame does to the connection's buffer, its answer and the batch it releases |
| TcpMailboxes.TcpMailboxesLocal.ReadValue | distsys/resources/tcpmailboxes.go:276-304 | A read takes the backlog first, then a batch, whose rest becomes backlog |
| TcpMailboxes.TcpMailboxesLocal.Abort | distsys/resources/tcpmailboxes.go:261-265 | Values read by the section go back in front of the backlog |
| TcpMailboxes.TcpMailboxesRemote.WriteValue | distsys/resources/tcpmailboxes.go:514-552 | The first value of a section is preceded by a begin frame |
| TcpMailboxes.ReadsWhatIsNext | distsys/resources/tcpmailboxes.go:276-304 | A read returns the next value there is and times out only when there is none |
| TcpMailboxes.NextValueIsRead | distsys/resources/tcpmailboxes.go:276-304 | So it does in every state of every run, for no empty batch ever enters the channel |
| TcpMailboxes.NothingPanics | distsys/resources/tcpmailboxes.go:191-257 | In no run does the receiver meet a frame of a section that has not begun, nor a sender an answer it is not waiting for |
| TcpMailboxes.DeliveredInCommitOrder | distsys/resources/tcpmailboxes.go:458-508 | Of each sender exactly the committed batches enter the channel, whole and in commit order, and all of them once nothing is on its way |
| TcpMailboxes.OnlyCommittedWritesArrive | distsys/resources/tcpmailboxes.go:458-552 | What arrives from a sender is what it wrote in the sections it committed, section by section, and nothing of those it aborted |
| TcpMailboxes.ReadsAreConserved | distsys/resources/tcpmailboxes.go:261-304 | Committed reads, reads in progress, backlog and channel are together exactly what was pushed, in order |
| TcpMailboxes.SectionsReadInOrder | distsys/resources/tcpmailboxes.go:261-304 | Committed sections and then the running one have read the beginning of what was pushed, and the next read returns the value behind that: what an aborted section read is read again |
| PersistentLog.OpsReplayToList | systems/raftkvs/persistentlog.go:187-216 | Whatever concats and pops a section makes, replaying its operations on the stored list gives its list |
| PersistentLog.PersistentLog.WriteConcat | systems/raftkvs/persistentlog.go:187-203 | Entries are appended and recorded, keeping the stored list and the list an abort goes back to |
| PersistentLog.PersistentLog.WritePop | systems/raftkvs/persistentlog.go:204-212 | The last entries are cut and their removals recorded, keeping the stored list and the list an abort goes back to |
| PersistentLog.PersistentLog.Commit | systems/raftkvs/persistentlog.go:134-181 | The database then holds exactly the entries of the list under 0..len-1 |
| PersistentLog.PersistentLog.Abort | systems/raftkvs/persistentlog.go:120-128 | The list is the last committed one and the database unchanged |
| Fairness.RoundRobinFairnessCounter.BeginCriticalSection | distsys/fairness.go:42-64 | The carry loop in place adds one to the stack, or a new section empties it |
| Fairness.RoundRobinFairnessCounter.NextFairnessCounter | distsys/fairness.go:66-99 | Neither panic is reachable, the choice is below the ceiling, and a changed id or ceiling drops the rest of the stack |
| Fairness.AddIsPlus | distsys/fairness.go:51-63 | The carry loop is addition modulo the product of the ceilings in mixed radix |
| Fairness.RoundRobinFairnessCounter.Retry | distsys/mpcalctx.go:534-577 | Retries that ask the same questions get the leading digits of a start value plus the number of the attempt, behind which are digits only for records an execution of the same label left on the stack |
| Fairness.FairExactly | distsys/fairness.go:42-99 | Any window of product-many attempts contains every vector of choices, and none twice, exactly if there is no choice or what was left has but one branch everywhere |
| Fairness.LeftoverRepeats | distsys/fairness.go:42-64 | A label that goes to itself, after reaching a second branching point before, makes the same choice twice running at its first |
| Fairness.EveryVectorComesUp | distsys/fairness.go:19-37 | Any window of product-many attempts contains every vector of choices |
| Fairness.NoVectorTwice | distsys/fairness.go:19-37 | and none of them twice |
| GCounter.MergeEntries | distsys/resources/gcounter.go:45-54 | The merge loop takes the greater of each entry, in whatever order it meets them |
| GCounter.SumEntries | distsys/resources/gcounter.go:25-33 | Reading sums the entries, in whatever order it meets them |
| GCounter.MergeIsJoin | distsys/resources/gcounter.go:44-54 | The merge is the least counter that knows what both know |
| CrdtResource.Crdt.Abort | distsys/resources/crdt.go:133-141 | An abort goes back to the stable value, which it does not change |
| CrdtResource.Crdt.ReceiveValue | distsys/resources/crdt.go:333-342 | A value received waits in the channel and is answered with the stable value |
| CrdtResource.StableOnlyGrows | distsys/resources/crdt.go:133-177 | With writes that add, a replica's stable value only grows, over all commits, aborts, sends and merges |
| CrdtResource.NoOvercount | distsys/resources/crdt.go:246-317 | No replica's entry for another exceeds what that one has committed; its own stable entry is exactly that |
| CrdtResource.MergeKeptExactly | distsys/resources/crdt.go:133-177 | In any run a value merged in a section is in the stable value after it exactly if the section had not written before the merge, or commits, or the value was known before |
| CrdtResource.MergedForGood | distsys/resources/crdt.go:246-317 | A merged value that meets no such abort stays in every later stable value |
| CrdtResource.Converges | distsys/resources/crdt.go:256-317 | If all that was committed has been sent to all since, and neither the network nor an abort dropped anything, idle replicas know exactly what each has committed and read the sum |
| CrdtResource.AbortLosesMerge | distsys/resources/crdt.go:305-317 | A run without message loss, with everything announced, after which the idle replicas differ because one aborted |
| AddWinsSet.Compare | distsys/resources/aworset.go:51-79 | The loop decides the pointwise order of two clocks whatever order it meets the keys in |
| AddWinsSet.MergeLoops | distsys/resources/aworset.go:150-194 | The loops compute the merge by which the claims below are stated |
| AddWinsSet.MergeIsDisjoint | distsys/resources/aworset.go:150-180 | A merge never has an element in both maps |
| AddWinsSet.WriteKeepsDisjoint | distsys/resources/aworset.go:114-141 | Neither does a write to a set that has not |
| AddWinsSet.MergeCommutes | distsys/resources/aworset.go:150-194 | Merging is commutative |
| AddWinsSet.MergeIsIdempotent | distsys/resources/aworset.go:150-194 | Merging a set with itself changes nothing |
| AddWinsSet.AddWins | distsys/resources/aworset.go:99-180 | After any commands at two replicas the merge has x exactly if a replica that touched it ended with an add, or neither touched it and it was there |
| AddWinsSet.MergedClock | distsys/resources/aworset.go:150-194 | Where both sides have an element added, or both removed, the merge keeps the least clock above both; where they differ, the survivor's own |
| AddWinsSet.WriteIsLater | distsys/resources/aworset.go:114-141 | A write gives its element a clock later than all its replica knew of it, by one event of its own |
| AddWinsSet.ObservedAddIsRemoved | distsys/resources/aworset.go:114-180 | An add that a replica has merged is taken away by that replica's remove, wherever it is merged again |
| NestedCrdt.CombineFn | systems/nestedcrdtimpl/nestedcrdtimpl_test.go:53-73 | The two passes compute the entrywise maximum |
| NestedCrdt.CRDTResource.ReceiveReq | systems/nestedcrdtimpl/NestedCRDTImpl.go:271-484 | What each request does to state, snapshot and peers still to update, and what a read answers |
| NestedCrdt.SectionsAreAsAsked | systems/nestedcrdtimpl/NestedCRDTImpl.go:286-469 | A section is what has been asked of the node since its last abort or commit, and the committed totals are the sums of what it was asked to commit |
| NestedCrdt.ReadsSeeSnapshotAndOwnWrites | systems/nestedcrdtimpl/NestedCRDTImpl.go:286-376 | In any run a read is answered from the state at the section's first request and the writes asked for since; right after an abort or commit, from the current state |
| NestedCrdt.ReadOnlySectionsSendNothing | systems/nestedcrdtimpl/NestedCRDTImpl.go:410-445 | A section that wrote nothing and met no merge changes nothing and sends nothing |
| NestedCrdt.Converges | systems/nestedcrdtimpl/NestedCRDTImpl.go:286-543 | Whatever is written, once everything is delivered all nodes agree; they read at least the sum of all committed increments, and the sum exactly if no commit lost a section |
| NestedCrdt.NoOvercount | systems/nestedcrdtimpl/NestedCRDTImpl.go:485-543 | At any time a node's entry for another is at most that one's own, and what it has committed if it has lost no section |
| NestedCrdt.OwnEntryCounts | systems/nestedcrdtimpl/nestedcrdtimpl_test.go:53-81 | In any run a node's own entry is at least what it has committed, and exactly that if and only if it has lost no section |
| NestedCrdt.EntriesNeverFall | systems/nestedcrdtimpl/NestedCRDTImpl.go:286-543 | No entry of a node's state ever falls, whatever is written |
| NestedCrdt.CommitCounts | systems/nestedcrdtimpl/nestedcrdtimpl_test.go:53-81 | In any run a committed section is counted exactly if its sum is not negative or the node had no entry yet, and else not at all |
| NestedCrdt.NegativeWriteIsLost | systems/nestedcrdtimpl/nestedcrdtimpl_test.go:53-81 | After adding 2 and then -1 in two sections the counter reads 2 |
| Permutations.GeneratePermutations | distsys/tla/symbols.go:241-260 | The recursion in place leaves the array as Net says and stores what Stored says |
| Permutations.NetIs | distsys/tla/symbols.go:241-260 | Where every element ends up, for every size, odd and even |
| Permutations.PhaseIs | distsys/tla/symbols.go:241-260 | Where every element stands at the start of each recursive call |
| Permutations.StoredReorders | distsys/tla/symbols.go:241-260 | Only reorderings of the first k elements are stored |
| Permutations.EveryOrderIsStored | distsys/tla/symbols.go:241-260 | All of them are |
| Permutations.StoredCount | distsys/tla/symbols.go:241-260 | They number k!, so each is stored once |
| Permutations.ModuleSeq | distsys/tla/symbols.go:226-267 | The result is exactly the orderings of the set's elements, n! of them, also for the empty set |
| Values.Transitive | distsys/tla/value.go:345-660 | Equality of nested values is transitive |
| Values.Symmetric | distsys/tla/value.go:345-660 | and symmetric, although functions are compared one way only |
| Values.Reflexive | distsys/tla/value.go:345-660 | and reflexive |
| Values.EqualHashAlike | distsys/tla/value.go:333-343 | Equal values have equal hashes, whatever the order of their elements |
| Values.SetsEqualIffSameMembers | distsys/tla/value.go:345-370 | Two sets are equal exactly if they have the same members |
| Values.MakeSetHasMembers | distsys/tla/value.go:321-327 | A set built from a list has no element twice and exactly the listed members |
| Values.PlainEquality | distsys/tla/value.go:454-471 | Values built of booleans, numbers, strings and tuples are equal exactly if they are the same |
| Values.FunctionsEqualIffSameGraph | distsys/tla/value.go:635-653 | Functions are equal exactly if they have the same domain and equal values on it |
| Values.EqualIsSameValue | distsys/tla/value.go:345-653 | The comparison by kind, size and hashed lookups decides, on all nested values, whether they are the same mathematical value |
| Values.TuplesCollide | distsys/tla/value.go:443-633 | All tuples have the same hash, and functions one that depends on the parity of their number of fields only; equality tells those of different size apart |
| HashMap.LookupAfterSet | distsys/hashmap/hashmap.go:21-55 | A lookup after a set gives the new value for every equal key and the old one for all others |
| HashMap.HashMap.Set | distsys/hashmap/hashmap.go:21-40 | The same for the map in place, which lists a new key last and an old one not again |
| HashMap.HashMap.Get | distsys/hashmap/hashmap.go:42-55 | The loop finds what the map holds for a key |
| HashMap.SetKeepsMapOk | distsys/hashmap/hashmap.go:21-40 | The list of keys stays without repetition and exactly the keys something is held for |
| LockService.AServer.ServerRespond | systems/locksvc/locksvc.go:73-165 | A lock request is queued and granted if it is alone; an unlock grants the lock to the next in the queue |
| LockService.MutualExclusion | systems/locksvc/locksvc.go:174-243 | At most one client has the lock, with any number of clients |
| LockService.GrantsFollowArrivals | systems/locksvc/locksvc.go:73-165 | Every request has been granted, in the order the server took them up, except those behind the head of the queue |
| LockService.NeverStuck | systems/locksvc/locksvc.go:73-243 | While some client has not had the lock, some step can be taken |
| LockService.NothingFails | systems/locksvc/locksvc.go:125-157 | Head and Tail are never applied to an empty queue |

## Left out

- Sockets, RPC, encoding, the database, timers, logging, tracing clocks and Close paths: the database is a map, queues are sequences, timeouts are choices.
- 32-bit integers: counters and indices are unbounded integers, so overflow is not modelled.
- Raft's clients: a request may arrive at any server at any time; the failure answers of other servers and the clients' retries are not modelled.
- Raft's failure detector, leader timeout and the condition on the length of the message queue: they only decide when a section runs or whether a message is sent, and the model allows every choice.
- Raft's crasher processes: the shipped bootstrap never enables them; a crashed server is one that takes no more steps.
- The signal channel that starts an append round early (systems/raftkvs/raftkvs.go:1290-1293): a round may start at any time.
- raftres: the proposal listener is a second process with its own message; its section commutes with the handler's receipt of a message, so proposals are modelled as requests to the handler. Proposals forwarded to the leader are requests to that server.
- raftres: a write to the accept channel is taken to happen with its critical section; the real channel is written by a goroutine after the commit.
- RaftSafety.StoreIsReplayOfCommitted: says nothing about the persistent log of raftres, where two processes own separate copies of it.
- RaftProcess.AServer: the class is the server of raftkvs; the two processes only raftres has are modelled as functions.
- Liveness of Raft, of the lock service and of the mailboxes: only safety is stated.
- CriticalSection.IncMap.Write: a map's elements are local values here; the source's map holds resources of any kind.
- CriticalSection.IncMap.Commit: likewise, so an element commits at once.
- CriticalSection.IncMap.Abort: likewise, so an element aborts at once.
- CriticalSection.MPCalContext.Read: whole values only; the source also reads through indices, which `IncMap` does.
- CriticalSection.MPCalContext.Write: whole values only; the source also writes through indices, which `IncMap` does.
- CriticalSection.MPCalContext.Commit: the answers of the first phase are a parameter, since the shared values modelled here never refuse; the event clock is not modelled.
- Serializability.StepKeepsInv: a value is an integer; writing into part of a function value (distsys/archetyperesource.go:194-217) is one write of the whole value.
- Serializability.OnlyConflictsWait: says when there are enough units; that the semaphore serves waiting calls in order, so that a call may wait behind one that needs more, is not modelled.
- Indexing directly into a localShared, which takes no lock (distsys/resources/localshared.go:142-144), and its GetState.
- TcpMailboxes.DeliveredInCommitOrder: one live connection per sender; redelivery after a connection is lost during the commit handshake (distsys/resources/tcpmailboxes.go:238-254) is a known gap of the code.
- CrdtResource.StableOnlyGrows: broadcasts and replies may be sent at any time; the flag that suppresses broadcasts without new writes is not modelled.
- CrdtResource.Converges: asks for a broadcast since the last commit; that there is one depends on that flag, which a write sets and a broadcast in the middle of a section clears again.
- AddWinsSet.AddWins: two replicas; merging three or more is not associative in the clocks it keeps, because those of a concurrent add and remove are not joined.
- NestedCrdt.Converges: the network loses nothing, as the claim needs; the archetype's request and answer channels are not modelled.
- Values: the constructors of tuples, records, function sets and record sets; hashing treats the FNV-1a functions as arbitrary.
- HashMap.HashMap.Set: asks for a well-formed key, which every constructed value is.
- distsys/resources/channels.go: input channels undo reads as the local mailbox does, which is proved there; output channels buffer until commit.
- distsys/resources/twopc.go, lww.go and nestedarch.go, procedure calls, the replicated key-value store with clocks, the primary-backup store and the smaller systems.
