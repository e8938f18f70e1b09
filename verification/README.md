# A verified model of the git6824 systems

This project models, in Dafny 4.11, the four parts of the repository that carry its hardest promises, and
proves those promises for all inputs, all runs and all reachable states.

* **The linearizability checker** (`src/porcupine`, `src/models/kv.go`). `Histories` says what it means for a concurrent
  history to be linearizable. `Search` is the backtracking search as a state machine over plain values, with its
  completeness argument. `Bitsets`, `LinkedEntries` and `Checker` are the code in its own form: word arrays, a doubly linked list
  that is unlinked and relinked in place, an explicit stack and a hash-bucketed cache; every round of the loop is proved to be a step of
  the search. `EntryLists`, `Parallel` and `KvModels` lead from recorded operations or events to the verdict on the whole key/value service, and
  `Visualization` is what is drawn of the checker's report.
* **Raft** (`src/raft/raft.go`). `RaftServer` gives the effect of every lock-held section as a function; `RaftNode` is the server as an
  object with the original loops, proved against those functions. `RaftHandlers` says what the handlers promise, without those
  functions. `RaftCluster` is the protocol: any number of servers that crash and restart
  and a network that loses, delays, reorders and repeats messages. `RaftElections`, `RaftLogs`, `RaftAcks`, `RaftLeaders` and `RaftSafety` build up an
  invariant of all runs, ending in Leader Completeness and State Machine Safety. `RaftProgress` shows that no run is ever stuck: any majority can go
  on to elect a leader and get a command through. `RaftOldTerms` is a run in which safety is lost when
  leaders commit entries of earlier terms, and `RaftMixedTerms` a run of the votes alone in which a term gets two leaders because one
  election asks in two terms. `RaftCompaction` shows that cutting the log at a snapshot is invisible.
* **The key/value service** (`src/kvraft`). `KvServer` is one server, `KvService` the service on a committed log that only grows, with
  clerks that retry without bound: every reachable history is linearizable, and every call that is going on can be finished.
* **The shard controller** (`src/shardctrler/server.go`). `ShardBalance` is the rebalancer with its loops over maps in arbitrary order, `ShardMoves` what it
  achieves, `ShardLimits` exactly when it does not, and `ShardController` the replicated state machine around it.

`Sealing` holds one always-true predicate. Large invariants are stated under it so that the verifier looks into them only where a proof asks for it.

## Assumptions

* A checker model's step is a function of state, input and output, and its equality is reflexive and not visible to the step. Every operation
  returns no earlier than it is called, and every event id has one call and, later, one return.
* `kill`, the order in which workers report and the timeout are parameters of the checker. A history without any partition only ever times out.
* A machine word is a sequence of 64 bits. Times, terms, indexes and request numbers are unbounded.
* All vote requests of one `elect()` call carry the term in which it was started, and each asks every peer once, so that its counter is one more than the
  number of peers counted. The code re-reads the term for every peer (raft.go:419-425); `RaftMixedTerms` shows that Election Safety is lost when a call does
  begin in one term and go on in another.
* The Raft runs are those of a service that never calls `Snapshot` (src/kvraft/server.go:186), so logs begin at index 0. Storage keeps exactly what `persist` wrote; `RaftNode` proves
  that this is the current term, vote and log whenever the lock is free.
* Leader Completeness is stated for every commit that lands on an entry of the leader's own term, and State Machine Safety for runs in which all do. The design says
  so (Readme.md:155); the guard in the code compares the term of the reply instead (raft.go:682). The model follows the code, and `RaftOldTerms` shows that the
  rule cannot be dropped.
* Under the key/value service, Raft is a committed log. Clerk ids are distinct. A request can be committed any number of times, at any time after it was made.
* Group ids are positive and 0 stands for no group. The number of shards is arbitrary and positive. A Move names a shard that exists and, where owners are concerned, a
  group of the current configuration.

## Model

| member | source | states |
|---|---|---|
| `Histories.PartialIffContinues` | src/porcupine/model.go:28-38 | A partial linearization, defined by order and real time, is the same as one built by taking, one at a time, operations that nothing left had to precede |
| `Histories.FullIffPartial` | src/porcupine/model.go:28-38 | A linearization is exactly a partial linearization of full length |
| `Search.PushKeepsInv` | src/porcupine/checker.go:191-207 | Linearizing an operation not seen before keeps the search invariant: everything passed over is fully explored, levels on the stack are being explored, records are the longest so far |
| `Search.AdvanceKeepsInv` | src/porcupine/checker.go:208-213 | Passing over a call that the model refuses, or whose set and state are cached, loses no linearization |
| `Search.PopKeepsInv` | src/porcupine/checker.go:214-243 | Backtracking at a return marks the set and state below as explored in full and goes on behind the call that was undone |
| `Search.RunKeepsInv` | src/porcupine/checker.go:179-253 | The invariant holds in every state of every run of the search |
| `Search.StoppedOnEmptyList` | src/porcupine/checker.go:190-252 | With nothing left in the list, the stack is a linearization |
| `Search.StoppedOnReturn` | src/porcupine/checker.go:214-231 | With an empty stack at a return entry there is no linearization, and every partial linearization is matched by a recorded one at least as long for each of its operations |
| `Search.NextShrinks` | src/porcupine/checker.go:190-243 | Every step lowers (pairs not yet cached, stack length, distance to the end of the list), so the search ends |
| `Bitsets.NewBitset` | src/porcupine/bitset.go:10-17 | Just enough words, and no member |
| `Bitsets.Clone` | src/porcupine/bitset.go:19-23 | A new array with the same words |
| `Bitsets.Set` | src/porcupine/bitset.go:25-33 | In place, the set gains exactly the position |
| `Bitsets.Clear` | src/porcupine/bitset.go:35-39 | In place, the set loses exactly the position |
| `Bitsets.Equals` | src/porcupine/bitset.go:62-72 | True exactly if the lengths and the sets are equal |
| `Bitsets.PopCnt` | src/porcupine/bitset.go:46-52 | The number of members |
| `Bitsets.BitsInjective` | src/porcupine/bitset.go:5-17 | Bitsets of one length stand for the same set exactly if they are equal, so equality and hashing of words is equality of sets |
| `LinkedEntries.InsertBefore` | src/porcupine/checker.go:70-81 | The four links around the insertion point, and nothing else changed |
| `LinkedEntries.Length` | src/porcupine/checker.go:83-90 | The number of nodes |
| `LinkedEntries.MakeLinkedEntries` | src/porcupine/checker.go:121-138 | A fresh chain that carries the history in order, every call matched to its return |
| `LinkedEntries.Lift` | src/porcupine/checker.go:159-167 | The list goes from the entries without `p` to the entries without `p + [x]`, in the original order; lifted nodes keep the links they need to come back; the node after the call is written to without a nil test, and is proved to exist |
| `LinkedEntries.Unlift` | src/porcupine/checker.go:169-177 | Undone in stack order, the list is again exactly the entries without the shorter stack; here too the node after the call always exists |
| `Checker.CacheContains` | src/porcupine/checker.go:145-152 | The hash bucket decides membership in the plain visited set of (linearized set, state) pairs, up to the model's equality |
| `Checker.CacheAdd` | src/porcupine/checker.go:200-204 | Adding to a bucket adds exactly that pair to the visited set |
| `Checker.UpdateLongest` | src/porcupine/checker.go:219-229 | The records become the search's records: the stack, for each of its operations that had nothing longer |
| `Checker.CallRound` | src/porcupine/checker.go:191-213 | A round at a call is one step of the search, and list, bitset, cache and stack still represent its state |
| `Checker.ReturnRound` | src/porcupine/checker.go:231-243 | A round at a return is the search's backtracking step, with the same representation |
| `Checker.Rounds` | src/porcupine/checker.go:185-252 | The loop is a run of the search that ends in a state where it has to stop, or was killed |
| `Checker.CheckSingle` | src/porcupine/checker.go:179-253 | Not killed, it answers true exactly if the history is linearizable; killed, it answers false; what it records are partial linearizations containing the operation, and none is longer when partials were asked for or the answer is true |
| `EntryLists.MakeEntries` | src/porcupine/checker.go:39-60 | The entries are those of the operations, each once, sorted by time with calls before returns |
| `EntryLists.SortedIsFaithful` | src/porcupine/checker.go:39-60 | The sorted entries are well formed and have the same full and partial linearizations as the operations under "A before B iff A.Return < B.Call" |
| `EntryLists.Renumber` | src/porcupine/checker.go:92-106 | Ids become 0, 1, ..., in the order of first appearance, equal where they were equal and nowhere else |
| `EntryLists.ConvertEntries` | src/porcupine/checker.go:108-119 | Same kinds, values and ids, positions as times |
| `EntryLists.EventsAreWellFormed` | src/porcupine/checker.go:92-119 | Renumbered events make entries that the search accepts |
| `Parallel.UniquePartials` | src/porcupine/checker.go:320-336 | The records of a part without repetition, none added and none lost |
| `Parallel.Collect` | src/porcupine/checker.go:290-313 | For any order of results: the answer so far is the conjunction over the workers heard, all that arrive before the timeout are heard unless a failure ended the loop, and with no failure the timeout counts exactly if some worker was not done |
| `Parallel.CheckParallel` | src/porcupine/checker.go:274-353 | Illegal exactly if some part whose worker is done before the timeout is not linearizable, Ok exactly if there are parts, all workers are done before the timeout and all parts are linearizable, otherwise Unknown; what is reported are partial linearizations, and the longest ones for every part done before the timeout |
| `Parallel.UniqueIsEnough` | src/porcupine/checker.go:320-336 | What is listed are partial linearizations, and a longest one for every operation if the records were |
| `Parallel.CheckOperations` | src/porcupine/checker.go:365-373 | The same verdicts, in both directions, about the operations themselves |
| `Parallel.CheckEvents` | src/porcupine/checker.go:355-363 | The same verdicts, in both directions, about recorded events: every part becomes a well-formed history of the same kinds and values, with ids equal where they were equal and nowhere else |
| `Visualization.CollectValues` | src/porcupine/visualization.go:39-52 | The values found by walking the history are the input and output of each operation |
| `Visualization.ReplayPartial` | src/porcupine/visualization.go:54-71 | It panics exactly if the model refuses the order; otherwise the states described are those after each prefix |
| `Visualization.MarkLargest` | src/porcupine/visualization.go:66-69 | The next partial takes over exactly the operations that had nothing as long, so the named ones stay the longest |
| `Visualization.ReplayPart` | src/porcupine/visualization.go:36-71 | It panics exactly if some listed partial is refused by the model; otherwise every operation listed gets one of the longest partials that contain it |
| `Visualization.CheckAndVisualize` | src/porcupine/visualization.go:33-78 | For any order of results and any timeout the visualizer does not panic on what the checker reports, it shows every operation with a longest listed partial linearization, and with one that is longest of all if its part was done before the timeout |
| `KvModels.StepIsLocal` | src/models/kv.go:35-54 | A step of a whole map is the step of the key it names, and leaves all other keys alone |
| `KvModels.Partition` | src/models/kv.go:18-34 | One part per key, keys sorted, each part the operations on its key in the order of the history |
| `KvModels.HeadIsFree` | src/models/kv.go:18-34 | The first operation in the order of the key that owns the earliest return is preceded by nothing that is left |
| `KvModels.Merge` | src/models/kv.go:18-34 | Per-key orders merge into one order that respects real time and every step of the map |
| `KvModels.Locality` | src/porcupine/model.go:28-32 | A history is linearizable against the map exactly if each part is against a single string |
| `KvModels.CheckKv` | src/porcupine/checker.go:365-373 | Ok exactly if there are keys, all are done before the timeout and the whole history is linearizable against the map; Illegal exactly if some key done before the timeout shows a violation, and then the whole history is not linearizable |
| `RaftNode.Raft.ToFollower` | src/raft/raft.go:217-225 | Role, term and vote as given, on disk too |
| `RaftNode.Raft.ToCandidate` | src/raft/raft.go:228-237 | Next term, own vote, on disk too |
| `RaftNode.Raft.ToLeader` | src/raft/raft.go:202-214 | Every nextIndex is one past the log and every matchIndex 0 |
| `RaftNode.Raft.MakeVoteRequest` | src/raft/raft.go:420-425 | The request is that of the specification, whose meaning `RaftHandlers.VoteRequestIs` states |
| `RaftNode.Raft.RequestVote` | src/raft/raft.go:452-475 | State, reply and disk are those of the specification of a vote, whose meaning `RaftHandlers.VoteGrantedIff` and `RaftHandlers.VoteChanges` state |
| `RaftNode.Raft.CountVote` | src/raft/raft.go:432-445 | A counted vote, and leadership at a majority, exactly as specified; `RaftHandlers.VoteCountedIs` says when |
| `RaftNode.Raft.MakeAppendRequest` | src/raft/raft.go:568-610 | There is a request exactly if the server leads and the peer needs no snapshot, and then it is that of the specification, which `RaftHandlers.AppendRequestIs` describes |
| `RaftNode.Raft.AppendEntries` | src/raft/raft.go:730-797 | With both scanning loops: log, commitIndex, reply and disk are those of the specification, which `RaftHandlers.AppendAcceptedIff`, `AppendChanges`, `AppendTakes` and `RefusalTells` describe in full |
| `RaftNode.Raft.HandleAppendEntriesReply` | src/raft/raft.go:632-696 | With both loops: term, role, nextIndex, matchIndex and commitIndex are those of the specification, which `RaftHandlers.AnswerIgnored`, `RefusalTaken` and `SuccessTaken` describe in full |
| `RaftNode.Raft.CountHolders` | src/raft/raft.go:681-690 | The counter is one more than the number of other servers known to hold the index |
| `RaftNode.Raft.Start` | src/raft/raft.go:901-924 | A leader appends the command with its term, on disk too, and returns the last index; others change nothing and return -1 |
| `RaftNode.Raft.UpdateApplied` | src/raft/raft.go:840-869 | If the round stays inside the log, the batch is the commands from lastApplied + 1 to commitIndex, in order; it is None exactly where the source would index past the log, which `RaftSafety.GapFree` rules out |
| `RaftNode.Raft.Snapshot` | src/raft/raft.go:388-409 | The log is cut at the index, which stays as its first entry without a command; `RaftHandlers.SnapshotIs` says what is kept |
| `RaftNode.Raft.Recover` | src/raft/raft.go:299-352 | A server that comes back has the persisted term, vote and log, and nothing volatile |
| `RaftServer.RunStart` | src/raft/raft.go:761-770 | The first index of a run of equal terms, less one |
| `RaftServer.LastOfTerm` | src/raft/raft.go:653-663 | The last index with a term, or 0 |
| `RaftHandlers.VoteRequestIs` | src/raft/raft.go:420-425 | A candidate asks with its term and the index and term of its last entry, also when its log has been cut |
| `RaftHandlers.AppendRequestIs` | src/raft/raft.go:594-610 | A leader sends everything from the peer's nextIndex on, with the index and term of what comes before, its term and its commitIndex |
| `RaftHandlers.VoteGrantedIff` | src/raft/raft.go:241-246 | A vote is given exactly if the request is of a later term, or of this one and the vote is free or the candidate's; and the candidate's log ends in a later term, or in the same and is no shorter |
| `RaftHandlers.VoteChanges` | src/raft/raft.go:452-475 | The reply carries the larger term; term, role and vote become those of it and of the vote given, and nothing else changes |
| `RaftHandlers.VoteCountedIs` | src/raft/raft.go:432-445 | A later term makes a follower; a vote for another term, or not granted, changes nothing; a counted one makes a leader exactly at a majority, with every nextIndex past the log and every matchIndex 0 |
| `RaftHandlers.AppendAcceptedIff` | src/raft/raft.go:742-773 | Entries are taken exactly if they are of no earlier term and the log has the preceding index with the preceding term |
| `RaftHandlers.AppendChanges` | src/raft/raft.go:742-748 | The reply carries the larger term; a later term, or a candidate of the same, makes a follower without a vote; a refusal changes neither log nor commitIndex |
| `RaftHandlers.AppendTakes` | src/raft/raft.go:774-796 | The log stays if the entries are all in it and it goes on behind them, otherwise it is cut and they are appended; commitIndex follows the leader's as far as the entries go |
| `RaftHandlers.CommitFallsIff` | src/raft/raft.go:792-796 | On arbitrary requests the handler lowers commitIndex exactly if the leader has committed more and what it sends ends before what this server has for committed |
| `RaftHandlers.RefusalTells` | src/raft/raft.go:754-772 | What a refusal names: nothing, one past the end, or the term found and the first index of its run |
| `RaftHandlers.AnswerIgnored` | src/raft/raft.go:641-646 | A reply with a later term makes the leader a follower of it without a vote; a reply of the past changes nothing |
| `RaftHandlers.RefusalTaken` | src/raft/raft.go:649-664 | Only that peer's nextIndex changes: past the last entry of the term named, if there is one, and to the index named otherwise |
| `RaftHandlers.SuccessTaken` | src/raft/raft.go:666-694 | matchIndex never falls and nextIndex is past the log; commitIndex moves to the new match exactly if that is news, is ahead and a majority is known to hold it |
| `RaftHandlers.SnapshotIs` | src/raft/raft.go:388-409 | Everything behind the cut is kept, the cut keeps its term, and lastApplied never falls |
| `RaftHandlers.TermsAreFollowed` | src/raft/raft.go:641-646 | Whoever handles a vote request, a vote, entries or an answer is then in the larger of its own term and the message's; in a new term it is a follower whose vote is free or just given to the sender |
| `RaftHandlers.AnswersCarryTheTerm` | src/raft/raft.go:460 | Every answer carries the term its sender is then in |
| `RaftHandlers.TermsNeverFall` | src/raft/raft.go:217-237 | In every run no server goes back to an earlier term, restarts included |
| `RaftElections.MoveIsSafe` | src/raft/raft.go:217-237 | No step but the counting of a vote upsets votes already given |
| `RaftElections.AppendIsSafe` | src/raft/raft.go:742-744 | Only a candidate of a term that already has a leader gets its vote back |
| `RaftElections.LateCandidate` | src/raft/raft.go:437-445 | A candidate of a term with a leader has no vote of that leader's quorum |
| `RaftElections.FirstToWin` | src/raft/raft.go:412-449 | A candidate with a majority is the first in its term |
| `RaftElections.NextKeeps` | src/raft/raft.go:412-475 | Every step keeps: votes stay given until a term has a leader, and members of the leader's quorum keep theirs for the whole term |
| `RaftElections.ElectionSafety` | src/raft/raft.go:412-475 | In every run, two leaders of one term, at the same or different times, are the same server |
| `RaftLogs.MergedIs` | src/raft/raft.go:774-791 | After AppendEntries the receiver agrees with the sender through the end of what was sent, and a stale or shorter matching request takes nothing away |
| `RaftLogs.Received` | src/raft/raft.go:754-791 | The same for a server in any reachable state |
| `RaftLogs.NextKeeps` | src/raft/raft.go:595-610 | Every step keeps: whatever ends in an entry of some term is the beginning of that term's leader's log; requests carry pieces of it |
| `RaftLogs.LogMatching` | src/raft/raft.go:754-791 | In every run, logs with the same term at an index are identical up to it, at any two times, and terms ascend |
| `RaftAcks.TakesKeeps` | src/raft/raft.go:774-791 | Acknowledged entries survive a request, or some later leader was elected without them |
| `RaftAcks.NextKeeps` | src/raft/raft.go:452-475 | Every step keeps that, and every vote records what the voter still had |
| `RaftLeaders.BackUpProgress` | src/raft/raft.go:649-664 | After a rejection the new nextIndex is at least 1 and at most the rejected PrevLogIndex |
| `RaftLeaders.RejectionProgress` | src/raft/raft.go:754-772 | The same for every rejection a leader takes notice of in any run |
| `RaftLeaders.NeverOutOfRange` | src/raft/raft.go:565-610 | In every reachable state a leader's nextIndex points into its log |
| `RaftLeaders.MatchIndexTruthful` | src/raft/raft.go:666-678 | While a peer stays in the leader's term, it agrees with the leader through matchIndex |
| `RaftLeaders.CommitIsChosen` | src/raft/raft.go:679-694 | When a leader advances commitIndex to n, a majority had acknowledged its log through n in that term |
| `RaftLeaders.AckHeld` | src/raft/raft.go:774-796 | Whatever was acknowledged for a term, its sender had in its log at some time in that term |
| `RaftLeaders.CommitWasMatched` | src/raft/raft.go:666-694 | In every run, when a leader advances commitIndex to n there is a majority of servers each of which, at some time up to then and in that term, had exactly the leader's log through n |
| `RaftSafety.PassedOn` | src/raft/raft.go:241-246 | A voter that is not fresher than the candidate and has an entry passes it on to the new leader |
| `RaftSafety.Completeness` | src/raft/raft.go:241-246 | What a majority acknowledged of a leader's own term, every later leader was elected with |
| `RaftSafety.LeaderCompleteness` | src/raft/raft.go:679-694 | In any run, a commit of an own-term entry is in the log of every leader of a later term, with everything before it |
| `RaftSafety.NextKeeps` | src/raft/raft.go:774-796 | Every step that obeys the rule keeps every commitIndex inside a log that agrees with something committed |
| `RaftSafety.StateMachineSafety` | src/raft/raft.go:840-869 | In every run that obeys the rule, no two deliveries at one index differ, restarts included |
| `RaftSafety.GapFree` | src/raft/raft.go:840-869 | In every state of every run that obeys the rule, what a server has handed over since it was last started is exactly the commands 1, 2, ..., lastApplied of its log, and the next round does not leave the log |
| `RaftSafety.CommitNeverFalls` | src/raft/raft.go:792-796 | In every run that obeys the rule, no server that stays up lowers its commitIndex or lastApplied |
| `RaftSafety.HandedOverIsDelivered` | src/raft/raft.go:840-869 | The j-th command handed over since the last start is a recorded delivery at index j |
| `RaftSafety.ServicesAgree` | src/raft/raft.go:840-869 | At any two times, any two servers have handed over the same command at every position both have reached, restarts included |
| `RaftProgress.GainVote` | src/raft/raft.go:412-449 | A candidate that asks a server behind it in term and not ahead in log gets its vote and counts it |
| `RaftProgress.Campaign` | src/raft/raft.go:412-449 | Votes from servers that with the candidate make a majority make it the leader |
| `RaftProgress.Replicate` | src/raft/raft.go:565-696 | However far a follower's log has strayed, finitely many refusals lead to a request that it takes; then it is known to hold all the leader has, and the leader commits if that makes a majority |
| `RaftProgress.CommandsGetThrough` | src/raft/raft.go:412-869 | Every run that obeys the rule can be continued, obeying it, so that all members of any given majority of two or more servers deliver a given command at one index, whatever was lost, delayed or crashed before |
| `RaftProgress.AloneNeverLeads` | src/raft/raft.go:412-449 | A cluster of one server never has a leader, as nobody ever counts a vote |
| `RaftOldTerms.OldTermsAreNotSafe` | src/raft/raft.go:682-690 | For any two different commands there is a run of three servers, with a commit that lands on an entry of an earlier term, in which server 0 delivers the one and server 1 the other at index 1 |
| `RaftMixedTerms.MixedTermsAreNotSafe` | src/raft/raft.go:412-449 | There is a run of five servers, in which a call of elect() asks some peers in term 1 and others in term 2, with two leaders of term 2 |
| `RaftCompaction.SnapshotTrims` | src/raft/raft.go:388-409 | Snapshot leaves a server that differs from the old one only in what is before the cut |
| `RaftCompaction.RequestsInvisible` | src/raft/raft.go:594-610 | A server with a cut log sends the same vote requests, and the same entries wherever it can send entries at all |
| `RaftCompaction.VoteInvisible` | src/raft/raft.go:452-475 | A server with a cut log gives the same votes |
| `RaftCompaction.AppendInvisible` | src/raft/raft.go:754-791 | To entries from the cut on it gives the same reply, conflict term and index included, except that a conflict is never said to begin before the first entry left; and it ends with the same log from the cut on |
| `RaftCompaction.CompactionInvisible` | src/raft/raft.go:182-194 | The same for every sequence of requests, timeouts, submissions and restarts, with all replies compared |
| `KvServer.LastIsLargest` | src/kvraft/server.go:155-176 | The table holds, per clerk, the largest request number applied |
| `KvServer.TableCovers` | src/kvraft/server.go:66-75 | The table reaches a request number exactly if the log holds that request or a later one of the same clerk |
| `KvServer.AnswerIs` | src/kvraft/server.go:155-171 | A write is answered OK, duplicate or not; a Get OK with the value if the key is there, and ErrNoKey otherwise |
| `KvServer.UpdateIs` | src/kvraft/server.go:155-164 | A new write sets its key to the value, or appends it to what is there; nothing else changes the map |
| `KvServer.LateEntries` | src/kvraft/server.go:150-198 | Entries i..j received after the snapshot at j change neither map nor table |
| `KvServer.SnapshotAndSuffix` | src/kvraft/server.go:119-145 | A snapshot and everything from any earlier point on amount to the whole log |
| `KvServer.KVServer.constructor` | src/kvraft/server.go:237-258 | Starts from the persisted snapshot, or empty |
| `KvServer.KVServer.CreateSnapshot` | src/kvraft/server.go:119-128 | Restored, it is the server's state; for every log the server has applied up to j and every earlier i, a server started from it that is given the entries from i on ends as if it had applied the whole log |
| `KvServer.KVServer.ReadSnapshot` | src/kvraft/server.go:129-145 | Replaces both, or neither if it does not decode |
| `KvServer.KVServer.IsApplied` | src/kvraft/server.go:66-75 | The early OK for a request number above 0 is given exactly if, in every log that leads to this state, the request or a later one of that clerk occurs |
| `KvServer.KVServer.FetchApply` | src/kvraft/server.go:150-183 | Map and table are those of applying the entry; if leader, the request at that index is answered, a write with OK whether new or not, a Get with the value or ErrNoKey |
| `KvService.NextKeeps` | src/kvraft/server.go:66-98 | Every step keeps: replicas are replays of prefixes, waiting answers are right for their index, finished calls took effect while they were going on |
| `KvService.SeenIsLogged` | src/kvraft/server.go:66-75 | If any replica, however far it lags, has the request or a later one of that clerk in its table, the request itself is in the log |
| `KvService.WaitingAnswersAreRight` | src/kvraft/server.go:177-182 | In every run whoever waits for an answer gets the one for its place in the log; a write is never told anything but OK |
| `KvService.ExactlyOnce` | src/kvraft/server.go:155-176 | A Put or Append is applied at its first place in the log and at no other |
| `KvService.LogRespectsTime` | src/kvraft/client.go:49-113 | The order of the log never contradicts the order of calls and returns |
| `KvService.OrderRuns` | src/kvraft/server.go:150-183 | After the calls that take effect in a prefix, a single map holds what a server holds after it |
| `KvService.ServiceIsLinearizable` | src/kvraft/client.go:49-113 | In every state of every run, with replies that are lost, delayed, repeated and arrive after the replica has moved on or crashed, the finished calls, with some unfinished ones, are linearizable against a map of strings |
| `KvService.CallsCanFinish` | src/kvraft/client.go:49-113 | Every run can be continued so that a call that is going on is finished, by any replica |
| `KvService.ReplicasAgree` | src/kvraft/server.go:146-198 | Every replica is the replay of the prefix it has applied, snapshots and restarts or not |
| `ShardBalance.GetNext` | src/shardctrler/server.go:618-631 | The smallest group, whatever the order of the walk |
| `ShardBalance.GetGidWithMaxShards` | src/shardctrler/server.go:634-649 | The smallest of the groups with most shards, whatever the order of the walk |
| `ShardBalance.GetGidWithMinShards` | src/shardctrler/server.go:652-670 | The smallest of the groups with fewest shards, whatever the order of the walk |
| `ShardBalance.GetShardsMap` | src/shardctrler/server.go:671-682 | The list of every group that owns something |
| `ShardBalance.ListsTidy` | src/shardctrler/server.go:671-682 | Those lists hold every shard once, under its owner |
| `ShardBalance.ShiftShrinks` | src/shardctrler/server.go:566-577 | Every round of levelling lowers the sum of the squared list lengths |
| `ShardBalance.Level` | src/shardctrler/server.go:566-577 | The loop ends, and the array is a function of what it started from |
| `ShardBalance.Balance` | src/shardctrler/server.go:545-579 | In place, the shards become a function of the shards and the group ids alone, so replicas agree whatever order their maps are walked in |
| `ShardMoves.OutcomeBalanced` | src/shardctrler/server.go:545-579 | If there is any group to be had, every shard gets one that was seen, and counts are within one |
| `ShardMoves.JoinResult` | src/shardctrler/server.go:483-494 | Joining fresh groups moves shards from old groups to new ones only, and leaves all groups level |
| `ShardMoves.JoinIsMinimal` | src/shardctrler/server.go:483-494 | No level assignment over the same groups moves fewer shards |
| `ShardMoves.JoinOrder` | src/shardctrler/server.go:566-577 | Of every old group the shards with the smallest numbers move; of old groups with equally many the smaller ids end with fewer, of new groups the larger ids |
| `ShardMoves.LeaveResult` | src/shardctrler/server.go:496-526 | The remaining groups are level, and a moved shard belonged to a leaving group or to the smallest remaining one |
| `ShardLimits.JoinLevelsIff` | src/shardctrler/server.go:483-494 | From any configuration with owners among its groups, a Join levels all groups exactly if none of the old ones is without shards or there are no more shards than groups seen |
| `ShardLimits.JoinMissesIdleGroup` | src/shardctrler/server.go:483-494 | A configuration after Moves in which a Join does not |
| `ShardLimits.LeaveMinimalIff` | src/shardctrler/server.go:496-526 | A Leave from a level configuration moves as few shards as possible exactly if the smallest remaining group owns nothing or can keep all that falls to it |
| `ShardLimits.LeaveNotMinimal` | src/shardctrler/server.go:566-577 | A configuration in which it does not |
| `ShardController.ShardCtrler.DealJoin` | src/shardctrler/server.go:483-494 | One configuration more, with the next number: rebalanced shards, old and new groups, with the new addresses for those that join |
| `ShardController.ShardCtrler.DealLeave` | src/shardctrler/server.go:496-526 | One configuration more, with the next number: vacated and rebalanced shards, the groups that do not leave with their addresses |
| `ShardController.ShardCtrler.DealMove` | src/shardctrler/server.go:527-533 | One configuration more, with the next number: that shard belongs to that group, all others to whom they did, same groups |
| `ShardController.ShardCtrler.DealQuery` | src/shardctrler/server.go:534-541 | A recorded configuration: the one that bears the number asked for, or else the one with the largest number |
| `ShardController.ShardCtrler.FetchApply` | src/shardctrler/server.go:700-734 | The new state is a function of the old one and the entry; duplicates of changes change nothing, queries are answered afresh |
| `ShardController.JoinOk` | src/shardctrler/server.go:483-494 | A Join keeps owners among the groups, and level configurations level |
| `ShardController.LeaveOk` | src/shardctrler/server.go:496-526 | A Leave makes every configuration level, whatever Moves came before |
| `ShardController.RunOk` | src/shardctrler/server.go:696-747 | In every run configuration i has number i, owners are groups of it or all shards are without one, and past configurations stay as they were |
| `ShardController.RunBalanced` | src/shardctrler/server.go:483-526 | In every run without Moves every configuration is level over all its groups |
| `ShardController.TableIsLargest` | src/shardctrler/server.go:731-734 | In every run the table holds each clerk's largest request number so far, and nobody who has made no request |
| `ShardController.DuplicateIff` | src/shardctrler/server.go:705-707 | An entry is skipped exactly if it is a change and an earlier entry of its clerk had its number or a larger one |
| `ShardController.ChangesTakeEffectOnce` | src/shardctrler/server.go:705-734 | In every run the configurations are exactly those made one after the other by the changes that no earlier request of the same clerk repeats or overtakes |
| `ShardController.EffectsDiffer` | src/shardctrler/server.go:705-707 | No request takes effect twice |
| `ShardController.MoveTakesEffect` | src/shardctrler/server.go:527-533 | In every run, after a Move that is no duplicate the latest configuration gives that shard to that group and leaves the rest |

## Left out

- `InstallSnapshot` and `CondInstallSnapshot`: the latter keeps a suffix without comparing terms at the cut, so Log Matching across installs is not claimed.
- Leader Completeness without the own-term rule: it is false of the code, as `RaftOldTerms.OldTermsAreNotSafe` shows; the condition proved sufficient, an entry of the leader's own term, is not claimed to be necessary for every single commit.
- Timers, heartbeats and the goroutine and channel plumbing around them: that elections and replication can always come to an end is proved, that timers make them do so is not.
- The time between taking a batch of commands and handing it over the apply channel: a batch is delivered in one step.
- Checker.CacheEntry: the bitset stored in the cache is a value, so that the clone (checker.go:198) is never written to again holds by construction and is not proved on the heap; `Bitsets.Clone` proves that the clone is a fresh array with the same words.
- Bitsets.Hash: nothing is said about the quality of the hash; the cache is correct for any hash that is a function of the words.
- Deduplication of partial linearizations goes by contents, where the source goes by pointer.
- Entry sorting: of `sort.Sort` only the order and that nothing is lost or added is modelled, with an insertion sort in its place.
- Clerk leader rotation and `ErrWrongLeader` retries: a retry may reach any replica at any time.
- Client ids in histories, descriptions, the order in which the visualizer lists partial linearizations, its HTML and debug printing.
- Stored answers in the shard controller's request contexts, and its wait channels.
- src/labrpc, src/labgob and src/raft/persister.go: a lossy, reordering network and an exact encode/decode round trip stand for them.
- src/mr, src/mrapps, src/main and src/shardkv: drivers, plugins and unimplemented handlers.
