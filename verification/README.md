# Verified model of stasher

Stasher is a replicated object store. A cluster of nodes elects a master, the
master copies its repository to its slaves, transactions are committed once a
quorum has received them, and clients read, write and subscribe to objects.
This project models the parts of it whose correctness depends on many steps
taken in many orders, and proves what those parts promise.

Where the original is an object whose methods change its fields, the model is a
class whose methods do the same, each proved against a function of the old
state; the functions make up state machines, and the theorems are about every
run of those. `dafny verify dfyconfig.toml` checks everything.

| files | part of stasher |
|---|---|
| `Sets`, `Stores`, `CopyProtocol`, `CopySync`, `CopyTheorems`, `CopyReleases`, `CopyQuiet`, `CopyEnds`, `CopyThreads`, `Enumerator` | copying a repository to a slave while commits go on |
| `NodeStatus`, `ClusterInfo`, `BatonRuns`, `ClusterAgreement`, `StaleUuid` | a node's choice of its master, with and without a baton, and what a cluster agrees on |
| `MasterController`, `MasterRuns`, `MasterDuties`, `NoSplitBrain` | the master's quorum, which slaves it counts, and the transactions it submits for commitment |
| `Handoff` | holding commits for a handoff of mastership or a halt; the baton's end |
| `ControllerChain` | a node's successive controllers and the quorum they publish |
| `ObjectNames`, `ObjectTree` | object names and the directory tree that stores objects |
| `NsView`, `Subscriptions` | a client's namespaces and the server's subscription index |
| `ClientSubscriptions`, `GetWindow` | the client's multiplexed subscriptions and its window of GET requests |

## How the copy is modelled

Everything the source writes goes through one first-in first-out connection. A
message is queued, later serialized, later delivered; a queued object holds its
lock and takes its value when it is serialized, as `objserializer` does. A commit
starts at any moment when nobody holds the name's lock. It changes the object,
and in a later step, still holding the lock, has the notifier queue the name.
The source thread's locks go where they go in the code: on the names of a
slavelist when the last of them was compared, on a batch when it was read, before
the masterlist is queued, so that commits may be forwarded ahead of a list that
is out of date by then. Directory enumeration yields at least the names present
throughout and at most those present at some time. Two objects with the same uuid
at the start are the same object. A matching baton stands for repositories that
were already equal.

The handlers of both threads are modelled as they run (`CopyThreads`). Whichever
message comes, handling it undisturbed, the locks it takes being free, is a run of
these finer steps with the outcome proved of the thread's handler:
`CopyThreads.SourceHandled`, `CopyThreads.DestinationHandled`.

## What the code does that its comments do not say

- `operator==` of a status ignores the uuid, so a node can keep a mastership its
  master has since renewed, and recalculation then changes nothing although the
  master does not count that node: `StaleUuid.StaleUuidIsStable`, with the
  exact condition in `ClusterAgreement.CountsAllIffOneUuid`.
- `check_copy_completed` releases a slave and declares it in sync whether or not
  the copy succeeded. Such a release is exact for every run if and only if the
  repositories were equal to begin with, while one that asks for success always
  is: `CopyReleases.UncheckedReleaseExactIffEqual`, `CopyReleases.CheckedReleaseExact`.
- The completion object of a successful copy releases when it is destroyed, without
  waiting for commits. The destination then misses exactly the changes whose
  commits have yet to call the notifier: `CopyReleases.UnlockedReleaseMissesUnforwarded`.
- With a chunk size of zero both enumerations end at once and the copy succeeds
  without copying anything: `CopyTheorems.CopyExactIffChunkPositive`.
- A master counts a slave until its own end of the connection goes. While a slave
  that left is still counted, two masters can both have a majority. They can with no
  more than k such slaves if and only if there are three nodes or more and k is at
  least one, or two if the number of nodes is even: `NoSplitBrain.TwoMajoritiesOccurIff`.
  Which step makes a master count such a slave is in `NoSplitBrain.FreshStaysIff`.
- A node that is told of a transaction again after it was submitted waits for it, or
  submits it, again. Nothing is submitted twice exactly in the runs without such a
  report: `MasterRuns.NothingTwiceIff`.
- Null characters in object names are accepted, but end the path given to the
  system: `ObjectTree.PathReachesSystemIff`, `ObjectTree.NullNamesCollide`. Such a
  path can be in the way of others, or end in a slash; `ObjectTree.Repository.ObjInstall`
  says for every name what then happens, and exactly when directories are left behind.
  Without such names nothing fails: `ObjectTree.CleanNamesNeverFail`.
- After a failed handoff the transactions held back are submitted only if the
  quorum changed at that moment: `MasterRuns.FailedHandoffSubmitsIffQuorumChanged`.
- `baton.H` describes `master_handoff_complete` as called when a handoff
  completes, but nothing calls it. A baton bound to a master that still runs
  therefore restarts commits whenever it ends. `Handoff.EndedBatonFailed` says so of
  every baton not declared complete, and the theorems of `Handoff` cover runs with
  and without such calls.
- `objrepocopy.H` says the source answers `slavelistdone` with `copycomplete`; the
  code records success and stops, and `copycomplete` is sent by the release.
- `calculate_status_locked` cancels a baton when the node has to fall back on
  itself; a baton that survives `calculate_status_locked_with_baton` never gets
  there, and the model asserts so.
- A client registers everybody who waited for a subscription, also when the
  server refused it: `ClientSubscriptions.RefusedIsRegistered`. The server lacks
  exactly the names it refused last: `ClientSubscriptions.ServerCatchesUp`.
- `fromclient_dir` leaves the name of a namespace that maps to the whole
  repository unmapped: `NsView.DirectoryCommutesIff`.

## Model

| member | source | states |
|---|---|---|
| `CopySync.CommitKeeps` | objrepo.C:208-320 | an object changed under its lock is at once in sync up to what its commit will queue, and every other name stays in sync or untouched and owed |
| `CopySync.ForwardKeeps` | objrepocopysrcthread.C:143-160 | the serializer the notifier queues stands for what the commit that called it stood for, whatever happened between the change and the call |
| `CopySync.SerializeKeeps` | objserializer.H:104-146 | writing the next message, an object with the value it has at that moment, keeps the invariant of the copy |
| `CopySync.DeliverKeeps` | objserializer.H:158-213 | installing or removing a delivered object directly, or delivering a control message, keeps the invariant of the copy |
| `CopySync.SrcStartKeeps` | objrepocopysrcthread.C:517-533 | what was committed between installing the notifier and sending the baton request stays accounted for |
| `CopySync.DstTakeKeeps` | objrepocopydstthread.C:139-240 | whatever control message the destination takes, no name is lost: the obligation to enumerate or list it moves along |
| `CopySync.DstAnswerKeeps` | objrepocopydstthread.C:163-219 | looking up one asked name, while deliveries go on, keeps every name in sync or owed |
| `CopySync.DstNextKeeps` | objrepocopydstthread.C:240-264 | taking the next names of the destination's enumeration, or ending it, loses no name |
| `CopySync.SrcTakeKeeps` | objrepocopysrcthread.C:276-306 | whatever reply the source takes, no name is lost |
| `CopySync.SrcCompareKeeps` | objrepocopysrcthread.C:378-448 | a listed name the source need not send was in sync already, and one it sends becomes so |
| `CopySync.SrcNextKeeps` | objrepocopysrcthread.C:308-376 | once the listed names are compared, and their locks gone, going on to a batch, masterlistdone or masterack loses no name |
| `CopySync.SrcReadKeeps` | objrepocopysrcthread.C:92-111 | a batch read under its lock becomes a list that owes exactly those of its names that exist |
| `CopySync.SrcSendKeeps` | objrepocopysrcthread.C:345-367 | the list is sent without the lock, and loses no name that was committed since it was read |
| `CopySync.ReleaseKeeps` | objrepocopysrcthread.C:212-226 | a successful release, commits being locked, keeps every name in sync with the store released |
| `CopyTheorems.RunKeeps` | objrepocopysrcthread.C:276-471 | over every interleaving of commits, notifications and protocol steps the invariant of the copy holds |
| `CopyTheorems.EveryNameAccountedFor` | objrepocopysrcthread.C:308-448 | in every reachable state of a copy that was not aborted each name is in sync up to pending messages, or untouched since the start and still to be enumerated or acted on |
| `CopyTheorems.OneControlMessage` | objrepocopysrcthread.C:276-376 | until the source stops exactly one control message is in flight or being handled |
| `CopyTheorems.AnswersInPhase` | objrepocopysrcthread.C:308-376 | a slavelist is answered by masterlist or masterlistdone while the source enumerates and by masterack exactly after slaveliststart |
| `CopyTheorems.DrainedCopyIsEqual` | objrepocopysrcthread.C:461-471 | once success is recorded, no commit is under way and the connection has drained, both repositories are equal, content included |
| `CopyTheorems.CompletedCopyIsIdentical` | objrepocopysrcthread.C:212-226 | when the final message of a successful copy arrives the destination holds exactly what the source held at the release |
| `CopyTheorems.CommitsGoOn` | repocontrollermaster.C:906-933 | nothing is committed while the commit lock is held, and once it is gone every name can be whose own lock is free |
| `CopyReleases.OnceInSyncAlways` | objrepocopysrcthread.C:143-160 | in every run, also one that aborts, a name in sync at one moment is in sync at every later one, whatever is committed |
| `CopyReleases.ReleasedOrAsAtStart` | repocontrollermaster.C:906-933 | when the final message arrives after any run, each name holds what was released, or is on both sides what it was before the copy |
| `CopyReleases.UnsuccessfulReleaseCopiesNothing` | repocontrollermaster.C:906-933 | a release without success can tell the destination that all is complete with nothing copied, from any start |
| `CopyReleases.UncheckedReleaseExactIffEqual` | repocontrollermaster.C:906-933 | the release of the code, which does not ask for success, leaves the destination with what was released in every run if and only if the repositories were equal at the start |
| `CopyReleases.CheckedReleaseExact` | objrepocopysrcthread.C:193-226 | a release after a recorded success leaves the destination with what was released in every run, whatever the two held |
| `CopyReleases.ReleaseIsTold` | objrepocopysrcthread.C:212-226 | from every state of every run after a release, delivering what is under way ends with the destination being told, if the copy succeeded with exactly what was released |
| `CopyReleases.UnlockedReleaseMissesUnforwarded` | objrepocopysrcthread.C:172-186 | after a release by the completion object's destructor the destination ends with what the source held but for changes not forwarded yet, and exactly if those changed nothing |
| `CopyTheorems.ChunkZeroCopiesNothing` | objuuidenumerator.C:28-50 | with a chunk size of zero the copy succeeds and drains without copying |
| `CopyTheorems.CopyExactIffChunkPositive` | objuuidenumerator.C:28-50 | every successful drained copy is exact if and only if the chunk size is not zero |
| `CopyQuiet.SendsExactlyTheDifferences` | objrepocopydstthread.C:163-219 | with no concurrent commits no object is sent twice, only differing ones are sent, and on success exactly those that were missing, extra or had another uuid |
| `CopyEnds.StepDescends` | objuuidenumerator.C:28-68 | without concurrent commits every step decreases a measure of the phase and the names left |
| `CopyEnds.QuietCopyCompletes` | objrepocopysrcthread.C:308-471 | without concurrent commits runs are bounded, every run continues to a success, and then both repositories are equal; a copy that cannot go on has ended |
| `CopyThreads.SourceThread.HandleSlavelist` | objrepocopysrcthread.C:378-448 | exactly the listed names whose listed state differs from the source's are sent, each once |
| `CopyThreads.SourceThread.EventSlavelist` | objrepocopysrcthread.C:308-376 | after handling the list the thread sends the next masterlist, masterlistdone or masterack according to its enumerator |
| `CopyThreads.SourceThread.EventBatonresponse` | objrepocopysrcthread.C:276-306 | a matching baton ends the copy successfully; otherwise the first masterlist is sent |
| `CopyThreads.DestinationThread.EventMasterlist` | objrepocopydstthread.C:163-219 | the answer lists exactly the asked names with another uuid, and exactly those that do not exist |
| `CopyThreads.DestinationThread.EventMasterack` | objrepocopydstthread.C:240-264 | the next names with their uuids, or the end |
| `CopyThreads.DestinationThread.EventSlaveliststart` | objrepocopydstthread.C:229-238 | enumeration restarts and its first names are sent |
| `CopyThreads.HandlerComparesAll` | objrepocopysrcthread.C:378-448 | a handler's loop, in any order of names, is a run of the protocol's comparing steps |
| `CopyThreads.SlavelistHandled` | objrepocopysrcthread.C:308-376 | an undisturbed slavelist handler, from the locks to the answer, is a run of the protocol with the handler's outcome |
| `CopyThreads.BatonRefusalHandled` | objrepocopysrcthread.C:291-306 | so is the handler of a baton that does not match, up to the first list sent |
| `CopyThreads.MasterlistHandled` | objrepocopydstthread.C:151-219 | an undisturbed masterlist handler is a run of the protocol with the handler's answer |
| `CopyThreads.MasterackHandled` | objrepocopydstthread.C:240-264 | an undisturbed masterack handler is a run of the protocol that answers with the next names or the end |
| `CopyThreads.SlaveliststartHandled` | objrepocopydstthread.C:229-238 | an undisturbed slaveliststart handler is a run of the protocol that starts the enumeration and sends its first names |
| `CopyThreads.SourceThread.Event` | objrepocopysrcthread.C:246-274 | whichever message comes the source's handler has the outcome the protocol gives it, the names sent being exactly those to send |
| `CopyThreads.SourceHandled` | objrepocopysrcthread.C:276-471 | every message the source takes, handled undisturbed, is a run of the protocol with the outcome of the source's handler |
| `CopyThreads.DestinationThread.Event` | objrepocopydstthread.C:109-271 | whichever message comes the destination's handler has the outcome the protocol gives it, and the final message alone sets the flag and stops the thread |
| `CopyThreads.DestinationHandled` | objrepocopydstthread.C:139-264 | every message that waits for the destination, handled undisturbed, is a run of the protocol with the outcome of the destination's handler |
| `CopyThreads.CompletionHandled` | objrepocopydstthread.C:266-271 | the delivery of the final message is a run of the protocol with the outcome of the handler, which sets the flag |
| `CopyThreads.OnlyDeliveryCompletes` | objrepocopydstthread.C:266-271 | no step but the delivery of the final message makes a copy complete, none but a reply of the destination records success, and none but a release releases |
| `CopyThreads.FlagMeansIdentical` | objrepocopydstthread.C:266-271 | in every run the step that makes a copy complete is the handling of the final message, which sets the thread's flag, and if the copy succeeded the destination then holds exactly what was released |
| `Enumerator.UuidEnumerator.Next` | objuuidenumerator.C:28-50 | the next names in order, at most a chunk of them, nothing at the end |
| `Enumerator.NextBatch` | objuuidenumerator.C:52-68 | the uuids of exactly those names that still exist |
| `Enumerator.BatchesPartition` | objuuidenumerator.C:28-50 | successive batches are the enumerated names in order, none empty, none over the chunk size, only the last below it |
| `Enumerator.NextIsAWalk` | objuuidenumerator.C:28-50 | over a directory nobody changes a call yields what the protocol's walk may yield and leaves the rest |
| `NodeStatus.CompareTotal` | nodeclusterstatus.H:93-114 | any two statuses compare, one way round only unless they tie |
| `NodeStatus.CompareTransitive` | nodeclusterstatus.H:93-114 | comparison is transitive, strictly if one step is strict |
| `NodeStatus.CompareTies` | nodeclusterstatus.H:93-121 | statuses tie exactly when they agree on everything but the uuid |
| `NodeStatus.CompareDirection` | nodeclusterstatus.H:93-114 | which of two statuses is better: the willing one, else the one with more slaves, else the older one, else the one whose name comes later |
| `NodeStatus.NamesDirection` | nodeclusterstatus.H:113-113 | names compare by the first character in which they differ, else by which ends first |
| `ClusterInfo.ClusterNode.CalculateWithBaton` | clusterinfo.C:731-857 | the status an installed baton makes of the current one; a baton is dropped exactly if the resigning node is not configured any more or the replacement is not a connected self-master |
| `ClusterInfo.ClusterNode.CountSlaves` | clusterinfo.C:654-682 | the number of connected peers that carry this mastership |
| `ClusterInfo.ClusterNode.Calculate` | clusterinfo.C:569-725 | the best of the node's own recomputed status and all connected self-masters: none of them is willing where the result is reluctant, has more slaves where they agree, and so on; the master peer is null exactly for self |
| `ClusterInfo.ClusterNode.FindBetter` | clusterinfo.C:694-724 | the search ends with a status that neither the one it started from nor any connected self-master betters, whatever order the peers are visited in |
| `ClusterInfo.ClusterNode.Recalculate` | clusterinfo.C:522-560 | the result is stored unless it compares equal; a new master is reported exactly when the master changed |
| `ClusterInfo.ClusterNode.InstallBaton` | clusterinfo.C:439-504 | a baton is accepted exactly if it comes from the current master and no other baton than the one it replaces is installed |
| `ClusterInfo.ClusterNode.ClearBaton` | clusterinfo.C:419-435 | the installed baton goes, and the status is recalculated, exactly if it was marked cleared |
| `ClusterInfo.ClusterNode.InstallPeer` | clusterinfo.C:194-243 | a peer is registered exactly if it is configured, not connected and not the current master |
| `ClusterInfo.ClusterNode.DoUpdateLocked` | clusterinfo.C:90-151 | the peers become those configured, connections kept, and a recalculation is asked for exactly if something changed |
| `ClusterInfo.ClusterNode.constructor` | clusterinfo.C:27-45 | a node starts as its own master with no slaves |
| `ClusterInfo.OutcomeShape` | clusterinfo.C:587-724 | the result names this node with an exact count of its slaves, or is the record of a connected peer that calls itself the master |
| `ClusterInfo.OutcomeUnique` | clusterinfo.C:694-724 | there is only one result, whatever the order of iteration |
| `ClusterInfo.OutcomeIsBest` | clusterinfo.C:569-725 | without a baton neither a connected self-master nor the node itself, as the master it was or as a new one, is better than the result, reluctance, slaves, age and name written out; a node leaves a master that still has the same mastership only for a better one |
| `ClusterInfo.BatonDecides` | clusterinfo.C:731-857 | exactly when a baton survives, and that the replacement then is the master, by its own report or by this node's claim |
| `ClusterInfo.RecalculationIdempotent` | clusterinfo.C:569-725 | recalculating from the stored result gives the same result |
| `ClusterInfo.RecalculationSettles` | clusterinfo.C:522-560 | with new uuids and a clock that does not run backwards a second recalculation stores nothing, even after a result left unstored |
| `ClusterInfo.StoredIsResultIff` | clusterinfo.C:538-551 | the stored status is the result exactly unless the two differ in the uuid alone |
| `BatonRuns.MasterIsTheReplacement` | clusterinfo.C:731-857 | in every state of every run no baton is installed or the master is the baton's replacement |
| `BatonRuns.RecalculatedIsBest` | clusterinfo.C:522-560 | after a recalculation that leaves no baton no connected self-master is better than the node's status |
| `BatonRuns.GoneBatonDecidesNothing` | clusterinfo.C:731-857 | once a baton is gone the next recalculation takes the best of all again |
| `BatonRuns.TemporaryBatonProtects` | clusterinfo.C:731-857 | under a temporary baton for itself a master keeps its mastership, uuid and timestamp whatever peers report |
| `ClusterAgreement.OneMaster` | clusterinfo.C:569-725 | in a fully connected cluster where recalculation stores nothing there is one self-master, everyone agrees with it up to the uuid, and it counts exactly those with its uuid |
| `ClusterAgreement.FullAgreement` | clusterinfo.C:569-725 | where recalculation leaves full records unchanged everyone carries the one master's exact record and it counts all other nodes |
| `ClusterAgreement.CountsAllIffOneUuid` | clusterinfo.C:522-560 | the master counts all other nodes if and only if all carry its exact record |
| `StaleUuid.StaleUuidIsStable` | nodeclusterstatus.H:116-121 | two nodes come from their start, by a run of each that reports nothing the other was not, to a stable cluster whose slave has its master's former uuid and is not counted |
| `MasterController.MasterNode.GetPeers` | repocontrollermaster.C:654-706 | the connected and synced slaves, lost ones forgotten, and the quorum they make |
| `MasterController.MasterNode.ComputeQuorumGetPeers` | repocontrollermaster.C:644-750 | the new quorum, forced to false while a controller has not started; all received transactions are considered again exactly if it changed or is announced and has a majority |
| `MasterController.MasterNode.CheckCommit` | repocontrollermaster.C:958-970 | the given transactions are considered after the quorum was computed, which may have considered all of them already; with a majority and commits enabled those that go on waiting are awaited from a counted slave |
| `MasterController.MasterNode.CheckCommitPeers` | repocontrollermaster.C:996-1089 | exactly the transactions every peer received move from ready to committing, each with one job |
| `MasterController.MasterNode.AskPeer` | repocontrollermaster.C:1036-1068 | what a peer has not received is dropped, what it disagrees about is marked as failed |
| `MasterController.MasterNode.DispatchClusterUpdated` | repocontrollermaster.C:444-474 | new peers start as unsynced slaves, removed ones go, the first update forces an announcement |
| `MasterController.MasterNode.DispatchPeerNewMaster` | repocontrollermaster.C:483-563 | a joining slave starts over, out of quorum, before its connection and a new record for its receipts are noted |
| `MasterController.MasterNode.DispatchSyncSlave` | repocontrollermaster.C:780-853 | a copy starts only for a known slave over its current connection, while its end lives and no copy is under way |
| `MasterController.MasterNode.DispatchCheckCopyCompleted` | repocontrollermaster.C:892-940 | slaves whose copying thread ended and whose commit lock is held are in sync, and then the quorum is computed |
| `MasterController.MasterNode.DispatchTransactionsReceived` | repocontrollermaster.C:943-950 | received transactions go to the record of the connection that reports them and are never overwritten; with a majority before and after it each of them is submitted or awaited from a counted slave, whichever node reported it |
| `MasterController.MasterNode.DispatchHandoffFailed` | repocontrollermaster.C:1546-1559 | commits go on and the quorum is computed |
| `MasterRuns.EverySubmissionIsSafe` | repocontrollermaster.C:958-1089 | a submitted transaction was received by this node and by every counted slave, those are a majority, and its status is good exactly if all report success from one source |
| `MasterRuns.ReceiptsAreCurrent` | repocontrollermaster.C:522-563 | over every run, whatever a slave is counted to have received was reported over the connection it has now |
| `MasterRuns.NextSubmittedOnceIff` | repocontrollermaster.C:943-1089 | in any run in which nothing was submitted twice so far, the next event keeps it so if and only if it does not tell this node of a transaction that already has a job |
| `MasterRuns.NothingTwiceIff` | repocontrollermaster.C:943-1089 | in every state of a run nothing was submitted twice if and only if this node is never told of a transaction that has a job at that moment |
| `MasterRuns.NothingIsSubmittedTwice` | repocontrollermaster.C:958-1089 | in particular nothing is submitted twice where this node is told of each transaction once, and ready and committing stay disjoint |
| `MasterRuns.ToldTwiceSubmitsTwice` | repocontrollermaster.C:1072-1088 | told of a transaction twice, the controller submits it twice |
| `MasterRuns.FailedHandoffSubmitsIffQuorumChanged` | repocontrollermaster.C:737-747 | transactions held back are all submitted exactly if the quorum changed to one with a majority, and otherwise all go on waiting |
| `MasterDuties.ReportedWaitsForSlaves` | repocontrollermaster.C:943-950 | after a report by any node, with a majority before and after it and commits enabled, each reported transaction still waiting is one that some connected slave in sync has not received |
| `MasterDuties.QuorumChangeSubmitsAll` | repocontrollermaster.C:737-749 | whenever the quorum changes to one with a majority, or is computed for the first cluster update, the same holds of every transaction still waiting |
| `MasterDuties.LeavesByJobOrCancel` | repocontrollermaster.C:1072-1088 | a transaction leaves those waiting only by being submitted or cancelled on this node |
| `MasterDuties.NoTransactionIsLost` | repocontrollermaster.C:943-1089 | over every run a transaction this node was told of waits or has a job unless it was cancelled on this node since |
| `MasterDuties.ReportIsRecorded` | trandistuuid.C:17-21 | what a slave reports over its current connection is added to what it reported before, which stands |
| `MasterDuties.OwnReportIsRecorded` | repocontrollermaster.C:133-140 | what this node is told is added to what it was told before, which stands |
| `MasterDuties.CancelledIsForgotten` | repocontrollermaster.C:142-152 | exactly the cancelled transactions are forgotten, by the node that cancels them alone |
| `MasterDuties.PeersAreReplaced` | repocontrollermaster.C:444-474 | a cluster update leaves exactly the configured peers, those that stay as they were unless lost |
| `MasterDuties.JoiningStartsOver` | repocontrollermaster.C:519-563 | a slave that joins has its new connection, no receipts and is out of sync; the others stay unless lost |
| `MasterDuties.QuorumIs` | repocontrollermaster.C:690-703 | the quorum is full exactly if every slave is connected and in sync, and has a majority exactly if at least half of them are |
| `MasterDuties.QuorumIsCurrent` | repocontrollermaster.C:644-750 | after a cluster update, a join, a completed copy, a report received in quorum or a failed handoff the announced quorum is the one the slaves then make, or false while a controller has yet to start |
| `MasterDuties.LossIsNoticed` | repocontrollermaster.C:670-680 | a slave whose connection object and link are both gone is forgotten when the quorum is computed next |
| `MasterDuties.HeldHasNoQuorum` | repocontrollerbase.C:89-115 | while a controller has yet to start there is no quorum whatever slaves there are |
| `MasterDuties.NothingIsSubmittedWhileHeld` | repocontrollermaster.C:1000-1007 | from the moment commits are held nothing is submitted until a handoff fails, whatever happens |
| `MasterDuties.CountedWasCopied` | repocontrollermaster.C:892-940 | in every run, since a slave in sync joined a copy to its live end was started, then its thread ended, and then its completion was noticed with the commit lock held |
| `MasterDuties.EndedCopyCompletes` | repocontrollermaster.C:892-940 | a connected slave whose copying thread has ended is in sync once the commit lock is held, and until then waits for the lock |
| `NoSplitBrain.TwoMajoritiesNeedStaleSlaves` | repocontrollermaster.C:654-706 | over any run of promotions, joins, losses and controller steps in one configuration, two masters with a majority count between them at least one slave that has left unnoticed, two if the number of nodes is even |
| `NoSplitBrain.TwoMajoritiesOccurIff` | repocontrollermaster.C:654-706 | for every set of nodes and every k, two masters can both have a majority with at most k slaves that left unnoticed if and only if there are at least three nodes and k is at least one, or two if the number of nodes is even |
| `NoSplitBrain.UnnoticedLossSplits` | repocontrollermaster.C:673-685 | of any three or more nodes any two can come to have a majority by the fewest slaves possible, which leave one unnoticed and join the other |
| `NoSplitBrain.TwoMajoritiesNeedThreeNodes` | repocontrollermaster.C:690-703 | of two nodes never both have a majority, however many losses go unnoticed |
| `NoSplitBrain.FreshStaysIff` | repocontrollermaster.C:673-685 | masters count linked slaves only for as long as, and exactly until, a slave leaves that its master has for connected |
| `NoSplitBrain.AtMostOneMajority` | repocontrollermaster.C:654-706 | in runs where a loss is noticed before the slave leaves at most one master has a majority |
| `NoSplitBrain.SubmitterIsTheOnlyMajority` | repocontrollermaster.C:958-970 | whenever a controller submits a transaction it has a majority at that moment, and no other master has one unless one of the two counts a slave that has left |
| `NoSplitBrain.InternalKeepsTable` | repocontrollermaster.C:644-750 | nothing a controller does by itself brings a slave to life in its table |
| `NoSplitBrain.FullQuorumIsAlone` | repocontrollermaster.C:702-703 | a master with a full quorum of slaves still linked to it has every other node for its slave, so there is no other master |
| `NoSplitBrain.DemotedCanJoin` | repocontrollermaster.C:483-563 | a node that is a master no longer can join any other master |
| `Handoff.HeldForExactlyOneReason` | repocontrollermaster.C:1397-1559 | in every reachable state commits are enabled and nothing is under way, or held for exactly one reason: jobs with the old token, a due step, the lock thread, a live baton, a failure notice, a completed handoff or a halt |
| `Handoff.LockedWithoutJobs` | repocontrollermaster.C:1432-1451 | the commit lock is requested only with no commit job left |
| `Handoff.HandoffsNeverOverlap` | repocontrollermaster.C:1408-1430 | at most one handoff is under way |
| `Handoff.EachFailureRestoresOnce` | repocontrollermaster.C:1546-1559 | each failed handoff restores commits exactly once, or its notice is pending |
| `Handoff.HeldForGood` | repocontrollermaster.C:1654-1683 | a halt or a completed handoff keeps commits held for good |
| `Handoff.EndedBatonFailed` | baton.C:29-48 | the end of a bound baton is a failure if and only if its own handoff was not declared complete |
| `Handoff.BoundIffLockedAndFull` | repocontrollermaster.C:1455-1518 | in every run, with the lock requested, the next step binds the baton if and only if the lock is held and the quorum is full; otherwise the handoff fails and commits go on with a new token |
| `Handoff.BoundOnlyByLastStep` | repocontrollermaster.C:1455-1518 | in every run a baton comes to be bound in no other way and never while commit jobs go on |
| `Handoff.HandoffCanBind` | repocontrollermaster.C:1397-1518 | from every reachable state with commits enabled a new request can be brought to a bound baton, through all jobs draining |
| `Handoff.HandoffController.DispatchHandoffRequestContinue` | repocontrollermaster.C:1397-1518 | each step of a handoff and exactly when it is taken: ignored, token taken, lock requested, failed with a new token, or baton bound with the lock held and a full quorum |
| `Handoff.HandoffController.DispatchHandoffFailed` | repocontrollermaster.C:1546-1559 | commits get a new token |
| `Handoff.HandoffController.DispatchDoHalt` | repocontrollermaster.C:1654-1683 | a halt is accepted exactly with a full quorum and commits enabled, and then takes the token |
| `Handoff.HandoffController.SubmitCommit` | repocontrollermaster.C:1072-1088 | a commit job holds the token it is submitted with |
| `Handoff.HandoffController.CommitDone` | repocontrollermaster.C:1418-1430 | the end of the last job with a retired token calls the token's watcher, once |
| `Handoff.BatonObject.SetMasterPtr` | baton.C:50-54 | from then on the baton's end tells the master, exactly if it exists then |
| `Handoff.BatonObject.PushBackMasterPeers` | baton.C:100-104 | from then on the baton's end also releases this peer, after the others, if it is connected then |
| `Handoff.BatonObject.Destroy` | baton.C:29-48 | each connected peer is released as often as it was told, nobody exactly if none of those told is connected, and a failure is told exactly to a bound master that still exists |
| `Handoff.BatonObject.MasterHandoffComplete` | baton.C:105-111 | from then on the baton's end releases nobody and tells nobody, whoever is connected and whether or not the master exists |
| `Handoff.StillExactly` | baton.C:33-41 | each connected peer is released as often as it was told, no other peer is |
| `ControllerChain.OneActiveController` | repocontrollerbase.C:59-72 | at most one controller is started and not gone; its predecessors are gone and its successors wait |
| `ControllerChain.ChainIsLinear` | repoclusterinfo.C:342-364 | each controller is told of its direct successor only, and of it exactly if it is not the newest |
| `ControllerChain.HandedOffOnce` | repocontrollerbasehandoff.C:28-38 | a controller is never told of another successor |
| `ControllerChain.QuorumIsTheNewests` | repocontrollerbase.C:89-115 | a quorum other than false is published only while no constructed controller has yet to start, and by the newest |
| `ControllerChain.PublishedIffNewest` | repocontrollerbase.C:89-115 | in every run what a running controller publishes takes effect exactly if it is the newest constructed, and any other publishes false |
| `ControllerChain.SuccessorStarted` | repocontrollerbase.C:59-72 | in every run a controller that is gone having taken its handoff has started its successor, and the first one linked has started |
| `ControllerChain.StartedIff` | repocontrollerbase.C:59-72 | in every run a linked controller not yet gone has started if and only if it is the first or its predecessor is gone and had taken its handoff |
| `ControllerChain.NewestStarted` | repocontrollerbase.C:59-72 | if all controllers before the newest linked one are gone and stopped by taking their handoffs the newest has started |
| `ControllerChain.HandoffStartsSuccessor` | repocontrollerbasehandoff.C:28-33 | once a controller takes its handoff, in every continuation its direct successor has started exactly when the controller is gone |
| `ControllerChain.StoppedLeavesSuccessorWaiting` | repocontrollerbase.C:59-77 | a controller stopped without its handoff leaves its successor waiting, and one that will never start gives its token up |
| `ControllerChain.RepoCluster.ReportedStatus` | repoclusterquorum.C:18-26 | the given status exactly if no token is held |
| `ControllerChain.RepoCluster.AnnounceQuorum` | repocontrollerbase.C:89-115 | the reported status becomes the published one |
| `ControllerChain.RepoCluster.NewController` | repocontrollerbase.C:30-57 | a new controller holds a token and forces the published quorum to false |
| `ControllerChain.RepoCluster.StartMaster` | repoclusterinfo.C:342-388 | the current controller is told of the new one, which is started itself only if it is the first |
| `ControllerChain.RepoCluster.RunController` | repocontrollermaster.C:360-363 | a starting controller announces no quorum and gives its token up |
| `ControllerChain.RepoCluster.DispatchDoHandoff` | repocontrollerbasehandoff.C:28-33 | the controller remembers its successor and stops |
| `ControllerChain.RepoCluster.DestroyController` | repocontrollerbase.C:59-77 | the end of a controller gives its token up and starts the successor it was told of, exactly that one |
| `ObjectNames.EncodeObjectName` | stasher/objname.H:28-63 | the encoded name, or the exception for an invalid one |
| `ObjectNames.FullpathToObjname` | objrepo.C:525-563 | the decoded name |
| `ObjectNames.EncodesIffValid` | stasher/objname.H:28-63 | a name is accepted exactly if it has no empty component |
| `ObjectNames.DecodeEncode` | objrepo.C:525-563 | decoding a stored name gives the object's name back |
| `ObjectNames.EncodingIsInjective` | stasher/objname.H:28-63 | different objects are stored under different names |
| `ObjectNames.EncodedNamesHaveForm` | stasher/objname.H:28-63 | an encoded name has a dot only before its final letter and no empty component, so no file's name is a directory's |
| `ObjectNames.EncodingIs` | stasher/objname.H:28-63 | names are encoded character by character, a dot as a backslash and an underscore and a backslash twice, with a dot and the letter f behind |
| `ObjectTree.Repository.ObjInstall` | objrepo.C:185-329 | without interference and for every name: refused, the temporary file gone, an exception of the system, or installed with exactly its missing ancestors created; the directories stay exact if and only if the path did not end in a slash with its directory missing |
| `ObjectTree.Repository.MakeDirectories` | objrepo.C:243-318 | the walk back and forth creates all missing ancestors and restores the buffer |
| `ObjectTree.Repository.MakeRemaining` | objrepo.C:268-304 | the walk forward creates the directories below the first one created and puts every slash back |
| `ObjectTree.Repository.ObjRemove` | objrepo.C:331-393 | for every name: refused, an exception of the system exactly if a directory or file is in the way, or the object goes with exactly the directories nobody needs any more |
| `ObjectTree.Repository.PruneDirectories` | objrepo.C:345-384 | the directories left are the ancestors of the objects left |
| `ObjectTree.InstallKeepsTree` | objrepo.C:208-329 | installing a file with its ancestors, neither being in the way of what is there, leaves exactly the ancestors of existing files |
| `ObjectTree.TreeDeterminesDirs` | objrepo.C:208-384 | the existing objects determine the directories |
| `ObjectTree.Repository.InstallThenRemove` | objrepo.C:208-393 | an object of any name that could be installed can be removed again, and if it was new the files and directories are those there were before |
| `ObjectTree.CleanNamesNeverFail` | objrepo.C:208-393 | where only names without null characters are stored, installing or removing one never fails and leaves no directories behind |
| `ObjectTree.PathReachesSystemIff` | objrepo.C:196-206 | what the system makes of the buffer is the object's path if and only if the object's name holds no null character |
| `ObjectTree.NullNamesCollide` | stasher/objname.H:28-63 | two valid names with a null character can stand for one file |
| `NsView.HierarchyCommutes` | nsview.C:53-85 | the mapping of a hierarchy carries over to every object in it |
| `NsView.RootCommutesIff` | nsview.C:53-85 | at the root this holds exactly for objects whose first component is not mapped elsewhere |
| `NsView.DirectoryCommutesIff` | nsview.C:87-100 | a directory's mapping carries over to its objects exactly unless it is a namespace for the whole repository |
| `NsView.WritableIff` | nsview.C:53-85 | a name may be written exactly if the mapping that applies to it is read-write, and it then maps to what it maps to for reading |
| `NsView.DirectoryAllowedIff` | nsview.C:87-100 | a directory's name can be used exactly if its first component or the root is mapped |
| `NsView.NamespaceView.constructor` | nsview.C:22-34 | read-write mappings override read-only ones and the root is always mapped |
| `NsView.NamespaceView.Merge` | nsview.C:11-20 | the given mappings override what was there |
| `NsView.NamespaceView.FromClientName` | nsview.C:53-85 | the name under the mapping of its first component, or else of the root; refused exactly if there is none or it is written to and read-only, and then left alone |
| `NsView.NamespaceView.FromClientDirName` | nsview.C:87-100 | the mapped directory name, refused exactly if neither its first component nor the root is mapped |
| `Subscriptions.SubscriptionIndex.AddSub` | localconnection.C:299-342 | refused exactly for a name already subscribed; the three indexes stay consistent |
| `Subscriptions.SubscriptionIndex.DelSub` | localconnection.C:344-387 | the subscription goes, the hierarchy counter is always there, the indexes stay consistent |
| `Subscriptions.SubscriptionIndex.SendUpdate` | localconnection.C:462-476 | one message for each subscription to exactly this repository name |
| `Subscriptions.SubscriptionIndex.Notify` | localconnection.C:420-457 | what a scan of all subscriptions would send: one message for each match, none for objects below etc/done |
| `Subscriptions.SubscriptionIndex.BeginSub` | localconnection.C:1033-1114 | under any view, bad names, the limit, missing permission and duplicates are refused in this order; otherwise the mapped name is subscribed, and what a name maps to, never beyond the limit |
| `Subscriptions.CoveredIffMatches` | localconnection.C:433-456 | the object and the hierarchies of its leading components are exactly what can match, whatever names were subscribed |
| `Subscriptions.HierAdded` | localconnection.C:313-333 | counters agree with the subscriptions after an addition |
| `Subscriptions.HierRemoved` | localconnection.C:356-377 | the counter to decrease exists and is positive, and counters agree after a removal |
| `Subscriptions.MappedIsCanonical` | localconnection.C:1086-1103 | where the configured paths are object names, what a valid client name is subscribed as is an object's or a hierarchy's name |
| `Subscriptions.SubscribedAsIs` | localconnection.C:1086-1103 | an object's name is subscribed as it is mapped, a hierarchy's as what every name in it is mapped under |
| `Subscriptions.BeginStatusIs` | localconnection.C:1033-1114 | for each answer to a request the exact condition on the name, the limit, the view and the subscriptions there are |
| `Subscriptions.ObjectSubscriberIsTold` | localconnection.C:420-476 | one who subscribed to an object is told of a change exactly if the name maps to the object that changed, and of nothing else |
| `Subscriptions.ToldNameMapsBack` | localconnection.C:462-476 | a hierarchy's name followed by the suffix told to its subscriber maps to the object that changed |
| `ClientSubscriptions.MuxClient.DispatchSubscribe` | client.C:1130-1187 | a subscriber joins those registered or those waiting for a pending request, behind the others, or causes exactly one request; nobody else's subscription changes, and who is answered at once is told what |
| `ClientSubscriptions.MuxClient.BeginSubReply` | client.C:1189-1221 | all who wait are registered behind those who are, in their order, and each is told the status, or the acknowledgement is unknown and nothing changes |
| `ClientSubscriptions.MuxClient.DispatchUnsubscribe` | client.C:1250-1273 | exactly the given subscriber goes, and exactly the last one's leaving ends the subscription |
| `ClientSubscriptions.MuxClient.Userchanged` | client.C:1280-1291 | everyone registered for the name is told of the change once, in the order of registration |
| `ClientSubscriptions.StepPeople` | client.C:1130-1273 | each step adds to a name's subscribers exactly who subscribes to it and takes away exactly who unsubscribes from it, and an acknowledgement registers all who wait |
| `ClientSubscriptions.SubscribersAreConserved` | client.C:1130-1273 | in every run those registered for a name or waiting to be are exactly those who subscribed to it without those who were unsubscribed |
| `ClientSubscriptions.SettledSubscribers` | client.C:1189-1221 | when nothing is in flight everybody who subscribed and did not leave is registered |
| `ClientSubscriptions.AcknowledgementsAreKnown` | client.C:1189-1212 | no acknowledgement ever comes that the client cannot place |
| `ClientSubscriptions.OneRequestPerName` | client.C:1161-1186 | subscribed and pending names are disjoint and each pending name has exactly one request in flight |
| `ClientSubscriptions.ServerCatchesUp` | client.C:1130-1273 | once the requests in flight are accepted the server has a name if and only if the client has it or waits for it, unless the server refused the last request for it and no other is on its way |
| `ClientSubscriptions.SettledServer` | client.C:1130-1273 | when nothing is in flight nobody waits and the server has exactly the client's names but those it refused last |
| `ClientSubscriptions.NeverAskedTwice` | client.C:1130-1273 | the server is never asked for a subscription it has |
| `ClientSubscriptions.RefusedIsRegistered` | client.C:1214-1247 | a refused request is registered all the same |
| `GetWindow.GetClient.SendGetRequests` | client.C:1017-1025 | the front of the queue is sent in order, until the window is full or the queue empty, and counted |
| `GetWindow.GetClient.DispatchGet` | client.C:971-1015 | requests beyond the limits are refused at once; others are queued and the window filled |
| `GetWindow.GetClient.GetReply` | client.C:1046-1089 | a reply frees one place and the window is filled again |
| `GetWindow.GetServer.UserGetUuids` | localconnection.C:698-757 | the request waits; the exception is for one beyond the limit |
| `GetWindow.GetServer.DrainReady` | localconnection.C:155-192 | exactly the ready requests are answered and exactly the others wait on, each as often as it was there, both in their order |
| `GetWindow.DrainIs` | localconnection.C:155-192 | the waiting requests split into the ready ones and the others, nothing lost or added, the order of both kept |
| `GetWindow.CreditIsConserved` | client.C:1009-1086 | the pending count equals requests on their way, waiting and replies on their way, never exceeds the window, and requests queue only while it is full |
| `GetWindow.LimitNeverExceeded` | localconnection.C:750-752 | the server's exception never fires, and every reply is to a request still waited for |

## Left out

- Sockets, encryption, timeouts, credentials, serialization bytes, logging, reports, admin commands, node startup and resubscription by the client manager.
- Reference counting: a counted object is a set of holders with an event when it empties, a weak reference a liveness test.
- The per-name locks of the repository: they are exclusive, as their implementation promises; commits, the source thread and queued objects hold them in the copy. A queued object holds its own name where the original's lock covers the whole list it was in, so the model has more runs.
- The peer-connection half of the baton exchange and the slave's controller; a baton's end, and that a handoff was declared complete, happen at any time.
- The commit job itself (repocontrollermaster.C:1152-1313): it holds the commit token from its submission to its end.
- The message by which a master announces a changed quorum to its slaves (repocontrollermaster.C:717-733): the quorum it has is modelled.
- The choice of a successor in `resign` (repoclusterinfo.C:424-474), a single scan over the nodes.
- Convergence of an election under arbitrary delays: agreement is proved where recalculation changes nothing.
- A synced slave whose connection object is gone while its link lives counts as the loop counts it; that the original then cannot refer to the connection is not modelled.
- A transaction's receipt says good or not good; the original's status numbers other than those two do not occur.
- Quorums across a change of the cluster's configuration: majorities are compared within one configuration.
- Interference between installs and removes of different processes: the loops' error branches for it are unreachable in the model. Of the system's errors those of missing paths and of files or directories in the way occur, in the order in which a path is looked up.
- Root subscriptions and objects in separately mapped namespaces: `NsView.RootCommutesIff` says when the told name does not map back.
- A message queue's order in `Handoff` and the order of jobs in `MasterController`: any queued message may be taken next, and jobs are a multiset.
