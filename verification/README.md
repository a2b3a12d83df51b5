# A verified model of CWSO's stateful core

CWSO lets several coding agents edit one codebase at once, each in its own *shadow workspace*, and
schedules their work from a Go orchestrator. This project models, in Dafny, the parts of it where
state, concurrency or a compressed representation makes correctness hard to see, and proves what they
promise for every input, every run or every reachable state.

## What is modelled

**Shadow workspaces** (`services/cwso-git-shadow`). A workspace is a flat map from path to blob id that
must stay in step with a real directory tree.
- `Paths`, `Disk`: path strings against component lists, directory trees as recursive values, and
  `IsView(files, disk)`: the map says exactly what the disk shows on accepted paths.
- `ShadowStore`: `write_file` and `read_file` over the fd-anchored write walk.
- `GitTrees`: `commit` building nested trees from flat paths and `create` walking them back.
- `WriteBack`, `WriteBackEngine`: event handling and the reconcile pass, as relations between states and as
  the engine object with its loops. `Mirrored` says that the map is the flat view and every directory is watched.
- `LateEvents`, `Mirroring`, `Reconciling`: what the events of one operation restore, whatever late events come
  with them, and what one reconcile pass repairs. `FailingCases` has the small workspaces where they fall short.
- `WatchTable`, `Histories`: what the watch table keeps even where the mirror was lost, and every sequence of
  operations and reconcile ticks.
- `Lifecycle`: every run of the store, with any change on disk in between.
- `CommitChain`: commits, writes, creates and drops by any number of threads, one program counter each.
- `FdWalk`: read and write walks against a filesystem that changes between any two system calls.

**Trajectory builders** (`orchestrator/internal/rollout`). `Trajectory` gives the three builders as one
fold and proves them lossless; `TrajectoryBuilders` has the loops, proved equal to it.

**Job manager** (`orchestrator/internal/jobs`): `Jobs`, an interleaving machine of enqueuers, cancellers,
workers and closers.

**Memory broker** (`orchestrator/internal/memorybroker`): `Broker`, the ring buffer as a class refining an
append-only log; `Subscriber`, one live queue at the level of lock sections and channel operations.

**Connection pool** (`orchestrator/internal/shadow/client.go`): `Pool`.

**Policy engine v2** (`orchestrator/internal/dispatch/policy_engine_v2.go`): `Policy` (scores, assists,
ranking, chain), `PolicyLaws`, `PolicyEngine` with the loops and the latch, and `ConcurrentSelects`, calls that
interleave at their loads and stores of the latch.

**Tree and stream algorithms**: `Resolver` (`services/cwso-git-shadow/src/ast.rs`), the scope-stack walk
against a declarative reading of lexical scopes; `Spikes` (`orchestrator/internal/dispatch/ast_spike_*.go`),
pruned windows against the whole history.

`Ordering`, `Text` and `Wrappers` hold string order, stable sorting, string helpers and the option types.

## Where a promise does not hold as stated

For each there is a concrete case in which it fails and a condition that holds exactly when it does not.
- `write_file` on a path such as `a//b` writes `a/b` on disk but keys the map by the raw string, and on a device
  or FIFO it records a blob that no reader of the disk sees. Map and disk stay equal exactly for canonical paths
  whose leaf is no special file (`ShadowStore.WriteStaysInSyncIffCanonical`, `ShadowStore.RawPathDesyncs`,
  `ShadowStore.SpecialFileDesyncs`).
- A commit of a map in which one path is a directory of another loses one of the two; the tree holds the map
  exactly if there is no such pair, and a mirrored map never has one (`GitTrees.HoldsIffPrefixFree`,
  `GitTrees.FileUnderFileIsLost`, `GitTrees.ViewsArePrefixFree`).
- Renaming a directory over an existing empty one: the replaced inode's DELETE_SELF is handled under the
  target path and wipes what MOVED_TO had just recorded. The mirror survives exactly if nothing was at the
  target (`Mirroring.RenameDirMirrorsIffFresh`, `FailingCases.RenameOverEmptyDirFails`). Until the next reconcile
  tick later operations may go unnoticed; each tick restores the mirror (`Histories.EveryTickRestores`).
- One reconcile pass does not watch a directory whose path the table still has under another inode, as when it
  was renamed and recreated before any event was handled. It leaves a mirror exactly without such leftovers, and
  a second pass is idle exactly if no directory loses its only entry to a re-pointed descriptor
  (`Reconciling.ReconcileMirrorsIff`, `Reconciling.SecondPassIsIdleIff`, `FailingCases.RecreatedDirNeedsTwoPasses`).
- A `Close` of the job manager that finds it closed returns at once, while bodies may still run. The one that
  found it open is final (`Jobs.SecondCloseReturnsEarly`, `Jobs.CloseIsFinal`).
- Prefix merging without interstitial steps loses prompts; it is lossless exactly on streams without gaps
  (`Trajectory.WithoutInterstitialsLosslessIffNoGaps`, `Trajectory.GapIsLost`).
- The baseline is not always the end of a chain of fallbacks: if it ranks inside the chain, its own failure
  moves on to the entry behind it (`PolicyLaws.BaselineIsFinalIffLast`, `PolicyLaws.BaselineFailureMovesOn`).
- A `Select` during which another call trips the guardrail can rank with the sparse assist and still report
  "sparse_quantized_auto_disabled" (`ConcurrentSelects.EveryDecisionIsExplained`, `ConcurrentSelects.MixedRun`).
- Normalising the SSM settings can leave a window that accepts no sequence length, and then every request that
  states one is refused (`Policy.SequenceWindowIff`, `Policy.EmptySequenceWindow`,
  `Policy.EmptyWindowRefusesAll`).
- A sliding window forgets recent writes when timestamps arrive out of order; it equals the recent history
  exactly if none was pushed out (`Spikes.WindowIsRecentHistoryIff`, `Spikes.OutOfOrderForgets`).

The condition on rejected keys in `Reconciling.ReconcileFilesIff` is about maps no run of the store has: in every
reachable state one pass yields the flat view (`Lifecycle.EveryRunIsOrderly`, `Lifecycle.ReachablePassYieldsTheView`).

## Assumptions

- The blob and object stores are content addressed: equal ids mean equal objects. Directory inodes sit at one
  place (`UniqueInos`). The kernel gives one watch descriptor per watched inode and a new one after removal.
- In `FdWalk` the environment may do anything between two system calls except place a pre-existing outside
  inode, other than a symlink, inside the workspace.
- Events of one filesystem operation are handled while the disk is still, MOVED_FROM before MOVED_TO. Between them
  may come any events of watches the engine has given up.
- Scores are reals. The score plugin is a function that may fail. The clock, timeouts and job bodies are
  choices of the environment.

## Model

| member | source | states |
|---|---|---|
| Paths.StartsWithSlash | services/cwso-git-shadow/src/repo.rs:495-509 | the string test `starts_with(dir + "/")` holds exactly when `dir` is a proper component prefix of the path |
| Paths.SplitJoin | services/cwso-git-shadow/src/repo.rs:1198-1202 | splitting a joined path gives its components back |
| Paths.JoinSplit | services/cwso-git-shadow/src/repo.rs:1198-1202 | joining the pieces of any string gives it back |
| Paths.SecureOnDiskPath | services/cwso-git-shadow/src/repo.rs:620-658 | a path of kernel names is accepted exactly if no `..` occurs in it, and then yields those names |
| Paths.SecureComponents | services/cwso-git-shadow/src/repo.rs:643-658 | components of an accepted path are plain names: never empty, `.`, `..` or containing a slash |
| Paths.SecureIsStable | services/cwso-git-shadow/src/repo.rs:643-658 | spelling out an accepted path's components gives an accepted path with the same components |
| Paths.CanonicalPieces | services/cwso-git-shadow/src/repo.rs:643-658 | a path is canonical exactly if its raw pieces survive normalisation |
| Disk.SeeAfterPut | services/cwso-git-shadow/src/repo.rs:816-834 | what is visible at every path after placing a node |
| Disk.SeeAfterRemove | services/cwso-git-shadow/src/writeback.rs:404-497 | what is visible at every path after removing a subtree |
| Disk.ViewIsUnique | services/cwso-git-shadow/src/repo.rs:1143-1156 | a tree has one flat view |
| ShadowStore.OpenOrMakeDir | services/cwso-git-shadow/src/repo.rs:761-783 | one hop succeeds exactly on a directory or nothing, and changes at most that entry |
| ShadowStore.WalkDirs | services/cwso-git-shadow/src/repo.rs:816-827 | the directory hops succeed exactly through directories and nothing, making what is missing; on failure at most empty directories appear and the path was not writable |
| ShadowStore.LeafDecides | services/cwso-git-shadow/src/repo.rs:792-801 | after the hops, the path is writable exactly if its leaf is a plain name with nothing, a regular file, or a special file the kernel lets us open |
| ShadowStore.MaterializeWrite | services/cwso-git-shadow/src/repo.rs:706-834 | succeeds exactly on an accepted path with directories or nothing on the way and a leaf that opens; then only the leaf and missing directories change, a special file staying what it is; on failure at most empty directories appear |
| ShadowStore.GrownKeepsView | services/cwso-git-shadow/src/repo.rs:816-834 | directories made on a failing walk do not change the flat view |
| ShadowStore.WrittenView | services/cwso-git-shadow/src/repo.rs:816-834 | a finished walk changes the flat view at exactly one path |
| ShadowStore.WriteStaysInSyncIffCanonical | services/cwso-git-shadow/src/repo.rs:269-290 | after a successful write map and disk agree exactly if the path was canonical and its leaf no special file |
| ShadowStore.RawPathDesyncs | services/cwso-git-shadow/src/repo.rs:269-290 | `a//b` written into an empty workspace: the write lands at `a/b` and map and disk disagree |
| ShadowStore.SpecialFileDesyncs | services/cwso-git-shadow/src/repo.rs:269-290 | a write to a device at the leaf: the map gains a file the disk does not show |
| ShadowStore.Store.WriteFile | services/cwso-git-shadow/src/repo.rs:269-290 | success condition; on success map and view change at one path of one workspace; on error neither view changes |
| ShadowStore.Store.ReadFile | services/cwso-git-shadow/src/repo.rs:292-304 | returns the content of the recorded blob, exactly for accepted recorded paths |
| GitTrees.AtAfterInsert | services/cwso-git-shadow/src/repo.rs:391-427 | adding an index entry sets that path, removes what conflicts with it, keeps the rest |
| GitTrees.DenseTreesAreCanonical | services/cwso-git-shadow/src/repo.rs:391-427 | trees without empty subtrees that agree on all files are the same tree |
| GitTrees.ViewsArePrefixFree | services/cwso-git-shadow/src/repo.rs:391-427 | a map mirrored from a disk never has a file path inside another |
| GitTrees.WriteTree | services/cwso-git-shadow/src/repo.rs:391-427 | whatever the hash order, the tree is dense, holds only files of the map, and every file is held or displaced by a conflicting path; it holds the whole map exactly if the map is prefix-free, and is then the only such tree |
| GitTrees.HoldsIffPrefixFree | services/cwso-git-shadow/src/repo.rs:391-427 | a tree whose files are kept or displaced holds the map exactly if no path is a directory of another |
| GitTrees.FileUnderFileIsLost | services/cwso-git-shadow/src/repo.rs:391-427 | no tree holds files at both `a` and `a/b` |
| GitTrees.HoldsIsExact | services/cwso-git-shadow/src/repo.rs:187-226 | a tree holds only one file map |
| GitTrees.ProjectedView | services/cwso-git-shadow/src/repo.rs:187-226 | the projected directory has the tree's files as its flat view |
| GitTrees.Project | services/cwso-git-shadow/src/repo.rs:187-226 | creating from a tree succeeds exactly if every blob path is accepted; then map and new directory both equal the tree |
| GitTrees.ViewsAreCommittable | services/cwso-git-shadow/src/repo.rs:391-427 | every mirrored map can be committed and created again |
| GitTrees.CommitThenCreate | services/cwso-git-shadow/src/repo.rs:160-238 | commit then create gives the same map back, mirrored on the new disk |
| Mirroring.FileWriteMirrors | services/cwso-git-shadow/src/writeback.rs:404-528 | any non-empty run of the events of a file create, modify or move-in restores the mirror |
| Mirroring.FileRemoveMirrors | services/cwso-git-shadow/src/writeback.rs:404-497 | the event of a file delete or move-out restores the mirror |
| Mirroring.FileRenameMirrors | services/cwso-git-shadow/src/writeback.rs:404-528 | MOVED_FROM then MOVED_TO of a file, over another file or not, restores the mirror |
| LateEvents.LateIsIdle | services/cwso-git-shadow/src/writeback.rs:414-440 | an event of a watch the engine has given up changes nothing |
| LateEvents.RemovedIsGone | services/cwso-git-shadow/src/writeback.rs:343-377 | every watch that handling an event removes is one the kernel never hands out again, so its IGNORED comes late |
| LateEvents.GoneForever | services/cwso-git-shadow/src/writeback.rs:404-497 | and it stays given up, whatever is handled afterwards |
| LateEvents.Unplay | services/cwso-git-shadow/src/writeback.rs:383-497 | a run with late events anywhere in it ends in the same state as the run without them |
| Mirroring.SubtreeMovedOutMirrors | services/cwso-git-shadow/src/writeback.rs:404-497 | moving a directory out, with the IGNORED of every removed watch and any other late event in between, drops exactly its files and watches |
| Mirroring.SubtreePlacedMirrors | services/cwso-git-shadow/src/writeback.rs:539-554 | one event for a directory that appears with content restores files and watches of all of it |
| Mirroring.RmdirMirrors | services/cwso-git-shadow/src/writeback.rs:404-497 | DELETE, DELETE_SELF and IGNORED of a removed directory, in any order and number, leave a mirror |
| Mirroring.RenameDirMirrorsIffFresh | services/cwso-git-shadow/src/writeback.rs:404-554 | the events of a directory rename, with any late events in between, end in a mirror exactly if nothing was at the target |
| FailingCases.RenameOverEmptyDirFails | services/cwso-git-shadow/src/writeback.rs:404-497 | a mirrored workspace with two empty directories and the states of a run of `mv -T a b` that ends without a mirror |
| Mirroring.HandledIsLocal | services/cwso-git-shadow/src/writeback.rs:404-497 | an event of one workspace leaves every other workspace mirrored |
| Mirroring.RegisterMirrorsIff | services/cwso-git-shadow/src/writeback.rs:256-281 | registration gives a mirror exactly if the map named nothing that is not on disk |
| Mirroring.UnregisterForgets | services/cwso-git-shadow/src/writeback.rs:289-315 | unregistering forgets every watch of that workspace and no other |
| WatchTable.RegisteredIsSound | services/cwso-git-shadow/src/writeback.rs:256-281 | registering a workspace that has no entries leaves a sound table: each directory is watched under its path or has nothing recorded at or under it, and no live watch is recorded elsewhere |
| WatchTable.SoundPassMirrors | services/cwso-git-shadow/src/writeback.rs:581-630 | from a sound table one reconcile pass restores the mirror and leaves the table sound |
| WatchTable.PlaceDirKeepsSound | services/cwso-git-shadow/src/writeback.rs:539-554 | a directory that appears, its event heard or not, keeps the table sound |
| WatchTable.MoveOutKeepsSound | services/cwso-git-shadow/src/writeback.rs:404-497 | so does a directory moved out |
| WatchTable.RmdirKeepsSound | services/cwso-git-shadow/src/writeback.rs:404-497 | so does a directory removed |
| WatchTable.RenameKeepsSound | services/cwso-git-shadow/src/writeback.rs:404-554 | so does a directory renamed, over an empty one or not |
| Histories.RoundMirrorsIff | services/cwso-git-shadow/src/writeback.rs:404-630 | any one operation with its events and late ones handled, or a reconcile tick, keeps the mirror, exactly unless it renames a directory over another |
| Histories.RoundKeepsKeys | services/cwso-git-shadow/src/writeback.rs:404-630 | from any state with accepted keys: they stay accepted, and a tick yields the flat view |
| Histories.RoundKeepsSound | services/cwso-git-shadow/src/writeback.rs:404-630 | from any state with a sound table: it stays sound, and a tick restores the mirror |
| Histories.EveryTickYieldsTheView | services/cwso-git-shadow/src/writeback.rs:565-630 | in every history, replacing renames and unheard operations included, each tick yields the flat view |
| Histories.MirroredUntilReplaced | services/cwso-git-shadow/src/writeback.rs:383-630 | in every history the mirror, wherever it holds, goes on holding up to the first rename that replaces a directory, which breaks it |
| Histories.EveryTickRestores | services/cwso-git-shadow/src/writeback.rs:565-630 | in every history of a registered workspace the watch table stays sound and each tick restores the mirror |
| Histories.MirroredSinceTick | services/cwso-git-shadow/src/writeback.rs:383-630 | from each tick on the mirror holds exactly up to the next replacing rename |
| Lifecycle.EveryRunIsOrderly | services/cwso-git-shadow/src/repo.rs:160-290 | over creates, writes, registrations, drops, events, passes and any disk change: every key of every map is accepted and every watch belongs to a workspace |
| Lifecycle.ReachablePassYieldsTheView | services/cwso-git-shadow/src/writeback.rs:559-630 | in every reachable state a reconcile pass, or an overflow, yields the flat view of whatever is on disk |
| Lifecycle.NewWorkspaceIsMirrored | services/cwso-git-shadow/src/repo.rs:160-238 | a workspace created and registered in any reachable state is mirrored and its watch table sound |
| Reconciling.ReconcileFilesIff | services/cwso-git-shadow/src/writeback.rs:581-630 | from any map one pass yields the flat view, exactly unless a rejected key names a regular file |
| Reconciling.ReconcileWatchesIff | services/cwso-git-shadow/src/writeback.rs:581-630 | a directory is watched after the pass exactly if its path had no entry or it was watched already |
| Reconciling.ReconcileMirrorsIff | services/cwso-git-shadow/src/writeback.rs:581-630 | the pass leaves a mirror exactly without rejected keys on disk and without stale entries |
| Reconciling.SecondPassFiles | services/cwso-git-shadow/src/writeback.rs:581-630 | a second pass never changes the map |
| Reconciling.SecondPassIsIdleIff | services/cwso-git-shadow/src/writeback.rs:581-630 | a second pass changes nothing at all exactly under the stated condition on the table |
| Reconciling.CleanPassMirrors | services/cwso-git-shadow/src/writeback.rs:581-630 | with accepted keys and no stale entries: one pass mirrors, the next is idle |
| FailingCases.RecreatedDirNeedsTwoPasses | services/cwso-git-shadow/src/writeback.rs:581-630 | a directory renamed and recreated unseen, with the states after two passes: the first leaves no mirror, the second changes the table |
| FailingCases.RejectedKeyIsStuck | services/cwso-git-shadow/src/writeback.rs:581-630 | outside the reachable states: a map with the rejected key `..x`, and the pass that keeps it |
| Reconciling.HandledKeepsKeys | services/cwso-git-shadow/src/repo.rs:476-484 | no event ever brings a rejected key into a map |
| Reconciling.OverflowRecovers | services/cwso-git-shadow/src/writeback.rs:404-413 | after a queue overflow every live workspace has the flat view again |
| WriteBackEngine.ScanDirInto | services/cwso-git-shadow/src/repo.rs:1157-1233 | whatever the entry order, finds exactly the regular files and directories below, no symlink or special file |
| WriteBackEngine.OpenScanDir | services/cwso-git-shadow/src/repo.rs:982-1013 | reaches a directory exactly if every component is a real directory |
| WriteBackEngine.ScanWorkspaceTree | services/cwso-git-shadow/src/repo.rs:1143-1156 | the files and directories at and below a path |
| WriteBackEngine.Engine.AddWatches | services/cwso-git-shadow/src/writeback.rs:256-341 | the watch loop arms exactly the listed directories |
| WriteBackEngine.Engine.RegisterWorkspace | services/cwso-git-shadow/src/writeback.rs:256-281 | every directory armed, every file recorded |
| WriteBackEngine.Engine.UnregisterWorkspace | services/cwso-git-shadow/src/writeback.rs:289-315 | every watch of the workspace removed, in kernel and table |
| WriteBackEngine.Engine.RemoveWatchesUnderDir | services/cwso-git-shadow/src/writeback.rs:343-377 | exactly the watches at and under a path go, in kernel and table |
| WriteBackEngine.Engine.ApplyAll | services/cwso-git-shadow/src/repo.rs:476-484 | the loop records every found file whose path is accepted and no other |
| WriteBackEngine.Engine.SyncOneFile | services/cwso-git-shadow/src/writeback.rs:498-531 | records a regular file's content, skips anything else |
| WriteBackEngine.Engine.SyncNewSubtree | services/cwso-git-shadow/src/writeback.rs:539-554 | the files of the subtree recorded, its directories armed |
| WriteBackEngine.Engine.DropSubtreeAt | services/cwso-git-shadow/src/repo.rs:500-513 | the files and watches under a path forgotten |
| WriteBackEngine.Engine.ReconcileWorkspace | services/cwso-git-shadow/src/writeback.rs:581-630 | the reconcile relation between the states before and after |
| WriteBackEngine.Engine.WatchUnrecorded | services/cwso-git-shadow/src/writeback.rs:595-607 | exactly the scanned directories whose path the table did not have are armed |
| WriteBackEngine.Engine.ApplyChanged | services/cwso-git-shadow/src/writeback.rs:609-623 | recording only files whose id differs amounts to recording all found ones |
| WriteBackEngine.Engine.ForgetMissing | services/cwso-git-shadow/src/writeback.rs:625-629 | exactly the recorded files the scan did not find are deleted |
| WriteBackEngine.Engine.ReconcileAll | services/cwso-git-shadow/src/writeback.rs:559-563 | every workspace reconciled once |
| WriteBackEngine.Engine.HandleEvent | services/cwso-git-shadow/src/writeback.rs:404-497 | the event relation between the states before and after |
| CommitChain.MutualExclusion | services/cwso-git-shadow/src/repo.rs:370-446 | two threads inside `commit` for one workspace are one thread |
| CommitChain.InvKept | services/cwso-git-shadow/src/repo.rs:370-446 | every step of every thread keeps the invariant on locks, heads, chains and threads |
| CommitChain.EveryRunKeepsHistories | services/cwso-git-shadow/src/repo.rs:370-446 | in every run, on any repository whose commits have their parents: mutual exclusion, each head walks back through its own commits to its base, and every returned commit is on that walk |
| CommitChain.StepsAreLocal | services/cwso-git-shadow/src/repo.rs:240-290 | no step on one workspace changes another; on its own a head stays or moves to a child |
| CommitChain.CommitsCaptureFiles | services/cwso-git-shadow/src/repo.rs:370-446 | in every run, for every returned commit there was a moment when its workspace had exactly the commit's files and, as head, its parent |
| FdWalk.EnvKeepsClosed | services/cwso-git-shadow/src/repo.rs:743-760 | an allowed environment step keeps workspace directories free of outside inodes |
| FdWalk.HopStep | services/cwso-git-shadow/src/repo.rs:910-951 | each hop lands on what is at that instant a non-symlink entry of the directory opened before |
| FdWalk.WalkStepStaysInside | services/cwso-git-shadow/src/repo.rs:761-834 | one system call of a walk opens inside the workspace and changes nothing outside |
| FdWalk.EveryRunStaysInside | services/cwso-git-shadow/src/repo.rs:816-834 | over every interleaving of walks and environment no walk holds an outside inode and only the environment touches anything outside |
| Ordering.StringLessTotal | orchestrator/internal/rollout/trajectory_builder.go:115-124 | byte-wise string order is a strict total order |
| Ordering.SortSorts | orchestrator/internal/rollout/trajectory_builder.go:115-124 | sorting yields a sorted sequence |
| Ordering.SortPermutes | orchestrator/internal/rollout/trajectory_builder.go:115-124 | sorting permutes |
| Ordering.SortIsStable | orchestrator/internal/rollout/trajectory_builder.go:115-124 | elements with equal keys keep their order |
| Ordering.SortedIsUnique | orchestrator/internal/dispatch/policy_engine_v2.go:199-210 | if ties are equal elements, a multiset has one sorted sequence |
| Trajectory.RecordOrderIsStrictWeak | orchestrator/internal/rollout/trajectory.go:15-20 | the record order sorts consistently |
| Trajectory.GrownReads | orchestrator/internal/rollout/trajectory_builder.go:92-99 | extending a chain adds exactly the record's sample, or a shortened one without interstitials |
| Trajectory.BuildIsLossless | orchestrator/internal/rollout/trajectory_builder.go:52-113 | reading the trained steps back gives exactly the multiset of prompt, completion and logprobs of the non-empty records, for v1, per-request and prefix merge |
| Trajectory.WithoutInterstitialsLosslessIffNoGaps | orchestrator/internal/rollout/trajectory_builder.go:84-113 | without interstitial steps the builder is lossless exactly if every joining prompt equals its chain |
| Trajectory.GapIsLost | orchestrator/internal/rollout/trajectory_builder.go:84-113 | two records whose second prompt cannot be read back without interstitial steps |
| Trajectory.ChainHoldsItsMembers | orchestrator/internal/rollout/trajectory_builder.go:140-163 | each chain reads back exactly the records that went to it, all fitting its partition |
| Trajectory.PartitionsDoNotMix | orchestrator/internal/rollout/trajectory_builder.go:157-170 | a chain keyed to a partition holds only records keyed to it, or unkeyed |
| Trajectory.BuildersAgreeOnOnes | orchestrator/internal/rollout/trajectory_builder.go:52-113 | every builder's loss-mask ones add up to the sampled tokens |
| Trajectory.BuildIgnoresOrder | orchestrator/internal/rollout/trajectory.go:10-50 | if timestamp and request id identify records, the result ignores input order |
| Trajectory.BuiltGroupsAreWellFormed | orchestrator/internal/rollout/trajectory.go:94-120 | every built group validates, and masked steps never contain the end-of-turn token |
| TrajectoryBuilders.TokensEqual | orchestrator/internal/rollout/trajectory.go:74-84 | decides equality |
| TrajectoryBuilders.HasPrefix | orchestrator/internal/rollout/trajectory_builder.go:218-228 | decides the prefix relation |
| TrajectoryBuilders.HasEotBoundary | orchestrator/internal/rollout/trajectory_builder.go:198-209 | decides whether the gap contains the end-of-turn token |
| TrajectoryBuilders.ChainSuffix | orchestrator/internal/rollout/trajectory.go:61-72 | concatenates prefix and steps |
| TrajectoryBuilders.LossMaskOnes | orchestrator/internal/rollout/trajectory.go:86-92 | a mask of ones of the given length |
| TrajectoryBuilders.FindExtendable | orchestrator/internal/rollout/trajectory.go:52-59 | the first chain whose tokens equal the prompt |
| TrajectoryBuilders.FindPolarExtendable | orchestrator/internal/rollout/trajectory_builder.go:140-155 | the first compatible chain that is a prefix without an end-of-turn gap |
| TrajectoryBuilders.BuildTrajectoryGroup | orchestrator/internal/rollout/trajectory.go:10-50 | the loop computes the v1 fold |
| TrajectoryBuilders.BuildPerRequest | orchestrator/internal/rollout/trajectory_builder.go:60-82 | the loop computes the per-request fold |
| TrajectoryBuilders.BuildPrefixMergePolar | orchestrator/internal/rollout/trajectory_builder.go:84-113 | the loop computes the prefix-merge fold |
| TrajectoryBuilders.ValidateTrajectoryGroup | orchestrator/internal/rollout/trajectory.go:95-120 | succeeds exactly on well-formed groups, else names the first defect, never the non-appendable one |
| Jobs.NextKeepsInv | orchestrator/internal/jobs/manager.go:155-383 | every step of any thread keeps each job in one place, in a state that fits it |
| Jobs.StepFollowsEdges | orchestrator/internal/jobs/manager.go:488-497 | a step moves a job along one `canTransition` edge or not at all |
| Jobs.TerminalIsForever | orchestrator/internal/jobs/manager.go:343-383 | a terminal job never changes; it only vanishes when its enqueuer found the queue full, and then never ran |
| Jobs.BodiesRunAtMostOnce | orchestrator/internal/jobs/manager.go:253-341 | a body runs at most once, and never if the job was cancelled while queued |
| Jobs.RunningHasOneWorker | orchestrator/internal/jobs/manager.go:296-341 | a running job is in the hands of exactly one worker |
| Jobs.ActiveIsBounded | orchestrator/internal/jobs/manager.go:385-403 | running jobs never outnumber workers, queued ones never the capacity |
| Jobs.QueuedIsNeverLost | orchestrator/internal/jobs/manager.go:155-251 | a queued job is in the channel once or carried by exactly one enqueuer, worker or closer |
| Jobs.CountersAreExact | orchestrator/internal/jobs/manager.go:347-383 | completed and failed jobs equal their counters plus the workers between unlock and add |
| Jobs.CloseIsFinal | orchestrator/internal/jobs/manager.go:155-162 | once a Close that found the manager open has returned, every worker is gone for good, no job is running in any later state and no body is entered again |
| Jobs.SecondCloseReturnsEarly | orchestrator/internal/jobs/manager.go:155-158 | a run in which a second Close returns while a worker is inside a body |
| Broker.Wrap | orchestrator/internal/memorybroker/broker.go:274-276 | ring index arithmetic stays in range and wraps once |
| Broker.Ring.constructor | orchestrator/internal/memorybroker/broker.go:171-193 | an empty ring of the given capacity |
| Broker.Ring.AppendEvent | orchestrator/internal/memorybroker/broker.go:400-425 | the log grows by the record with the next number, and the ring still holds its last min(n, capacity) records |
| Broker.Ring.Query | orchestrator/internal/memorybroker/broker.go:246-302 | the retained log filtered by topics, job and cutoff, then its last `limit` records |
| Broker.TopicSet | orchestrator/internal/memorybroker/broker.go:254-260 | the trimmed non-blank topics, empty exactly if all are blank |
| Broker.MatchTests | orchestrator/internal/memorybroker/broker.go:262-289 | the loop's tests on set and single cutoff decide the declarative filter |
| Broker.QueryIsIncreasing | orchestrator/internal/memorybroker/broker.go:273-301 | results match, respect the limit and have strictly increasing sequence numbers |
| Subscriber.BytesAreExact | orchestrator/internal/memorybroker/broker.go:59-86 | queued plus in-flight bytes equal channel plus pump bytes at every instant, within the bound |
| Subscriber.DefensiveBranchesAreUnreachable | orchestrator/internal/memorybroker/broker.go:66-86 | the inner default and the clamp never act, and nothing is sent on a closed channel |
| Subscriber.OffersAreConserved | orchestrator/internal/memorybroker/broker.go:344-357 | offers made while open are delivered, queued, held or dropped, in order |
| Subscriber.EndIsFinal | orchestrator/internal/memorybroker/broker.go:344-357 | an ended pump delivers nothing more |
| Pool.NextKeepsInv | orchestrator/internal/shadow/client.go:98-170 | every step keeps tokens, idle connections and holders consistent |
| Pool.TokensAccountForConnections | orchestrator/internal/shadow/client.go:98-170 | tokens equal idle plus owned slots and bound the live connections by the pool size |
| Pool.NoConnectionIsShared | orchestrator/internal/shadow/client.go:115-170 | a held connection has one holder, is not idle and is not closed |
| Pool.NoReceiveBlocks | orchestrator/internal/shadow/client.go:146-170 | a thread that must receive a token finds one, and the full-idle branch is never enabled |
| Policy.NormalConfigIsOk | orchestrator/internal/dispatch/policy_engine_v2.go:387-427 | normalising yields usable settings and is idempotent |
| Policy.SequenceWindowIff | orchestrator/internal/dispatch/policy_engine_v2.go:416-421 | some positive length is accepted, exactly unless the configured lower bound exceeds 32768 and the upper bound is not above it |
| Policy.EmptySequenceWindow | orchestrator/internal/dispatch/policy_engine_v2.go:416-421 | settings whose normalised window ends before it starts, so that no length is in it |
| Policy.EmptyWindowRefusesAll | orchestrator/internal/dispatch/policy_engine_v2.go:153-162 | with such settings every request that reaches the window with a stated length gets the out-of-threshold baseline |
| PolicyLaws.BeforeIsStrictWeak | orchestrator/internal/dispatch/policy_engine_v2.go:199-210 | the ranking order sorts consistently |
| PolicyLaws.SelectIgnoresOrder | orchestrator/internal/dispatch/policy_engine_v2.go:120-261 | the decision ignores the order of the snapshot's providers |
| PolicyLaws.WinnerIsGreatest | orchestrator/internal/dispatch/policy_engine_v2.go:199-219 | past the early rules the winner is the lexicographically greatest contender, replaced by the baseline exactly on low confidence |
| PolicyLaws.ChainIsSound | orchestrator/internal/dispatch/policy_engine_v2.go:230-251 | the chain has no duplicates, starts with the selected provider and contains the baseline |
| PolicyLaws.ChainIsEligibleAndBaseline | orchestrator/internal/dispatch/policy_engine_v2.go:230-251 | past the early rules the chain lists exactly the eligible providers and the baseline |
| PolicyLaws.BaseConfidenceIsAMean | orchestrator/internal/dispatch/policy_engine_v2.go:360-371 | a base confidence is a weighted mean in [0,1], so its clamp never acts |
| PolicyLaws.LatchedIsDisabled | orchestrator/internal/dispatch/policy_engine_v2.go:130-151 | a latched engine decides like one without the sparse assist, and how the reason code differs |
| PolicyLaws.FailuresVisitTheChain | orchestrator/internal/dispatch/policy_engine_v2.go:302-329 | repeated failures visit the chain in order, each entry once, then the baseline |
| PolicyLaws.SelectThenFail | orchestrator/internal/dispatch/policy_engine_v2.go:302-329 | the same for every decision of Select |
| PolicyLaws.BaselineIsFinalIffLast | orchestrator/internal/dispatch/policy_engine_v2.go:311-323 | a failing baseline is selected again exactly if it ends the chain |
| PolicyLaws.BaselineFailureMovesOn | orchestrator/internal/dispatch/policy_engine_v2.go:311-323 | with a provider ranked behind the baseline, the baseline's failure selects that provider |
| PolicyEngine.Engine.constructor | orchestrator/internal/dispatch/policy_engine_v2.go:115-118 | a normalised configuration and a clear latch |
| PolicyEngine.Engine.Select | orchestrator/internal/dispatch/policy_engine_v2.go:120-261 | the decision function of the latch before, and the latch set exactly on a breach and never cleared |
| PolicyEngine.Engine.Score | orchestrator/internal/dispatch/policy_engine_v2.go:343-385 | the eligible providers scored, in order |
| PolicyEngine.Engine.ApplySparse | orchestrator/internal/dispatch/policy_engine_v2.go:135-151 | the sparse shift at flagged candidates only |
| PolicyEngine.Engine.ApplySsm | orchestrator/internal/dispatch/policy_engine_v2.go:163-186 | the throughput shift, and whether any was non-zero |
| PolicyEngine.Engine.ApplyAdjustments | orchestrator/internal/dispatch/policy_engine_v2.go:263-285 | all scores replaced, or failure exactly if the plugin fails on some candidate |
| PolicyEngine.Engine.BuildChain | orchestrator/internal/dispatch/policy_engine_v2.go:230-248 | first occurrences of baseline-if-selected, ranked ids, baseline |
| PolicyEngine.Engine.FallbackOnFailure | orchestrator/internal/dispatch/policy_engine_v2.go:302-329 | the entry behind the failed one, or the baseline |
| PolicyEngine.LatchIsForever | orchestrator/internal/dispatch/policy_engine_v2.go:429-444 | in any sequence of calls, from the breach on every decision is that of the engine without the sparse assist, reason aside |
| ConcurrentSelects.LoadsExplained | orchestrator/internal/dispatch/policy_engine_v2.go:120-228 | a call decides as an undisturbed one with the latch it used for the assist, but for the reason code when the latch rose in between |
| ConcurrentSelects.EveryDecisionIsExplained | orchestrator/internal/dispatch/policy_engine_v2.go:120-228 | over every interleaving: which decisions carry "sparse_quantized_auto_disabled", and that a call begun after the latch was set decides without the assist |
| ConcurrentSelects.MixedRun | orchestrator/internal/dispatch/policy_engine_v2.go:120-228 | whenever one request is won with the assist and another breaches the guardrail, a run in which the first reports the assist disabled |
| Resolver.OwnIff | services/cwso-git-shadow/src/ast.rs:612-628 | a scope's bindings are exactly those below it and not behind a nested scope |
| Resolver.ReportedIff | services/cwso-git-shadow/src/ast.rs:635-686 | the walk's verdict on a node equals the declarative one |
| Resolver.HitsAreExact | services/cwso-git-shadow/src/ast.rs:635-686 | hits are duplicate-free and exactly the matching definition names and resolvable identifiers |
| Resolver.Walker.CollectBindings | services/cwso-git-shadow/src/ast.rs:615-628 | adds the scope's own bindings to the innermost frame and touches no other |
| Resolver.Walker.Walk | services/cwso-git-shadow/src/ast.rs:635-686 | the stack on exit is the stack on entry, and the hits grow by exactly the subtree's |
| Resolver.ResolveReferences | services/cwso-git-shadow/src/ast.rs:688-698 | a node is reported exactly once if it should be, and no other |
| Spikes.WindowHoldsSurvivors | orchestrator/internal/dispatch/ast_spike_monitor.go:172-179 | in whatever order writes arrive, the window holds those no later write pruned |
| Spikes.WindowIsRecentHistoryIff | orchestrator/internal/dispatch/ast_spike_monitor.go:172-179 | the pruned window is the recent part of the whole history exactly if no recent write was pushed out by a larger timestamp |
| Spikes.InOrderNothingIsPushedOut | orchestrator/internal/dispatch/ast_spike_monitor.go:172-179 | which never happens to writes in time order |
| Spikes.OutOfOrderForgets | orchestrator/internal/dispatch/ast_spike_monitor.go:172-179 | three timestamps out of order where the window forgets one |
| Spikes.FiresIff | orchestrator/internal/dispatch/ast_spike_monitor.go:181-191 | a spike fires exactly if the writes in the window reach the threshold and every earlier spike is a debounce old |
| Spikes.SpikesAreApart | orchestrator/internal/dispatch/ast_spike_monitor.go:185-188 | successive spikes are a debounce apart, in whatever order writes arrive |
| Spikes.SpikesInSpan | orchestrator/internal/dispatch/ast_spike_monitor.go:185-188 | at most span / debounce + 1 spikes in any span |
| Spikes.Prune | orchestrator/internal/dispatch/ast_spike_monitor.go:172-178 | keeps exactly the writes after the cutoff, in order |
| Spikes.Monitor.constructor | orchestrator/internal/dispatch/ast_spike_monitor.go:106-138 | positive limits, empty windows |
| Spikes.Monitor.Record | orchestrator/internal/dispatch/ast_spike_monitor.go:162-191 | window and clock of each workspace follow its own history, and the result says whether a spike fires |
| Spikes.ConflictFilter.constructor | orchestrator/internal/dispatch/ast_spike_filter.go:184-220 | positive limits, no writers |
| Spikes.ConflictFilter.Classify | orchestrator/internal/dispatch/ast_spike_filter.go:250-334 | warns exactly if another workspace has a surviving threshold-passing write on the symbol, which with nothing pushed out is any such write in the window; lower writes leave no trace |
| Spikes.Warn | orchestrator/internal/dispatch/ast_spike_filter.go:336-369 | lists the first peers in order up to the cap, and the sorted workspaces involved |

## Left out

- Real libgit2, tree-sitter, inotify and libc: replaced by what they promise (a content-addressed store, a tree with node kinds, event lists, directory lookup).
- The per-language node-kind tables and binding syntax of `ast.rs`: each node carries their verdict.
- Racing `write_file` calls on one path, which can leave map and disk different until the next reconcile pass: synchronisation is stated for sequential calls and a still disk.
- `drop_workspace` beyond what it forgets, the startup sweep, `list_files`, `workspace_meta` and `stat`: easy members. Names that libgit2 itself refuses in a tree, such as `.git`.
- File names that are not UTF-8, which the scan skips; I/O errors inside a scan.
- The kernel's watch limit: adding a watch fails only where no directory is.
- WriteBackEngine.Engine.HandleEvent: the names it needs are valid because they come from the kernel and from scans.
- A symlink or special file renamed over a recorded file: the event path skips it and only reconcile repairs it, so it is not among the mirrored operations.
- FdWalk: permissions, file descriptor limits and hard links made by the environment from outside.
- Jobs: events published on transitions, results, error texts and timestamps. Nothing is claimed about every job being terminal after Close, since a late Enqueue may still land in the channel.
- Pool: nothing is claimed about idle being empty after Close, since a racing release may still push. Framing and calls are not modelled.
- Broker ingest queue, payload sanitising and JSON encoding, and the event bus, whose subscriber is the same as this one.
- Policy: floating-point rounding and NaN; letters outside ASCII in case-insensitive comparisons.
- Trajectory: rewards, provider and finish reason, which no builder reads; the choice of strategy per task.
- Spikes: the signature memory behind the scorer, hot paths, languages, latency and redaction; the scorer's verdict is an input.
- Rollout service and gateway, tier router, tool registry, dispatch counting, codecs, runners, HTTP and dashboard.
