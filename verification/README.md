# Agent gateway: a verified model of its directory, queues, logs and graphs

This Dafny project models the parts of an agent platform where state, concurrency and failure meet:
the plugin lease directory (in memory and over etcd), the durable input queue with its SQL store and
supervisor, the invocation graph and the trajectory branch, the event log with its crash-safe journal
and its forwarding to clients, the conversation projection, the tool permission rules, the
per-session lock and the registry of active runtime hosts.

Two styles are used side by side. What the code computes step by step (loops, objects whose methods
update fields) is written as methods and classes whose `ensures` tie the result or the new state to a
value or a property. What independent processes do to each other is written as a step machine: every
mutex-protected section, store statement, transaction and channel operation is one step, a run is any
sequence of enabled steps, and the main theorems hold in every state of every run, with crashes,
expiries and cancellations where the system has them.

Modules, by part of the system:

| part | modules |
|---|---|
| plugin directory | `Registry` (operations as values), `Directory` (the object), `RegistryLog`, `RegistryPoll`, `RegistryListing`, `RegistryLease` |
| plugin directory on etcd | `Etcd` (store, clients, steps), `EtcdSafety`, `EtcdTokens` |
| input queue | `InputQueue`, `InputRuns`, `InputStore`, `InputStoreSafety`, `InputStoreSql`, `InputMigration` |
| input supervisor | `Supervisor`, `SupervisorSafety`, `SupervisorProgress` |
| invocation graph and branch | `TopoSort`, `InvocationGraph`, `BuildGraph`, `Branch` |
| event log | `EventLog`, `EventStream`, `Journal`, `JournalRecovery`, `JournalExact` |
| conversation | `Utf8`, `Conversation` |
| permissions, locks, hosts | `Permission`, `SessionGate`, `HostRegistry` |
| shared | `Text`, `Outcome` |

`dafny verify dfyconfig.toml` verifies the whole project.

Three promises turned out to hold only under a condition; each condition is stated exactly, with an
input that fails it.

* A poll of the directory from cursor 0 is not checked against compaction. It reports the true
  beginning of the filtered history if and only if none of the compacted changes was for its query
  (`RegistryPoll.CursorZeroExact`); without a filter that means that the change of revision 1 is still
  retained (`RegistryPoll.CursorZeroUnfiltered`). `RegistryPoll.CursorZeroLosesChanges` is a run where
  the poll silently starts in the middle. From any cursor above 0 the expiry report is exact.
* The supervisor recognises the execution of an interrupted dispatch by its creation time only. A
  crash right after an acquisition makes the next process bind the input to an execution submitted
  for another input if and only if some execution was not created strictly before that acquisition
  (`SupervisorSafety.TimelinessIsExact`); `SupervisorSafety.EqualTimesConfuseInputs` is such a run from
  the initial state, with equal clock readings. Under strictly increasing readings submission is
  exactly-once.
* The journal stores the compact form of a payload, so a reload shows every acknowledged event up to
  that compaction (`JournalRecovery.RecoveryIsExact`). It gives back exactly the streams that memory
  held before the crash if and only if memory held every logged event in compact form
  (`JournalExact.ReloadKeepsMemoryIff`); `JournalExact.BlankPayloadIsNotKept` is a run of a fresh store
  where it does not.

## Model

| member | source | states |
|---|---|---|
| RegistryLog.RunSound | registry/state.go:63-190 | over every run of register, renew, unregister and reads: instances and leases stay in bijection with equal epoch and expiry, the retained log is contiguous and ends at the revision, lease IDs and epochs are fenced, and replaying the query-selected history gives the filtered listing |
| RegistryLog.StepSound | registry/state.go:63-213 | every single operation keeps all of that |
| RegistryLog.StepExplained | registry/state.go:252-367 | the changes an operation publishes, selected by any query and replayed, turn the filtered listing before it into the one after it; renewals publish nothing and change only times |
| RegistryLog.StepFenced | registry/state.go:63-120 | epochs given out per key strictly increase and are bounded by the recorded one; drawn lease IDs are remembered |
| RegistryLog.InvValidates | registry/state.go:384-433 | the invariant implies every check of `validate` on the links between the maps, epochs and log; that a stored registration is normalised is not modelled |
| RegistryLog.PruneExact | registry/state.go:297-312 | pruning removes exactly the leases whose expiry is not after `now`, with exactly their instances, one revision each, and keeps the invariant |
| RegistryLog.RemoveKeeps | registry/state.go:336-357 | removing a lease removes exactly its instance and index, publishes exactly one change and keeps the invariant |
| RegistryLog.AdmitKeeps | registry/state.go:86-119 | admitting a registration of a free key keeps the bijection and the contiguous log |
| RegistryLog.MapKeyInjective | registry/directory.go:361-363 | keys without the separator never collide as map keys |
| RegistryPoll.PollFaithful | registry/state.go:252-295 | from a cursor above 0 a poll reports expiry exactly when the next change was compacted away; otherwise the page is exactly the selected changes after the cursor, at most the limit, and advances |
| RegistryPoll.Drain | registry/state.go:252-295 | polling page by page from a live cursor terminates at the revision and yields every selected change once, in order |
| RegistryPoll.ClientRebuildsListing | registry/state.go:215-295 | a client that starts from a collected listing and then polls, with any other calls between, has seen exactly the selected changes since its start, and whenever its cursor is current its copy is the filtered listing |
| RegistryPoll.CollectedRebuilds | registry/state.go:252-295 | if every key shows its place in the listing of some revision since the start, replaying the changes since the start gives the present listing |
| RegistryPoll.ListedClientIsSynced | registry/state.go:215-250 | a listing taken in one piece is a valid starting point for that client |
| RegistryListing.PagedClientRebuildsListing | registry/state.go:215-295 | a client that pages through the listing while the directory changes and then polls from the revision of its first page rebuilds the filtered listing |
| RegistryListing.PagedListingIsStart | registry/state.go:215-250 | pages taken at different revisions, with any calls between, together are a valid starting point |
| RegistryListing.PageTells | registry/state.go:215-250 | between its two cursors a page tells exactly what the filtered listing of its moment holds |
| RegistryPoll.CursorZeroExact | registry/state.go:265-275 | for every query, a poll from cursor 0 is faithful if and only if no compacted change was selected by that query |
| RegistryPoll.CursorZeroUnfiltered | registry/state.go:265-275 | without a filter: if and only if revision 1 is still in the log |
| RegistryPoll.CursorZeroLosesChanges | registry/state.go:265-275 | a concrete run after which a poll from cursor 0 skips a compacted change without an error |
| RegistryPoll.RetiredForever | registry/state.go:122-190 | after any further run, a lease ID that was drawn and removed is refused by renew and unregister, and nothing changes |
| RegistryPoll.EpochsStrictlyIncrease | registry/state.go:63-120 | over every run each registration of a key gets a larger epoch than every earlier one |
| RegistryLease.RenewalNeeds | registry/state.go:122-160 | a renewal succeeds if and only if the time is positive, the lease is there and has not expired, and the token is the stored, non-empty one |
| RegistryLease.RenewalExtends | registry/state.go:160-170 | after it lease and instance are there for every reader before now plus the time and for none from then on; the listing and the log do not change |
| RegistryLease.Refusals | registry/state.go:122-190 | unknown, expired and wrongly presented leases meet their own error; the wrong token changes nothing |
| RegistryLease.UnregistrationRemoves | registry/state.go:172-190 | with the same credential lease and instance are gone at once and one deletion is published |
| RegistryLease.RegistrationStores | registry/state.go:63-90 | each error exactly under its condition: bad request, a key still alive now, a failed draw |
| RegistryLease.RegistrationLives | registry/state.go:90-120 | the given registration is stored with the next epoch and lives exactly until now plus the time |
| RegistryLease.PruningPublishes | registry/state.go:297-334 | pruning publishes one expiry per expired lease and nothing else |
| RegistryLease.LateCallsExpire | registry/state.go:328-334 | a call with an expired lease publishes its expiry |
| RegistryLease.RetainedMeans | registry/state.go:359-367 | the log keeps the newest changes up to the bound |
| RegistryLease.AheadIsRefused | registry/state.go:262-268 | a cursor ahead of the directory is refused |
| RegistryLease.PageLimitMeans | registry/directory.go:274-317 | limits 1 to 1000 are taken, 0 means 100, all others are refused |
| RegistryLease.MatchesByField | registry/directory.go:323-343 | a query matches exactly what each of its fields alone matches |
| RegistryLease.FieldExcludes | registry/directory.go:323-343 | a field that is set admits exactly the registrations with that value; a label that is absent reads as empty |
| RegistryLease.LabelsByTag | registry/directory.go:323-343 | labels are asked for one by one |
| Directory.DirectoryState.Register | registry/state.go:63-120 | the object's new state, published change and answer are those of the specified registration, all error cases included |
| Directory.DirectoryState.Renew | registry/state.go:122-170 | the same for renewal, with expiry on a late call |
| Directory.DirectoryState.Unregister | registry/state.go:172-190 | the same for removal |
| Directory.DirectoryState.Get | registry/state.go:192-213 | prunes, then answers from the pruned state |
| Directory.DirectoryState.List | registry/state.go:215-250 | prunes, then returns the ascending page of matching keys after the cursor |
| Directory.DirectoryState.Poll | registry/state.go:252-295 | the loop over the retained changes returns the specified page or the cursor error |
| Directory.DirectoryState.PruneExpired | registry/state.go:297-312 | the collect, sort and remove loops give the specified pruned state whatever the map order, and tell whether anything changed |
| Directory.DirectoryState.RemoveLease | registry/state.go:336-357 | removal in place equals the specified removal |
| Directory.DirectoryState.AppendChange | registry/state.go:359-367 | the log keeps the newest changes up to the bound |
| Directory.FirstPageIsListing | registry/state.go:215-250 | an unlimited first page shows exactly the filtered listing the log is proved against |
| EtcdSafety.EtcdFencing | registry/etcd.go:118-428 | in every interleaving of any number of clients and expiries: a live instance and its lease index hang on the same live lease and name each other, the instance's epoch is the key's stored epoch, and epochs given out for a key strictly increase |
| EtcdSafety.StepKeeps | registry/etcd.go:118-428 | every read, grant, transaction, revocation, expiry and client stop keeps the invariant, including what each client has read so far |
| EtcdSafety.RegisterKeeps | registry/etcd.go:195-226 | the register transaction, guarded by an absent instance and an unchanged epoch, keeps the invariant; a failed or leaseless one changes nothing |
| EtcdSafety.IssueKeeps | registry/etcd.go:963-990 | the epoch that passes its comparison is above all epochs given out before |
| EtcdSafety.RefreshKeeps | registry/etcd.go:274-347 | a renewal or a delete mark under two revision comparisons keeps the invariant |
| EtcdSafety.ReplaceKeeps | registry/etcd.go:754-846 | moving an instance to a new lease keeps the bijection |
| EtcdSafety.DeleteKeeps | registry/etcd.go:406-428 | the delete phase, which compares the instance only, still removes instance and index together |
| EtcdSafety.ClientStays | registry/etcd.go:848-926 | what a client read in separate reads stays trustworthy under its revision comparisons whatever others write |
| EtcdSafety.OnlyCurrentSucceeds | registry/etcd.go:255-428 | a credential commits only while its index is in place and points at an instance on that very lease; a replacement or deletion retires it |
| EtcdSafety.RetiredForever | registry/etcd.go:255-428 | over every further run a replaced, removed or expired credential never succeeds again |
| EtcdSafety.RemovalIsFinal | registry/etcd.go:360-428 | once marked for removal a registration is never renewed again, even if the client that marked it stops before deleting |
| EtcdSafety.RegistrationFencesEarlier | registry/etcd.go:118-253 | when a registration of a key commits, every credential ever handed out for that key is already retired |
| EtcdSafety.CommitHandsOut | registry/etcd.go:222-226 | a committed registration or replacement hands out a credential for its key |
| EtcdSafety.ExpiredOk | registry/etcd.go:942-946 | revoking a lease takes instance and index together and keeps the store consistent |
| EtcdTokens.OnlyTokenSucceeds | registry/etcd.go:848-926 | over every run a renewal, replacement, mark or deletion commits only for a client that presents the token stored with the lease |
| EtcdTokens.StrangerNeverCommits | registry/etcd.go:255-428 | whoever does not present the token a registration was made with never renews, replaces or removes it, through all its replacements, in any run |
| EtcdTokens.ReplacementKeepsToken | registry/etcd.go:754-846 | a replacement moves index and token to the new lease with the new time and retires the old one |
| EtcdTokens.RegistrationKeepsToken | registry/etcd.go:118-428 | while a registration lives its token does not change |
| EtcdTokens.RegisterStores | registry/etcd.go:195-226 | a committed registration stores the drawn token, time and lease with the next epoch |
| EtcdTokens.StrangerIsFenced | registry/etcd.go:882-885 | the wrong token is refused at the first read |
| EtcdTokens.AloneRegisters | registry/etcd.go:118-253 | undisturbed, a free key is registered with the next epoch under the drawn lease and token |
| EtcdTokens.AloneRenews | registry/etcd.go:255-347 | undisturbed, a renewal with the same time succeeds and keeps lease, epoch and token |
| EtcdTokens.AloneReplaces | registry/etcd.go:348-358 | undisturbed, a renewal with another time moves the registration to the new lease, epoch and token kept |
| EtcdTokens.AloneUnregisters | registry/etcd.go:360-428 | undisturbed, an unregistration removes instance and index and keeps the epoch |
| EtcdTokens.LoserChecks | registry/etcd.go:234-251 | a registration that lost its comparison is a conflict if the key is taken, and otherwise starts over |
| InputQueue.EnqueueInput | gateway/input.go:134-172 | the scan returns the existing input for an equal repeat, a conflict for a different one, exhaustion at the last sequence, else the new input at the end |
| InputQueue.AcquireInput | gateway/input.go:191-223 | the scan resumes the only dispatching input, else dispatches the first queued one, and reports several dispatching ones |
| InputQueue.BindInput | gateway/input.go:225-268 | the search and each outcome: refused name, unknown input, not dispatching, already bound to this or another execution, newly bound |
| InputQueue.CompleteInput | gateway/input.go:270-311 | the search and each outcome: not a final state, unknown input, the same completion again, not dispatching, newly finished |
| InputQueue.CancelInput | gateway/input.go:313-354 | the search and each outcome: unknown input, other revision, already cancelled, not queued, newly cancelled |
| InputRuns.EnqueueRepeats | gateway/input.go:134-172 | enqueueing again after any other operations changes nothing and returns the stored input in its present version |
| InputRuns.BindRepeats | gateway/input.go:225-268 | after any other operations the binding is unchanged; binding again returns the stored input while it is dispatching and is refused afterwards; another execution is always refused |
| InputRuns.CompleteRepeats | gateway/input.go:270-311 | completing again in the same way returns the finished input and changes nothing; any other completion is refused |
| InputRuns.CancelRepeats | gateway/input.go:313-354 | cancelling again with the revision it left returns the cancelled input; with the revision it started from it is refused |
| InputRuns.EnqueueGives | gateway/input.go:134-172 | an accepted request is in the queue as it was made: the stored input of that ID, or a new one at the end, queued and unbound |
| InputRuns.EnqueueRefuses | gateway/input.go:139-162 | a conflict if and only if the ID is in use for another session, kind or content; full if and only if the last sequence is reached and the ID is new |
| InputRuns.ReusedIdIsRefused | gateway/input.go:139-152 | once a request was accepted its ID is refused for any other request, after any operations |
| InputRuns.AcquireTakes | gateway/input.go:191-223 | the dispatching input again, else the first unfinished one; nobody exactly when everything is finished |
| InputRuns.SeveralAreCorrupt | gateway/input.go:191-210 | two dispatching inputs are reported, not chosen from |
| InputRuns.CallsAnswer | gateway/input.go:225-354 | bind, complete and cancel succeed exactly in the states that fit and say what is wrong otherwise; the result carries the execution, the final state and error, or the cancellation |
| InputRuns.ValidRefuses | gateway/input.go:356-419 | what a stored stream is refused for |
| InputRuns.NextPageGoesOn | gateway/input.go:174-189 | listing on from the last input of a page gives exactly the rest |
| InputRuns.RunExtends | gateway/input.go:134-354 | no run of queue operations removes an input, changes what it was enqueued with, rebinds it or reopens it |
| InputRuns.RunRegular | gateway/input.go:134-354 | every stream a queue reaches has sequences 1..n, life-cycle revisions, distinct IDs and only finished inputs before a dispatching one |
| InputQueue.ListInputs | gateway/input.go:174-189 | a page is a prefix of the inputs after the cursor, full unless the inputs run out, and names its last sequence |
| InputQueue.ValidateStream | gateway/input.go:356-419 | one scan accepts exactly the streams with rising sequences, distinct IDs, at most one dispatching input and a cursor above them; the name, content and time checks of single inputs are not modelled |
| InputStoreSafety.RowLevelSwapIsEnough | gateway/input_store_gorm.go:65-343 | for any number of processes interleaving snapshots, later cursor reads and single-row writes: sequences are exactly 1..n with cursor n + 1, everything before a dispatching row is terminal, revisions stay within 4, and inputs are first acquired once each in sequence order |
| InputStoreSafety.StepKeeps | gateway/input_store_gorm.go:187-343 | every atomic statement of every process keeps the table and each process's stale snapshot consistent |
| InputStoreSafety.LifeCycle | gateway/input.go:191-354 | over every run a row's revision counts its transitions up to 4, a terminal row never changes, and a binding never changes once set |
| InputStoreSafety.SnapshotLoads | gateway/input_store_gorm.go:289-319 | rows read first and a cursor read later still form a valid stream |
| InputStoreSafety.SwapKeepsTable | gateway/input_store_gorm.go:321-343 | a compare-and-swap of one row, decided on an older snapshot, keeps at most one dispatching row |
| InputStoreSafety.InsertKeepsTable | gateway/input_store_gorm.go:65-118 | an insert decided on an older snapshot lands at the next sequence or fails on the unique keys |
| InputStoreSql.SqlInputStore.Enqueue | gateway/input_store_gorm.go:65-118 | load, decide and insert change the table as the uninterrupted protocol does |
| InputStoreSql.SqlInputStore.AcquireNext | gateway/input_store_gorm.go:187-214 | the same for acquisition, with the exact answer: corrupt stream, the queue's error, a conflict exactly when the row has moved on, else what the queue acquires |
| InputStoreSql.SqlInputStore.MutateInput | gateway/input_store_gorm.go:259-287 | the same for bind, complete and cancel, with the exact answer in each case |
| InputStoreSql.SqlInputStore.SaveInput | gateway/input_store_gorm.go:321-343 | a row is written exactly when its revision is the expected one |
| InputStoreSql.EnqueueRefines | gateway/input_store_gorm.go:65-118 | uninterrupted, the SQL store does to its rows what the queue does to its stream |
| InputStoreSql.AcquireRefines | gateway/input_store_gorm.go:187-214 | the same for acquisition |
| InputStoreSql.MutateRefines | gateway/input_store_gorm.go:216-287 | the same for bind, complete and cancel |
| InputStoreSql.LoadWithoutCursor | gateway/input_store_gorm.go:289-319 | without a cursor row the next sequence follows the last row |
| InputStoreSql.SwapRefines | gateway/input_store_gorm.go:321-343 | writing one row is replacing one input of the stream |
| InputMigration.ImportLegacy | gateway/stores_gorm.go:184-240 | the import loop inserts exactly the rows without a conflict and only raises the cursor |
| InputMigration.RepeatedImportIsHarmless | gateway/stores_gorm.go:184-240 | after importing a file and any use of the queue by any processes, importing it again changes no row and no cursor |
| InputMigration.MigratedRowsAreSafe | gateway/stores_gorm.go:184-240 | row-level safety holds for migrated sessions too: any stream a queue reached is imported and any number of processes go on with it |
| InputMigration.ImportIsSafe | gateway/stores_gorm.go:184-240 | importing such a stream inserts every row and gives a table within the invariant of the row-level protocol |
| InputMigration.ImportKeepsIdsUnique | gateway/stores_gorm.go:184-214 | an import into any table never gives one ID to two rows and keeps every row that was there |
| InputMigration.RunGrows | gateway/input_store_gorm.go:65-118 | no run ever removes a row, changes its ID or lowers the cursor |
| SupervisorSafety.ExactlyOnce | gateway/input_supervisor.go:154-251 | over every run with crashes, pauses and failing calls at any step, a submission that is accepted and then reported as failed included, each input has at most one accepted execution and is only bound to its own, if executions are created strictly before the next acquisition |
| SupervisorSafety.TimelinessIsExact | gateway/input_supervisor.go:221-251 | a crash right after an acquisition leads to a wrong binding if and only if that condition fails there |
| SupervisorSafety.RecoveryNeedsTimeliness | gateway/input_supervisor.go:221-251 | the same from any consistent state |
| SupervisorSafety.EqualTimesConfuseInputs | gateway/input_supervisor.go:237-243 | a run of fourteen steps from the initial state, at one clock reading, after which an input is bound to another input's execution |
| SupervisorSafety.BoundaryChoosesOwn | gateway/input_supervisor.go:221-251 | the polling decision adopts only the input's own execution and submits only an input that has none |
| SupervisorProgress.NeverTwoExecutions | gateway/input_supervisor.go:221-251 | over every run, with crashes and any clock, all executions but the last have ended |
| SupervisorProgress.WaitsWhileRunning | gateway/input_supervisor.go:244-250 | while another input's execution runs the runner keeps waiting |
| SupervisorProgress.GetsSubmitted | gateway/input_supervisor.go:187-203 | once every execution has ended, three calls bring an input that has none to an accepted one |
| SupervisorProgress.SubmitsOnlyUnpaused | gateway/input_supervisor.go:187-193 | a runner comes to submit only by reading the session again and finding it not paused |
| SupervisorProgress.PausedRunnersLeave | gateway/input_supervisor.go:96-108 | a runner that finds the session paused leaves without touching the queue |
| SupervisorProgress.EndIsRecorded | gateway/input_supervisor.go:253-321 | the final state and error of an execution, or of a failed submission, are what its input says |
| SupervisorProgress.ResumeWakes | gateway/input_supervisor.go:57-72 | resuming a session leaves a caller about to schedule it |
| SupervisorSafety.StepKeeps | gateway/input_supervisor.go:93-321 | every step of runners, callers, executions and crashes keeps the invariant behind exactly-once |
| SupervisorSafety.NeverTwoRunners | gateway/input_supervisor.go:57-72 | over every run at most one runner lives and the guarded table says whether one does |
| SupervisorSafety.NoLostWakeup | gateway/input_supervisor.go:93-152 | while the session stays unpaused and its stores do not fail, an unfinished input has a registered runner or a caller about to schedule one |
| SupervisorSafety.InitialAwake | gateway/input_supervisor.go:74-91 | a new process, about to schedule every session, starts in that state |
| SupervisorSafety.QuietStepStaysAwake | gateway/service.go:594-625 | each step keeps that, because the empty check and the removal are one step |
| TopoSort.Kahn | sdk/invocation_graph.go:211-266 | the counting loop yields the order that always takes the least ready node, and stops exactly when none is ready |
| TopoSort.CompleteIffAcyclic | sdk/invocation_graph.go:258-264 | that order is complete if and only if the edges have no cycle |
| TopoSort.GreedyUnique | sdk/invocation_graph.go:211-266 | there is only one such order, so map iteration does not matter |
| TopoSort.GreedyIsTopological | sdk/invocation_graph.go:211-266 | in it every predecessor comes before its user |
| TopoSort.StuckIsCyclic | sdk/invocation_graph.go:258-264 | if nothing is ready and something is left, the rest contains a cycle |
| Text.LessMeans | sdk/invocation_graph.go:314-318 | string order: at the first difference the smaller character decides, and a proper prefix comes first |
| InvocationGraph.CompareNodesLaws | sdk/invocation_graph.go:294-371 | the comparison is antisymmetric and transitive and separates different IDs |
| InvocationGraph.NodeOrderIsTotal | sdk/invocation_graph.go:294-336 | so it is a total order on the nodes |
| InvocationGraph.TallyEdges | sdk/invocation_graph.go:211-240 | the counting loops count every parent and dependency edge once and ignore self-edges and unknown sources |
| InvocationGraph.SortNodes | sdk/invocation_graph.go:211-266 | fails if and only if the edges contain a cycle; otherwise the unique least-first topological permutation, and it is ranked: whatever a node waits for comes before it, and of two nodes the root, the smaller ordinal, the recorded, the earlier submitted, the smaller operation ID, the smaller ID comes first unless it had to wait |
| InvocationGraph.PrecedesIsOrder | sdk/invocation_graph.go:294-371 | that ranking is what the comparison computes |
| InvocationGraph.EdgesAreWaits | sdk/invocation_graph.go:223-240 | the edges are exactly parent and dependency of another node of the graph |
| InvocationGraph.SortedIsRanked | sdk/invocation_graph.go:244-258 | every least-first topological order is ranked |
| BuildGraph.CollectNodes | sdk/invocation_graph.go:81-108 | one node per kept record; an error exactly when an identifier repeats |
| BuildGraph.AddReferences | sdk/invocation_graph.go:109-120 | every mentioned identifier gets a node and no recorded node changes |
| BuildGraph.BuildInvocationGraph | sdk/invocation_graph.go:71-164 | the whole build: each error exactly under its condition, otherwise the graph of that root, projected in sorted order |
| BuildGraph.NodesDetermined | sdk/invocation_graph.go:71-125 | the records determine the nodes |
| BuildGraph.GraphIsDetermined | sdk/invocation_graph.go:71-292 | the nodes determine the whole graph, child and dependent lists included |
| BuildGraph.OperationsAreTheRecords | sdk/invocation_graph.go:168-183 | the ordered operations are exactly the kept records |
| BuildGraph.OperationsFollowSources | sdk/invocation_graph.go:71-183 | in the built graph an operation comes after its parent and all its dependencies |
| BuildGraph.OperationsFollowOrdinals | sdk/invocation_graph.go:309-355 | of two operations that wait for nothing more the smaller ordinal, then the earlier submission, comes first |
| BuildGraph.RelationsMean | sdk/invocation_graph.go:121-164 | children are exactly the other nodes that name a node as parent, dependents those that depend on it |
| BuildGraph.NodesAreNamed | sdk/invocation_graph.go:81-120 | the nodes are the root, the kept records and everything they name |
| Branch.Branch | sdk/trajectory.go:520-552 | terminates on any entries; succeeds if and only if the parent chain reaches the root and then returns the branch; unknown entry and cycle are reported exactly when the walk dangles or returns |
| Branch.Walk | sdk/trajectory.go:528-550 | the loop with its `seen` set, outcome by outcome |
| Branch.IndexEntries | sdk/trajectory.go:524-527 | the index maps every identifier to its last entry |
| Branch.LookupIsLast | sdk/trajectory.go:524-527 | of entries with one identifier the last one counts |
| Branch.BranchUnique | sdk/trajectory.go:520-552 | root-first chain with distinct identifiers, each entry after its parent: there is only one |
| Branch.BranchReachesRoot | sdk/trajectory.go:520-552 | such a chain exists only where the walk reaches the root |
| Branch.Excluded | sdk/trajectory.go:528-548 | reaching the root, dangling and returning exclude each other |
| EventLog.AppendAgentEvent | gateway/event.go:181-212 | the scan and the creation, with exhaustion at the last sequence |
| EventLog.AppendIsIdempotent | gateway/event.go:181-212 | appending a runtime event again, after any other appends, returns the first event and changes nothing |
| EventLog.AppendGives | gateway/event.go:181-212 | a new event is the given one, created now, after all others; refused exactly at the last sequence |
| EventLog.ValidRefuses | gateway/event.go:276-325 | what a stored stream is refused for |
| EventLog.AppendKeepsValid | gateway/event.go:181-212 | an append keeps what validation requires |
| EventLog.Validate | gateway/event.go:276-325 | one scan accepts exactly the streams with accepted events, rising sequences, distinct IDs and a next sequence above them |
| EventLog.ListEvents | gateway/event.go:214-232 | the page is the longest prefix of the events after the cursor that fits the limit and the byte budget |
| EventLog.AppendItem | gateway/event.go:234-251 | an item is taken exactly if it is alone or fits the budget |
| EventLog.PageUnique | gateway/event.go:214-251 | there is only one such page |
| EventLog.PageProgress | gateway/event.go:214-251 | a page is empty only if nothing is pending, and exceeds the budget only with a lone item |
| EventLog.PageStops | gateway/event.go:214-251 | a page ends only at the last event, at the limit, or where the next item would exceed 4 MiB |
| EventLog.BytesMeans | gateway/event.go:214-251 | a page takes 64 bytes, and each item its encoding and a separator |
| EventLog.NormalLimitMeans | gateway/event.go:66-77 | limits 1 to 1000 are taken, 0 means 100, all others are refused |
| EventStream.NextPageGoesOn | gateway/event.go:228-231 | listing on from the next cursor of a page gives exactly the rest |
| EventStream.ListRows | gateway/event_store_gorm.go:254-284 | the same for rows selected in SQL |
| EventStream.SelectedIsPrefix | gateway/event_store_gorm.go:260-267 | filtered, ordered and limited rows are the first pending events |
| EventStream.SameListing | gateway/event_store_gorm.go:254-284 | both stores answer every query with the same page |
| EventStream.GapFree | gatewayrpc/server.go:542-576 | with appends interleaved anywhere the client gets a prefix of the log after its cursor, in order and without repeats; the forwarder blocks exactly when the client has all of it |
| EventStream.PendingAfter | gateway/event.go:214-232 | listing after the k-th event sent gives exactly the rest |
| EventStream.StepKeeps | gatewayrpc/server.go:551-575 | every append, page and send keeps that |
| Journal.ParseLines | gateway/event_store_file.go:246-275 | reading written lines followed by an incomplete one yields exactly the written events and their length |
| Journal.GenuineIsValid | gateway/event_store_file.go:276-284 | replaying events that were each the next of their session gives streams that pass validation |
| Journal.ReplayCanon | gateway/event_store_file.go:308-319 | replaying the compacted events shows the same streams up to compaction |
| JournalRecovery.ReadJournal | gateway/event_store_file.go:246-275 | the reading loop replays exactly the decodable complete lines and stops before the incomplete one |
| JournalRecovery.ValidateAll | gateway/event_store_file.go:276-284 | accepts exactly the valid streams in any map order |
| JournalRecovery.FileEventStore.Load | gateway/event_store_file.go:246-285 | succeeds exactly on loadable files, rebuilds the streams and cursors and cuts off the incomplete line |
| JournalRecovery.FileEventStore.Append | gateway/event_store_file.go:71-111 | a new event goes to the journal, the streams and the cursor together; a repeat or an error changes nothing |
| JournalRecovery.FileEventStore.List | gateway/event_store_file.go:132-154 | the page of the session's stream, or the refusal |
| JournalRecovery.LatestMeans | gateway/event.go:253-258 | the cursor of a session is its largest sequence |
| JournalRecovery.LatestFollowsAppend | gateway/event_store_file.go:104-108 | an append moves it to the new event |
| JournalRecovery.AppendIsReplay | gateway/event_store_file.go:308-319 | appending in memory and replaying the written line give the same streams |
| JournalRecovery.RecoveryIsExact | gateway/event_store_file.go:246-319 | over every run with crashes at any byte a reload succeeds, drops only an incomplete last line, and rebuilds valid streams that show every acknowledged event up to compaction |
| JournalExact.ReplayExactIff | gateway/event_store_file.go:308-319 | replaying the compacted events gives the same streams if and only if every event was compact |
| JournalExact.ReplayTwice | gateway/event_store_file.go:308-319 | replaying a journal over streams that already hold its events changes nothing |
| JournalExact.ReloadGivesAppendedIff | gateway/event_store_file.go:246-319 | in every crashed state of every run the reload gives the streams of the events as appended if and only if each of them was compact |
| JournalExact.ReloadKeepsMemoryIff | gateway/event_store_file.go:246-319 | in every state of every run, a crash and a reload give back exactly what memory held if and only if memory held every logged event in compact form |
| JournalExact.ReloadDiffers | gateway/event_store_file.go:287-306 | opening a store, appending an event that is not compact, crashing and reloading: the reload succeeds and differs from what memory held |
| JournalExact.BlankPayloadIsNotKept | gateway/event_store_file.go:287-306 | a concrete codec and event for which that happens |
| JournalExact.SqueezingIsFaithful | gateway/event_store_file.go:287-306 | what is asked of a codec is met by one that changes events |
| JournalRecovery.CrashLosesNothing | gateway/event_store_file.go:71-111 | a crash inside an append and a reload leave exactly what was shown before it, or after it if the whole line was written |
| JournalRecovery.SequencesAreNeverReused | gateway/event.go:181-212 | across all crashes every later event of a session gets a larger sequence |
| JournalRecovery.StepKeeps | gateway/event_store_file.go:71-111 | appends, crashes and reloads keep memory, disk and log in agreement, and the log only grows |
| Conversation.ChunkBoundary | gateway/conversation.go:185-198 | the backward scan finds the specified boundary for any bytes and limit |
| Conversation.BoundaryFits | gateway/conversation.go:185-198 | the boundary is positive and within the content and the limit |
| Conversation.BoundaryKeepsRunes | gateway/conversation.go:185-198 | valid UTF-8 is cut into two valid parts, as late as the limit allows |
| Utf8.CutAtStart | gateway/conversation.go:185-198 | valid UTF-8 may be cut in front of any byte that starts a rune |
| Utf8.ValidIsEncoded | gateway/conversation.go:185-198 | valid text is the encoding of code points, as section 3 of RFC 3629 defines it |
| Utf8.EncodedIsValid | gateway/conversation.go:185-198 | and every encoding of code points is valid text |
| Conversation.ConversationChunks | gateway/conversation.go:122-160 | the loop yields the chunks of the displayed messages in order |
| Conversation.ChunksAreLossless | gateway/conversation.go:122-160 | putting continuations back yields every displayed message whole, in order, with its tool data |
| Conversation.MessageChunksAreFine | gateway/conversation.go:122-160 | each chunk is within the limit, non-empty where the message shows content, valid where the message is, and only the first carries tool data |
| Conversation.ContentIsValid | gateway/conversation.go:162-172 | the preview of long tool output is valid and short |
| Conversation.ContentIsShown | gateway/conversation.go:162-172 | content is shown whole, except that tool output longer than 4096 bytes is cut at the last rune start and marked |
| Conversation.DisplayedByRole | gateway/conversation.go:122-143 | users and assistants are shown when they say something or call a tool, tool results always, nobody else |
| Conversation.ShowsInOrder | gateway/conversation.go:122-160 | messages are shown in order: one more displayed message is one more item at the end, any other changes nothing |
| Conversation.ShownFields | gateway/conversation.go:133-156 | each with its own role, content, tool calls, call ID and error mark |
| Conversation.ConversationPage | gateway/conversation.go:66-106 | refuses exactly the limits outside 0..1000, otherwise the longest fitting page |
| Conversation.ProjectPage | gateway/conversation.go:83-104 | the page loop |
| Conversation.PageAdvances | gateway/conversation.go:83-104 | a page holds at least one item while any is left, and the next cursor moves on |
| Conversation.PageStops | gateway/conversation.go:83-100 | a page ends only at the last chunk, at the limit, or where the next item would exceed 4 MiB |
| Conversation.PagesCoverConversation | gateway/conversation.go:66-106 | following the next cursor from 0 with any limits gives the chunks in order, each once; it cannot go on for more pages than there are chunks, and when it ends every chunk was given |
| Conversation.ChunksGrow | gateway/conversation.go:122-160 | new messages leave the chunks already paged in place |
| Permission.MatchRunes | gateway/permission_plugin.go:165-186 | the two-row table is true exactly when the value splits into one piece per pattern rune |
| Permission.PermissionGlobMatch | gateway/permission_plugin.go:165-186 | the same after trimming and case folding |
| Permission.FoldingKeepsMeaning | gateway/permission_plugin.go:165-186 | folding first means case-insensitive equality of the written runes |
| Permission.StarRow | gateway/permission_plugin.go:172-176 | one table row for a star |
| Permission.RuneRow | gateway/permission_plugin.go:177-182 | one table row for any other rune |
| Permission.MatchingPermissionRule | gateway/permission_plugin.go:147-163 | the first rule that matches some candidate, non-empty exactly when one does |
| Permission.Handle | gateway/permission_plugin.go:58-89 | a matching deny rule blocks without asking; otherwise the first matching ask rule is shown and only the answer "allow" lets the call through |
| Permission.PrefixRule | gateway/permission_plugin.go:153-155 | a rule ending in `:*)` matches exactly the values that begin like the rest of it and end with a parenthesis |
| Permission.CandidatesOf | gateway/permission_plugin.go:120-130 | a named call is compared as its name and, with arguments, as name and arguments |
| Permission.CommandIsDenied | gateway/permission_plugin.go:58-73 | a deny rule that matches the command of a call blocks it |
| Permission.WildCards | gateway/permission_plugin.go:172-182 | a star matches everything, a question mark exactly one rune |
| Permission.PlainPattern | gateway/permission_plugin.go:177-182 | a pattern without wild cards matches exactly what reads the same up to case |
| Permission.ReplaceLeaves | gateway/permission_plugin.go:153-155 | a rule without the prefix mark is compared as written |
| Text.TrimSpaceMeans | gateway/permission_plugin.go:147-152 | trimming takes away nothing but white space at the two ends, and all of it |
| SessionGate.PerSessionExclusion | gateway/session_gate.go:22-71 | over all interleavings of lock, cancel and unlock: at most one holder per session, a guard is in the table exactly while in use, no send blocks, and a waiter without a holder can proceed |
| SessionGate.StepKeeps | gateway/session_gate.go:22-71 | every step keeps tokens plus holders at 1 and the count at the number of users |
| SessionGate.SessionGate.Retain | gateway/session_gate.go:45-56 | the object's table and guard change as specified; a new guard is fresh |
| SessionGate.SessionGate.Release | gateway/session_gate.go:58-71 | a foreign guard is left alone; the last reference deletes the guard |
| HostRegistry.CloseHandshake | gateway/runtime_host_slot.go:82-208 | over all interleavings: a reserved slot's `done` is closed exactly once, when its owner is gone; `closeDone` is closed once, exactly when close has begun and every reserved slot is completed; one thread at a time is inside a session; a bind fails only after close |
| HostRegistry.NothingAfterClose | gateway/runtime_host_slot.go:82-120 | once close has begun no reservation and no binding succeeds |
| HostRegistry.ReservationIsExact | gateway/runtime_host_slot.go:82-96 | in every reachable state a reservation is granted exactly when close has not begun and no thread is inside the session |
| HostRegistry.BindingStores | gateway/runtime_host_slot.go:98-120 | binding gives the slot its runtime and its execution, for a recovery the one it reserved with |
| HostRegistry.StepKeeps | gateway/runtime_backend.go:241-340 | every step of submissions, recoveries and close keeps the invariant |
| HostRegistry.CompleteKeeps | gateway/runtime_backend.go:679-743 | completion frees the session for the next reservation and closes the slot once |
| HostRegistry.ActiveHostRegistry.NewSlot | gateway/runtime_host_slot.go:69-80 | a fresh slot, reserved for nobody, leaves the registry as it was |
| HostRegistry.ActiveHostRegistry.Reserve | gateway/runtime_host_slot.go:82-96 | the object reserves or reports as specified |
| HostRegistry.ActiveHostRegistry.Bind | gateway/runtime_host_slot.go:98-120 | the object binds only the reserved slot |
| HostRegistry.ActiveHostRegistry.Complete | gateway/runtime_host_slot.go:191-208 | removal, closing and the idle check in one step |
| HostRegistry.ActiveHostRegistry.BeginClose | gateway/runtime_host_slot.go:163-179 | closes to newcomers and returns exactly the runtimes of the hosts present |

## Left out

- Transport, command line, bootstrap, logging and process management: no logic beyond field copying and I/O.
- The internals of etcd, SQL databases and the file system: statements and transactions are atomic, unique indexes hold, and revoking a lease deletes its attached keys together.
- Listing and polling on etcd (registry/etcd.go:430-716) and its watch events: the model covers the writing protocol.
- The agent runtime and operation workers: executions and operations are abstract records.
- Normalisation and validation of names, labels, URIs and requests: an `Option` or Boolean argument says whether a request was accepted.
- 64-bit wrap-around of the in-memory directory's revision and epoch counters; event, input and etcd counters are bounded as in the code.
- JSON: the event codec is any newline-free encoding whose decoding yields the compacted event, and sizes are any function; an encoding failure inside a page, which would end the page early, does not occur for stored events.
- Base64 encoding of the directory's page cursors.
- Waiting, notification channels and timers of `poll` and `Wait`: a blocked call is a step that is not enabled.
- Journal write or sync errors that do not end the process: a failed write is a crash.
- Pause and resume in the wake-up theorem: the flag is read outside the supervisor mutex, so the theorem covers a session that stays unpaused.
- Messages submitted directly, without the queue, in the exactly-once theorem: recovery cannot tell their executions apart.
- Sharing of slices between copies of an input stream or of messages: sequences are values here.
- A second call of the same unlock function, which the callers of the session lock never make.
- Cancel, read and context plans of a host slot: each is a case distinction on one slot.
- Invalid UTF-8 in permission patterns and tool names: strings are sequences of code points there; the argument summary is a parameter.
- Concatenation of a conversation page with the trajectory head and execution, which are copied.
- InputQueue.BindInput: the check of the execution name is a Boolean parameter, because name syntax is not modelled.
- JournalRecovery.RecoveryIsExact: payloads are compared after compaction, because the journal stores the compact form; `JournalExact` says exactly when they come back unchanged.
- RegistryLog.InvValidates: does not state that stored registrations are normalised, because name, label and URI syntax is not modelled.
- InputQueue.ValidateStream: does not check the names, content and times of single inputs, because their syntax is not modelled.
