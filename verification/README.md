# Models and proofs for the crash-safe controllers

This project models the parts of the repository that must stay correct while
processes die, commands fail without saying whether they acted, and other
writers share the same kernel tables. Five protocols are covered.

**The durable journal** (`ebpf-proxy/internal/tproxy`). A controller installs
eight kernel resources in order and removes them in reverse. Before each command
it saves an intent, after it a commit. The commands are the plan's argument lists:
`Tools.dfy` says what such a list asks the kernel to make, take away or look for,
`PlanMeaning.dfy` what the plan's own lists come to, and the kernel acts on that
meaning. The kernel is its three printed listings
plus the rules that an exact check finds; another writer may insert, change or
remove lines that no step claims, between any two steps and also between the two
observations of one check. Each command may succeed, fail with or without its
effect, or be the last thing the process does; each save likewise. A *tape*
supplies all these choices, and every theorem is for all tapes. The journal
functions are in `Journal.dfy`; `Controller.dfy` is the controller object with
its fields, proved equal to them method by method. `JournalSafety.dfy` and
`JournalRuns.dfy` prove safety over every run with crashes and reopenings,
`Recovery.dfy` proves that recovery finishes, `Installation.dfy` that installation
does. The classifiers that turn listing
lines into counters, residual and per-resource rows are `Resources.dfy`,
`Scoped.dfy`; their meaning, in terms of the words of a line alone, is
`Exactness.dfy` and `Footprint.dfy`; `Printing.dfy` shows that the
lines printed for the plan's own resources are recognised.

**Admission, handoff, broker, supervisor** (same package). `Handoff.dfy` is the
protocol between guard, anchor and paused command, with a crash step for everybody
and stray packets on the channel; `HandoffControl.dfy` is each party's code, whose
executions are runs of the protocol. `Broker.dfy` has the serial command registry, the broker loop
and the worker's client, each command being a run of the handoff protocol;
`Supervisor.dfy` the attempt loop and the marker file, on the journal's own kernel
and the broker's own registry, `SupervisorRuns.dfy` what it achieves undisturbed.
`Transaction.dfy` is the journal-less transaction.

**Capture routing** (`cmd/tun2proxy-web/routes.go`). `Routes.dfy`,
`RouteControl.dfy`, `RouteRuns.dfy`: the write-ahead undo log; `Packets.dfy`: what
the installed rules do to a packet.

**The CA overlay** (`cmd/tun2proxy-web`). `Naming.dfy` is collision-free naming,
`Trust.dfy` the mount stacks, `TrustControl.dfy` the code that changes them,
`TrustRuns.dfy` and `TrustChange.dfy` what holds of it.

**The flow map** (`ebpf-proxy`). `Flows.dfy` is the protocol between the connect
hook, the socket hook and the proxy's lookup, `FlowControl.dfy` the code,
`Capture.dfy` whose connections are captured, told from the events alone.

The shape is the same throughout. What one call does to the state is a function;
the code, with its loops and early returns, is a method proved to compute that
function; the guarantees are lemmas about the function over all inputs and runs.

## Promises kept only under a condition

* **Routes.** Cleanup is meant to remove the module's objects and nothing else.
  `startRoutes` looks whether its table and its chains are free, but reads a
  listing that fails as "free", and never looks for its policy rules. If one of
  the planned objects is already there, its creation is refused, and the failure
  cleanup runs the recorded undo against the object of somebody else: a route, a
  policy or an empty chain is deleted, a chain in use makes the cleanup fail for
  ever. `RouteRuns.ReversibleExactly` gives the exact condition on every network:
  a start can be undone from everywhere if and only if neither chain, none of
  the planned routes and none of the planned policies is there beforehand.
  `RouteRuns.ReversibleWhenAnsweredExactly` gives it for listings that answer.
  `RouteRuns.ForeignPolicyLost` and `RouteRuns.UnseenChainLost` are the smallest
  instances.
* **Certificates.** A rejected change should leave what applications see in
  agreement with the saved inventory. A change that leaves no certificate
  managed pops the layers and has no rollback. `TrustChange.FailsSafelyExactly`
  gives the exact condition: a change rejected without an incomplete rollback is
  harmless in every run if and only if it still manages some certificate, or
  every layer in every stack shows what is saved.
  `TrustChange.LastRemovalCanDisagree` is the smallest instance.
* **Flows.** If a kernel gave a tuple away before the TCP_CLOSE callback of its
  old client, a new client that was not redirected, or whose entry found no room,
  could be taken for the old one. `Flows.ReuseExactly` gives the exact condition;
  `Flows.PromptRunsAreClean` shows that a callback in time excludes it.
* **Handoff.** An error from `HandoffScoped` means that the command never runs,
  except for a call on a command that an earlier call has already handed off:
  that error says nothing about it.

## Model

| member | source | states |
|---|---|---|
| Text.ParseOfFormat | ebpf-proxy/internal/tproxy/scoped_linux.go:94-126 | a number printed by FormatUint, with or without the colon of a rule priority, parses back to itself |
| Text.SplitOfJoin | ebpf-proxy/internal/tproxy/witness_linux.go:80-174 | splitting joined lines gives the lines back, except that no lines become one empty line |
| Plan.Steps | ebpf-proxy/internal/tproxy/plan.go:25-53 | a list of exactly eight steps exactly when the configuration is valid, otherwise the validation error |
| PlanMeaning.PlanMeans | ebpf-proxy/internal/tproxy/plan.go:25-53 | for every valid plan and step: the meaning of its add command is to make the step's thing, of its remove command to take away that very thing, and of its exact check to ask for it; things are told by interpreting the argument list word by word |
| PlanMeaning.ThingsDiffer | ebpf-proxy/internal/tproxy/plan.go:25-53 | different steps of a valid plan concern different things |
| PlanMeaning.DisplayedAtPlace | ebpf-proxy/internal/tproxy/plan.go:25-53 | a line that displays the thing of a step in its listing is a line that the classifiers claim for that step, and no other |
| PlanMeaning.NeedsEarlier | ebpf-proxy/internal/tproxy/plan.go:25-53 | every chain that a step's rule stands in or jumps to is made by an earlier step, so every prefix of the plan is complete in itself and removals from its end orphan nothing |
| Plan.ChainNames | ebpf-proxy/internal/tproxy/plan.go:25-53 | the two chains of a valid prefix differ from each other and from the built-in ones |
| Observation.EntriesSplit | ebpf-proxy/internal/tproxy/witness_linux.go:80-174 | the lines already visited and the lines to come are all lines, at every output |
| Observation.CountsMatchOnce | ebpf-proxy/internal/tproxy/witness_linux.go:176-187 | one set of counters matches at most one number of owned steps |
| Resources.FindJump | ebpf-proxy/internal/tproxy/witness_linux.go:80-174 | the field loop finds a jump exactly when some option names the target |
| Resources.ScanRouteOptions | ebpf-proxy/internal/tproxy/witness_linux.go:80-174 | the option loop over a route computes both its table and its validity |
| Resources.JudgeLine | ebpf-proxy/internal/tproxy/witness_linux.go:80-174 | the branches of the loop body give the verdict of the specification, error for error |
| Exactness.JudgeExactly | ebpf-proxy/internal/tproxy/witness_linux.go:80-174 | a line counts as the plan's step i if and only if its words are those of that resource: for the policy the seven words with the mark option reading as exactly the plan's mark and mask, for the route the planned address and table on lo with host scope and boot or static protocol only, for chains and rules the chain, the target and the exact check; another owner's or a modified resource at a planned place is refused |
| Exactness.PassedOverExactly | ebpf-proxy/internal/tproxy/scoped_linux.go:30-168 | the scoped classifier passes a line over if and only if its words keep clear of every reserved chain, table, address and priority |
| Exactness.OwnRowExactly | ebpf-proxy/internal/tproxy/scoped_linux.go:30-168 | it puts a planned line into the row of its own step if and only if the line names no other reserved resource besides (and, for the route, only one was counted) |
| Resources.CountLines | ebpf-proxy/internal/tproxy/witness_linux.go:80-174 | the inner loop continues the counting of all lines before it and retains exactly the unclaimed ones in order |
| Resources.ClassifyResourcesByLine | ebpf-proxy/internal/tproxy/witness_linux.go:80-174 | the two nested loops compute the strict classification, including which error comes first |
| Resources.FirstErrorStands | ebpf-proxy/internal/tproxy/witness_linux.go:80-174 | no later line changes the first error |
| Resources.CountsAreClaims | ebpf-proxy/internal/tproxy/witness_linux.go:80-174 | classification succeeds if and only if every claiming line is exact and no step is claimed twice, and then each counter is the number of lines that claim its step |
| Resources.EveryLineAccounted | ebpf-proxy/internal/tproxy/witness_linux.go:80-174 | every line is counted for exactly one step or retained, never both and never lost |
| Resources.ResidualText | ebpf-proxy/internal/tproxy/witness_linux.go:80-174 | the residual of a printed list is the join of its unclaimed lines, also when that list is empty |
| Resources.ResidualIgnoresPlannedLine | ebpf-proxy/internal/tproxy/witness_linux.go:80-174 | adding or taking away one planned line anywhere leaves the residual text identical, so the strict pending proof holds for both outcomes |
| Scoped.FirewallLine | ebpf-proxy/internal/tproxy/scoped_linux.go:30-168 | the field loop over a firewall line gives the row or the conflict of the specification |
| Scoped.PolicyLine | ebpf-proxy/internal/tproxy/scoped_linux.go:30-168 | the field loop over a policy rule gives the row or the conflict, with unresolved aliases refused |
| Scoped.RouteLine | ebpf-proxy/internal/tproxy/scoped_linux.go:30-168 | the option loop over a route gives the row or the conflict |
| Scoped.RowsOf | ebpf-proxy/internal/tproxy/scoped_linux.go:30-168 | the loop over all lines fills the eight rows in order or returns the first conflict |
| Scoped.ClassifyScopedByLine | ebpf-proxy/internal/tproxy/scoped_linux.go:30-168 | the scoped classification: strict counters first, then rows, then their agreement |
| Scoped.FirstConflictStands | ebpf-proxy/internal/tproxy/scoped_linux.go:30-168 | no later line changes the first conflict |
| Footprints.JumpScanMeaning | ebpf-proxy/internal/tproxy/scoped_linux.go:30-168 | a jump to a reserved chain is accepted only from its own built-in chain and then decides the row; in any other chain the loop keeps the row it was given |
| Footprints.FirewallAgreement | ebpf-proxy/internal/tproxy/scoped_linux.go:30-168 | the scoped and the strict classifier put a firewall line at the same step whenever neither refuses it |
| Footprints.RowsCoverClaims | ebpf-proxy/internal/tproxy/scoped_linux.go:30-168 | when the rows are accepted each holds at least as many lines as claim its step, and if all hold exactly as many then both classifiers put every single line at the same step |
| Footprints.ClassifyExact | ebpf-proxy/internal/tproxy/scoped_linux.go:30-168 | success if and only if, in words of the lines alone, every line at a planned place is that planned resource unmodified and names nothing else that is reserved, every other line keeps clear of the footprint, and no place is taken twice; then counters and rows are exactly those lines |
| Footprints.StrictExact | ebpf-proxy/internal/tproxy/witness_linux.go:80-174 | the same equivalence for the strict classifier: it succeeds if and only if every line at a planned place is that planned resource unmodified and no place is taken twice |
| Footprints.ClassifyClean | ebpf-proxy/internal/tproxy/scoped_linux.go:30-168 | success if and only if both classifiers agree on every line, and then the digest is of exactly the claimed lines |
| Footprints.OnlyTouchingLinesMatter | ebpf-proxy/internal/tproxy/scoped_linux.go:30-168 | counters and rows depend only on the lines that touch the reserved footprint |
| Footprints.DisjointLinesAreIgnored | ebpf-proxy/internal/tproxy/scoped_linux.go:30-168 | frame: outputs that differ in any number of disjoint lines at any positions classify identically, error or witness |
| KernelState.InsertedLinesAreIgnored | ebpf-proxy/internal/tproxy/scoped_linux.go:30-168 | the same for printed listings: any disjoint lines inserted anywhere in any of the three leave error or witness as they are |
| Footprints.ExclusionPinsOneStep | ebpf-proxy/internal/tproxy/scoped_linux.go:21-28 | two prefix-shaped observations equal outside resource i have the same length or lengths i and i+1, and equal bodies at the other seven |
| KernelState.ListedClaims | ebpf-proxy/internal/tproxy/witness_linux.go:20-44 | what a step claims in the listings is what it claims in the kernel |
| KernelState.AddedClaims | ebpf-proxy/internal/tproxy/journal_linux.go:314-378 | an added line, at any position, is claimed by its step alone and leaves all foreign lines and the other steps' lines as they were |
| KernelState.RemovedClaims | ebpf-proxy/internal/tproxy/journal_linux.go:314-378 | a removal takes exactly one of its step's lines away and leaves every other line as it was |
| KernelState.PlanRuns | ebpf-proxy/internal/tproxy/journal_linux.go:340-360 | for every step: running the plan's add command puts in exactly that step's line, or is refused where a chain, route or policy of that kind is there already; running its remove command takes exactly one such line away, or is refused if there is none; its exact check answers whether the rule is there |
| KernelState.MakeThenTake | ebpf-proxy/internal/tproxy/plan.go:25-53 | on a kernel without the step's thing, the add command followed by the remove command gives back the very kernel there was |
| Printing.FieldsOfJoin | ebpf-proxy/internal/tproxy/scoped_linux.go:30-168 | the words of a printed line are recovered by splitting it into fields |
| Printing.EveryStepRenders | ebpf-proxy/internal/tproxy/plan.go:25-53 | for every valid plan the printed line of each of the eight steps is recognised by both classifiers as exactly that step |
| Printing.StepLineDisplays | ebpf-proxy/internal/tproxy/plan.go:25-53 | the printed line of step i displays the thing of step j if and only if i is j |
| JournalSafety.ClassifiedKernel | ebpf-proxy/internal/tproxy/scoped_linux.go:170-208 | a successful scoped classification of the listings describes the kernel: counters, rows and digest |
| JournalSafety.ObserveScopedSound | ebpf-proxy/internal/tproxy/scoped_linux.go:170-208 | two agreeing observations report the footprint as it is, although foreign lines may have changed in between |
| JournalSafety.ConfirmedExactly | ebpf-proxy/internal/tproxy/scoped_linux.go:174-208 | for any two passes, whatever happened between them: the second is accepted if and only if it is clean itself and shows every step the very lines of the first |
| JournalSafety.RepeatedExactly | ebpf-proxy/internal/tproxy/witness_linux.go:46-78 | in a strict namespace what was classified counts if and only if the second listing is the first, word for word |
| JournalSafety.SnapshotSound | ebpf-proxy/internal/tproxy/journal_linux.go:219-228 | a snapshot taken for n owned steps is the kernel's, and in scoped mode proves that exactly the first n steps are present |
| JournalSafety.WitnessSound | ebpf-proxy/internal/tproxy/journal_linux.go:230-236 | the witness is the kernel's counters and its digest without the pending resource, in both modes |
| JournalSafety.ShapeOnce | ebpf-proxy/internal/tproxy/witness_linux.go:176-187 | a kernel holds at most one prefix of the plan |
| JournalSafety.SafeRecordDecodes | ebpf-proxy/internal/tproxy/journal.go:29-69 | every record that the controller can have saved is accepted unchanged by the decoder of the same mode |
| JournalRuns.DecodeExactly | ebpf-proxy/internal/tproxy/journal.go:29-69 | a record is accepted if and only if it is this site's (mode, namespace, boot, plan), names a prefix of the plan that its intent leads from and to, and carries its digests, a proof only with an intent |
| JournalRuns.RecordBelongsToOneSite | ebpf-proxy/internal/tproxy/journal.go:29-69 | after any run what the journal holds is opened by a controller of the same mode, namespace, boot and plan and by no other |
| JournalSafety.RunSafe | ebpf-proxy/internal/tproxy/journal_linux.go:340-360 | whatever one planned command does and however it ends, the kernel matches the recorded intent |
| JournalSafety.ChangeSafe | ebpf-proxy/internal/tproxy/journal_linux.go:314-378 | every exit of change leaves record, file and kernel in step; it issues at most the one intended command, and success has issued it and saved the new record |
| JournalRuns.SetupSafe | ebpf-proxy/internal/tproxy/journal_linux.go:238-312 | every exit of Setup, from the baseline on, is safe; what it issues is an initial piece of the adds in plan order; success owns all eight |
| JournalRuns.RemoveAllSafe | ebpf-proxy/internal/tproxy/journal_linux.go:383-403 | the removal loop keeps the state safe at every exit and issues its removals in strictly descending plan order |
| JournalRuns.ReconcileSafe | ebpf-proxy/internal/tproxy/journal_linux.go:408-443 | every exit of reconcile is safe and issues no command |
| JournalRuns.RecoverSafe | ebpf-proxy/internal/tproxy/journal_linux.go:383-403 | every exit of Recover is safe, and success owns nothing and has nothing pending |
| JournalRuns.CleanupEmpties | ebpf-proxy/internal/tproxy/supervisor_linux.go:47-67 | a cleanup that reports success has left none of the planned resources, from any safe world |
| JournalRuns.EveryRunSafe | ebpf-proxy/internal/tproxy/journal_linux.go:60-455 | safety of record, file and kernel over every sequence of open, Setup, Recover, ResolvePending, close and crash |
| JournalRuns.WriteAhead | ebpf-proxy/internal/tproxy/journal_linux.go:167-455 | in every run the planned resources form a prefix of the plan, of length Owned without an intent, Owned or Owned+1 for a pending add, Owned or Owned-1 for a pending remove, and the saved record is accepted unchanged |
| JournalRuns.CheckNeeds | ebpf-proxy/internal/tproxy/journal_linux.go:202-217 | check succeeds only with no intent pending and the journaled view still in the kernel, and touches nothing |
| JournalRuns.ChangeNeedsFootprint | ebpf-proxy/internal/tproxy/journal_linux.go:314-328 | change issues a command only if the kernel holds exactly the journaled prefix and snapshot; otherwise nothing is issued |
| JournalRuns.SetupNeedsEmptyFootprint | ebpf-proxy/internal/tproxy/journal_linux.go:238-268 | Setup issues a command only if none of the eight resources is there |
| JournalRuns.RecoverNeedsPrefix | ebpf-proxy/internal/tproxy/journal_linux.go:383-403 | Recover issues a removal only if the journaled prefix, or the two outcomes of its intent, is what the kernel holds |
| JournalRuns.ReconcileExact | ebpf-proxy/internal/tproxy/journal_linux.go:408-443 | reconcile issues nothing, and succeeds only if everything but the pending step is as at intent time and the new Owned is the kernel's prefix; a failure leaves the record alone |
| Recovery.CleanKernel | ebpf-proxy/internal/tproxy/scoped_linux.go:30-168 | a kernel that holds a prefix of the plan and otherwise disjoint lines is accepted by the scoped classifier |
| Recovery.ChangeCompletes | ebpf-proxy/internal/tproxy/journal_linux.go:314-378 | in calm surroundings both an addition and a removal go through and leave the foreign lines alone |
| Recovery.RemoveAllCompletes | ebpf-proxy/internal/tproxy/journal_linux.go:383-403 | in calm surroundings the removal loop ends with nothing owned |
| Recovery.ReconcileCompletes | ebpf-proxy/internal/tproxy/journal_linux.go:408-443 | in calm surroundings every pending record is resolved, whichever way its command went |
| Recovery.RecoveryCompletes | ebpf-proxy/internal/tproxy/guardian_linux.go:72-88 | resolve then recover succeed, own nothing, leave none of the eight resources, issue exactly the present steps in descending order, and keep every foreign line |
| Recovery.EveryCrashRecovers | ebpf-proxy/internal/tproxy/guardian_linux.go:72-88 | from the end of any run, with a death anywhere, reopening and recovering leaves no planned resource, has removed exactly the steps that were there in descending order, and keeps every foreign line |
| Recovery.CleanupCompletes | ebpf-proxy/internal/tproxy/supervisor_linux.go:47-67 | the cleanup of any safe world in calm surroundings succeeds and leaves nothing planned |
| Installation.SetupCompletes | ebpf-proxy/internal/tproxy/journal_linux.go:238-312 | from nothing owned, in calm surroundings, in either mode, Setup succeeds, owns and has installed all eight, has issued exactly the eight adds in order, and keeps every foreign line if other writers are still |
| Installation.FreshSetupCompletes | ebpf-proxy/internal/tproxy/journal_linux.go:60-312 | the same from a journal that does not exist yet |
| Installation.SetupThenRecover | ebpf-proxy/internal/tproxy/journal_linux.go:238-403 | Setup followed by Recover ends with nothing planned and every foreign line as it was |
| Installation.SetupCanComplete | ebpf-proxy/internal/tproxy/journal_linux.go:238-312 | every fresh world has a concrete course of events in which Setup completes: calm surroundings are not contradictory |
| Installation.FreshExactly | ebpf-proxy/internal/tproxy/journal_linux.go:250-262 | the strict admission test, on printed listings: it passes if and only if no line declares a chain or a rule, every policy rule is a default one and every route is a loopback one |
| Installation.StrictSetupNeedsFresh | ebpf-proxy/internal/tproxy/journal_linux.go:238-312 | in strict mode Setup issues a command only in a namespace that passes this test |
| Controller.DurableIsolated.constructor | ebpf-proxy/internal/tproxy/journal_linux.go:60-139 | a controller starts from exactly the decoded record |
| Controller.DurableIsolated.Save | ebpf-proxy/internal/tproxy/journal_linux.go:167-200 | replaces the file by the record in memory, or not, with the outcome the tape gives |
| Controller.DurableIsolated.Check | ebpf-proxy/internal/tproxy/journal_linux.go:202-217 | the code of check is the journal model's Check |
| Controller.DurableIsolated.ObserveScoped | ebpf-proxy/internal/tproxy/scoped_linux.go:174-208 | two passes and their comparison are the model's ObserveScoped |
| Controller.DurableIsolated.ObserveResources | ebpf-proxy/internal/tproxy/witness_linux.go:46-78 | classify and look again is the model's ObserveResources |
| Controller.DurableIsolated.Snapshot | ebpf-proxy/internal/tproxy/journal_linux.go:219-228 | the code of snapshot is the model's Snapshot |
| Controller.DurableIsolated.Witness | ebpf-proxy/internal/tproxy/journal_linux.go:230-236 | the code of witness is the model's Witness |
| Controller.DurableIsolated.Change | ebpf-proxy/internal/tproxy/journal_linux.go:314-378 | updating and rolling back the record in place gives exactly the state of the model's Change at every exit |
| Controller.DurableIsolated.Setup | ebpf-proxy/internal/tproxy/journal_linux.go:238-312 | checks, baseline and add loop give the model's Setup at every exit, including the snapshot that a failing strict listing blanks in memory |
| Controller.DurableIsolated.Reconcile | ebpf-proxy/internal/tproxy/journal_linux.go:408-443 | the code of reconcile is the model's Reconcile |
| Controller.DurableIsolated.ResolvePending | ebpf-proxy/internal/tproxy/journal_linux.go:445-455 | the code of ResolvePending is the model's Resolve |
| Controller.DurableIsolated.Recover | ebpf-proxy/internal/tproxy/journal_linux.go:383-403 | resolve, check and the removal loop give the model's Recover |
| Transactions.Transaction.SetupAll | ebpf-proxy/internal/tproxy/transaction.go:45-66 | the add loop with its partial rollback gives the model's Setup |
| Transactions.Transaction.TeardownAll | ebpf-proxy/internal/tproxy/transaction.go:68-86 | the removal loop, stopping at its first failure, gives the model's Teardown |
| Transactions.EveryRunOrdered | ebpf-proxy/internal/tproxy/transaction.go:45-86 | over any calls and failures successful commands obey a stack discipline and the live resources are exactly the first done steps |
| Transactions.StoppingBlocksSetup | ebpf-proxy/internal/tproxy/transaction.go:45-86 | after a failed removal no number of Setup calls runs any command |
| Transactions.TeardownCompletes | ebpf-proxy/internal/tproxy/transaction.go:74-86 | with succeeding commands teardown empties any state by removing exactly what is there, last one first |
| Transactions.SetupCompletes | ebpf-proxy/internal/tproxy/transaction.go:45-66 | with nothing set up and every command obeyed all steps are added, in order |
| Transactions.FailedSetupUndone | ebpf-proxy/internal/tproxy/transaction.go:45-86 | when the command of step k fails exactly the steps before it are removed again, last one first, and nothing is left |
| Transactions.SetupTwice | ebpf-proxy/internal/tproxy/transaction.go:45-66 | a Setup after a successful one succeeds and runs nothing |
| Handoff.ExecutionNeedsHandoff | ebpf-proxy/internal/tproxy/command_handoff_linux.go:283-432 | in every interleaving, with arbitrary stray packets on the channel, a released or executing command implies: worker, guard and command were distinct, in the expected roles and all alive when the anchor took its witness; the bindings are equal; the packet the guard went on after is this handoff's acknowledgement; the one the anchor went on after is its confirmation |
| Handoff.ErrorMeansNoExecution | ebpf-proxy/internal/tproxy/command_handoff_linux.go:371-432 | once HandoffScoped has returned an error the command has not run and never will, whatever follows |
| Handoff.ErrorKills | ebpf-proxy/internal/tproxy/command_handoff_linux.go:371-432 | in every run a guard that has returned an error has killed its command |
| Handoff.LostAnchorMeansNoExecution | ebpf-proxy/internal/tproxy/command_admission_linux.go:31-80 | an anchor gone before release means the paused command never executes |
| Handoff.RecoveryNeverOverlaps | ebpf-proxy/internal/tproxy/command_witness_linux.go:137-180 | no recovery mutation happens while worker, guard or command lives, and the journal is open only after all three exits |
| Handoff.QuiescentMeansExited | ebpf-proxy/internal/tproxy/registered_command_linux.go:358-422 | a session reported quiescent has no live guard, anchor or command, then or ever after |
| Handoff.QuiescentNeedsReport | ebpf-proxy/internal/tproxy/registered_command_linux.go:105-184 | a session passes for quiescent only after its anchor saw guard and command gone and could say so, or finished a recovery that was clean |
| Handoff.EveryRunEarns | ebpf-proxy/internal/tproxy/command_handoff_linux.go:262-355 | in every interleaving the anchor holds or releases only after it accepted with its binding unchanged, recovers only after finding the binding unchanged again, and the gate was released at a moment when the stub was still waiting at it and the confirmation had been read |
| Handoff.OrphanStubEnds | ebpf-proxy/internal/tproxy/command_admission_linux.go:31-80 | a stub whose anchor is gone without releasing, and whose guard is gone or has let go, finds its gate closed and exits |
| Handoff.HandoffCompletes | ebpf-proxy/internal/tproxy/command_handoff_linux.go:283-432 | with matching roles and bindings the handshake reaches execution with nobody left holding the gate |
| HandoffControl.Command.HandoffScoped | ebpf-proxy/internal/tproxy/command_handoff_linux.go:371-432 | the guard's code, polling and interrupted anywhere by the others, is a run of the protocol with exactly the specified outcome; an error return means the command has not been released and does not run; a call after the first is refused and changes nothing |
| HandoffControl.Command.AcceptCommand | ebpf-proxy/internal/tproxy/command_handoff_linux.go:283-355 | the anchor's code, polling for both packets, is a run of the protocol with exactly the specified outcome; success means it watches a released command with its witness held, failure a blocked report and an ended anchor; a second call changes nothing |
| HandoffControl.Command.AwaitGate | ebpf-proxy/internal/tproxy/command_admission_linux.go:31-80 | the stub executes if and only if it still waits when the byte is on its gate, which takes the complete handshake |
| HandoffControl.Command.Watch | ebpf-proxy/internal/tproxy/registered_command_linux.go:105-184 | the polling loop is a run of the protocol with exactly the specified outcome; no mutation overlaps, and quiescence is reported only after guard and command exited |
| HandoffControl.Command.Recover | ebpf-proxy/internal/tproxy/command_witness_linux.go:137-180 | three exits are observed one by one before the journal is opened and mutated, with exactly the specified outcome |
| HandoffControl.OthersKeepAnchor | ebpf-proxy/internal/tproxy/command_handoff_linux.go:283-355 | nothing the other parties or stray packets do moves a running anchor or its witness |
| HandoffControl.BothSucceed | ebpf-proxy/internal/tproxy/command_handoff_linux.go:283-432 | with matching roles and bindings both calls succeed against each other and the released command executes |
| HandoffControl.QuietCompletes | ebpf-proxy/internal/tproxy/registered_command_linux.go:137-184 | when guard and command exit while the worker lives the session ends quiescent without any mutation, whatever the others do |
| HandoffControl.RecoveryCompletes | ebpf-proxy/internal/tproxy/registered_command_linux.go:137-160 | when the worker is lost and guard and command follow, in any interleaving, every mutation of the recovery is made and a clean recovery reported |
| Broker.BrokerAllowed | ebpf-proxy/internal/tproxy/worker_broker_linux.go:125-151 | the loops accept exactly the observations and the add, remove and check forms of planned steps |
| Broker.AllowedMeans | ebpf-proxy/internal/tproxy/worker_broker_linux.go:125-151 | an allowed command only looks, or makes, takes away or asks for one of the plan's own things |
| Broker.ControllerAllowed | ebpf-proxy/internal/tproxy/worker_broker_linux.go:125-151 | both commands of every step and its exact check are allowed |
| Broker.FirstDeleteToCheck | ebpf-proxy/internal/tproxy/worker_broker_linux.go:125-151 | the loop turns the first delete option into a check and nothing else |
| Broker.WorkerCommandRegistry.ReserveId | ebpf-proxy/internal/tproxy/worker_broker_linux.go:48-56 | reserving takes exactly the next id of an idle, open registry, and blocks otherwise |
| Broker.WorkerCommandRegistry.FinishCommand | ebpf-proxy/internal/tproxy/worker_broker_linux.go:57-65 | finishing one command updates counters and stickiness as the specification says |
| Broker.ServeWorker | ebpf-proxy/internal/tproxy/worker_broker_linux.go:224-299 | the receive loop is the specification's loop for every sequence of packets |
| Broker.CleanGateMeansExited | ebpf-proxy/internal/tproxy/worker_broker_linux.go:48-299 | only planned commands are launched, ids are exactly 1..Requested, the gate is clean if and only if the registry was never blocked, and then guard, anchor and process of every command launched are gone for good, each launch being a run of the handoff protocol |
| Broker.StartedWereAskedFor | ebpf-proxy/internal/tproxy/worker_broker_linux.go:224-299 | every command launched was asked for by a well-formed request made with the journal's own lock while the binding held, with the same id and arguments |
| Broker.RegistryTruthful | ebpf-proxy/internal/tproxy/worker_broker_linux.go:48-299 | over every run the completed commands are exactly those that ended quietly, every reply is the output of such a command and was sent, and the gate is not clean before the loop has been left |
| Broker.ServedAll | ebpf-proxy/internal/tproxy/worker_broker_linux.go:224-299 | any run of proper requests for allowed commands with ids 1, 2, ... that end quietly and are answered is served to the end, each with the output of its own command, and leaves a clean gate |
| Broker.QuietIsGone | ebpf-proxy/internal/tproxy/registered_command_linux.go:358-422 | a launch whose session ended quiescent has no live process, now or after anything that follows |
| Broker.AcceptedOutputsAreOwn | ebpf-proxy/internal/tproxy/worker_broker_linux.go:157-204 | end to end the n-th output a worker accepts belongs to the n-th command launched, for the arguments of its own n-th call |
| Broker.AcceptedWereQuiet | ebpf-proxy/internal/tproxy/worker_broker_linux.go:157-204 | every output a worker accepts came in a quiet response of the right version with the call's own number and arguments |
| Broker.WorkerGetsAll | ebpf-proxy/internal/tproxy/worker_broker_linux.go:157-299 | round trip: over an undisturbed channel the worker accepts the output of every command it asked for, in order |
| Supervisor.AttemptOnce | ebpf-proxy/internal/tproxy/worker_broker_linux.go:308-478 | the body of the attempt loop gives the specified result, observations, world and decision to go on |
| Supervisor.Supervise | ebpf-proxy/internal/tproxy/worker_broker_linux.go:308-478 | the attempt loop with its early returns is the specified run |
| Supervisor.SessionLegal | ebpf-proxy/internal/tproxy/worker_broker_linux.go:308-478 | what one run does and observes is legal: each observed value decides whether it may go on; at most MaxRestarts+1 attempts; a clean result has cleared the marker |
| Supervisor.EveryHistoryOrderly | ebpf-proxy/internal/tproxy/worker_broker_linux.go:308-478 | over any number of launcher runs, each killed anywhere, with any journal use by workers and any packets to brokers, the history stays legal and its marker tells the truth |
| Supervisor.LaunchesAreSeparated | ebpf-proxy/internal/tproxy/worker_broker_linux.go:308-478 | between two launches the first worker was reaped, its broker's gate was clean with every process of every command gone for good, the binding read equal to the run's, and the cleanup successful, in this order, behind the run's own marker; and the second launch finds a kernel with none of the planned resources |
| Supervisor.RoundLegal | ebpf-proxy/internal/tproxy/worker_broker_linux.go:308-478 | one turn of the loop goes on only from a reaped worker, a clean gate with all commands gone, an unchanged binding and a cleanup that emptied the kernel |
| Supervisor.RoundVerdict | ebpf-proxy/internal/tproxy/worker_broker_linux.go:380-478 | what one turn decides, from the facts it observed: completed exactly for a clean attempt that was ready and reaped with code 0, another turn exactly after a clean unfinished one below the budget and not cancelled |
| Supervisor.VerdictExactly | ebpf-proxy/internal/tproxy/worker_broker_linux.go:308-478 | over every run: completion exactly if the last worker was ready, exited with 0 and left everything clean; a stop exactly if the run found itself cancelled; exhaustion exactly after MaxRestarts+1 clean unfinished attempts; a further attempt after exactly those |
| SupervisorRuns.SessionCompletes | ebpf-proxy/internal/tproxy/worker_broker_linux.go:308-478 | an idle journal, no marker, and workers of which the first to succeed is within the budget: the run completes with exactly that attempt |
| Supervisor.FactoryNeedsOwnMarker | ebpf-proxy/internal/tproxy/worker_broker_linux.go:308-478 | every factory call is made by a run that set the marker itself, so a run that finds an unresolved marker calls nothing |
| Supervisor.SessionNeedsIdle | ebpf-proxy/internal/tproxy/worker_broker_linux.go:308-378 | a run sets its marker only if no marker is there and the journal opens with nothing owned and nothing pending |
| Supervisor.AttemptIsHonest | ebpf-proxy/internal/tproxy/supervisor_linux.go:183-305 | exactly when a worker is launched and when it is served; a launch failed if and only if no worker was started; a served worker's exit is reported if and only if it went by itself or in time after a request or a kill, any other's only if it was reaped; readiness only for a served one; the request and the kill are made exactly when due |
| Routes.ProgramSound | cmd/tun2proxy-web/routes.go:262-337 | in the whole start program every mutation has its undo recorded before it, and a chain's deletion is recorded before its flush and its jumps |
| Routes.RunActsCovered | cmd/tun2proxy-web/routes.go:262-336 | wherever the program stops, the undo log on disk covers everything it put into the kernel |
| Routes.UndoWorks | cmd/tun2proxy-web/routes.go:136-153 | replayed in reverse each undo either is accepted or finds its object absent, so chains are empty and unreferenced when their turn comes |
| Routes.UndoCompletes | cmd/tun2proxy-web/routes.go:136-153 | a replay in which no command fails ends with every recorded object gone |
| Routes.CleanupCompletes | cmd/tun2proxy-web/routes.go:136-153 | such a cleanup removes the log, all chains and jumps, and of the foreign routes and policies exactly the ones the log names |
| Routes.CleanupSafe | cmd/tun2proxy-web/routes.go:136-153 | a cleanup that fails or dies anywhere keeps the log and its coverage |
| RouteControl.RouteModule.CleanupRoutes | cmd/tun2proxy-web/routes.go:136-153 | the reverse loop, its absence test and the final removal give the specified cleanup |
| RouteControl.RouteModule.Add | cmd/tun2proxy-web/routes.go:262-269 | records the undo, then acts, as one step of the program |
| RouteControl.RouteModule.InstallBypasses | cmd/tun2proxy-web/routes.go:293-317 | the bypass loop with its duplicate check runs the specified commands |
| RouteControl.RouteModule.InstallRanges | cmd/tun2proxy-web/routes.go:318-337 | the nested range loop runs the specified commands |
| RouteControl.RouteModule.StartRoutes | cmd/tun2proxy-web/routes.go:177-354 | old cleanup, configuration outcome, free checks, log, program and failure cleanup give the specified start |
| RouteRuns.EveryHistoryCovered | cmd/tun2proxy-web/routes.go:136-354 | through any starts, cleanups, failures and crashes on a network with any foreign routes and policies the log covers the kernel and every foreign route and policy is still there, if no start plans one of them |
| RouteRuns.EveryHistoryCleans | cmd/tun2proxy-web/routes.go:136-354 | after any such history one undisturbed cleanup restores the foreign network exactly |
| RouteRuns.UndisturbedStart | cmd/tun2proxy-web/routes.go:243-354 | an undisturbed start installs exactly the planned rules in their order, or fails on a policy that is already there and deletes it |
| Packets.InstalledKeepsPromise | cmd/tun2proxy-web/routes.go:262-337 | what the installed chains, policies and routes do to any packet, read first match first: of the chosen users, IPv6 is refused except to the loopback address, bypassed networks are left alone, UDP other than DNS is refused and the rest goes into the tunnel; of all others nothing is touched |
| Packets.StartKeepsPromise | cmd/tun2proxy-web/routes.go:177-354 | and an undisturbed start on a network without these objects does just that |
| RouteRuns.ReversibleExactly | cmd/tun2proxy-web/routes.go:243-354 | on every network, with any chains, jumps, routes and policies of others: a start is reversible in every run if and only if neither chain is there, none of its planned routes is in the table and none of its planned policies is in force |
| RouteRuns.ReversibleWhenAnsweredExactly | cmd/tun2proxy-web/routes.go:243-354 | in the runs whose three listings answer: if and only if the table or a chain is shown to be taken, or none of the planned policies is in force |
| RouteRuns.UnseenChainLost | cmd/tun2proxy-web/routes.go:243-252 | a concrete start that misses an existing chain because its listing failed, and can never be undone |
| RouteRuns.ForeignPolicyLost | cmd/tun2proxy-web/routes.go:243-337 | a concrete start that deletes another owner's policy |
| RouteRuns.TakenFootprintRefused | cmd/tun2proxy-web/routes.go:243-252 | a start to which any one of its three listings shows the table or a chain in use changes nothing |
| Naming.Pigeonhole | cmd/tun2proxy-web/certificate/certificate.go:135-151 | a finite name map cannot hold more numbered names than entries |
| Naming.AllocateName | cmd/tun2proxy-web/certificate/certificate.go:135-151 | terminates on every map and every order of visiting it, with a name that holds this certificate, or else the first free numbered name |
| Naming.Prepare | cmd/tun2proxy-web/cert_mount.go:278-306 | the naming loop keeps every baseline entry and adds every managed certificate under its own name, and nothing else, in whatever order the names are visited |
| Naming.CanName | cmd/tun2proxy-web/cert_mount.go:278-306 | the naming loop ends with names for every list of certificates on every baseline |
| Naming.NamesDistinct | cmd/tun2proxy-web/cert_mount.go:278-306 | different certificates get different names, and a baseline name is reused only for the certificate it held |
| TrustRuns.PlanTrustPlans | cmd/tun2proxy-web/cert_mount.go:226-329 | planning mounts nothing and on success has one fresh generation per target, its directory made by the naming loop, and one mount per namespace and target |
| TrustRuns.InstallBetween | cmd/tun2proxy-web/cert_mount.go:404-432 | while mounting each stack is as before or carries the planned layer, and success means all carry it |
| TrustRuns.RollbackRestores | cmd/tun2proxy-web/cert_mount.go:391-403 | a rollback pops only layers of this apply, and unless it reports incompleteness every stack is as before |
| TrustRuns.RollbackCompletes | cmd/tun2proxy-web/cert_mount.go:391-403 | when no unmount fails the rollback is complete |
| TrustRuns.ApplyAllOrNothing | cmd/tun2proxy-web/cert_mount.go:370-433 | success puts one fresh verified generation on every stack; a failure without an incomplete rollback leaves every stack, and if it could be saved the mount record, exactly as before |
| TrustChange.BlockedSpotRefused | cmd/tun2proxy-web/cert_mount.go:226-262 | if any target lies under a foreign mount or has no room left nothing is mounted anywhere |
| TrustChange.PlanNeedsRegular | cmd/tun2proxy-web/cert_mount.go:226-329 | planning succeeds only for valid certificates on stores of regular files alone |
| TrustChange.InstallNeedsAnswers | cmd/tun2proxy-web/cert_mount.go:404-432 | from any world, an installation passes for done only if every command, a verification of every mount and a probe of every managed certificate succeeded, and then every mount is on top and shows each of its certificates under its name |
| TrustRuns.RemoveTrims | cmd/tun2proxy-web/cert_mount.go:351-369 | removal takes only the module's own top layers whatever fails, and on success leaves none in sight |
| TrustRuns.ApplyShows | cmd/tun2proxy-web/cert_mount.go:370-433 | a successful apply shows the original store plus exactly the managed certificates everywhere |
| TrustRuns.RemoveShowsOriginal | cmd/tun2proxy-web/cert_mount.go:351-369 | a successful removal shows the original store |
| TrustRuns.EveryHistoryHealthy | cmd/tun2proxy-web/cert_mount.go:226-433 | through every history with any failures and crashes each generation's baseline is the original store and no stack exceeds 32 layers |
| TrustControl.TrustManager.Plan | cmd/tun2proxy-web/cert_mount.go:226-329 | the nested loops with their cache and refusals give the specified plan |
| TrustControl.TrustManager.RollBack | cmd/tun2proxy-web/cert_mount.go:391-403 | the reverse loop gives the specified rollback |
| TrustControl.TrustManager.MountPlans | cmd/tun2proxy-web/cert_mount.go:404-431 | the three loops (mount and verify, verify again, probe) give the specified installation |
| TrustControl.TrustManager.ApplyTrust | cmd/tun2proxy-web/cert_mount.go:370-433 | the code of applyTrust is the specified apply |
| TrustControl.TrustManager.RemoveTrust | cmd/tun2proxy-web/cert_mount.go:351-369 | the nested pop loops give the specified removal |
| TrustControl.TrustManager.ChangeInventory | cmd/tun2proxy-web/cert_api.go:391-398 | apply, save and compensate give the specified change |
| TrustChange.RemoveCompletes | cmd/tun2proxy-web/cert_mount.go:351-369 | an undisturbed removal finishes: no stack reaches its limit of 64 |
| TrustChange.InstallCompletes | cmd/tun2proxy-web/cert_mount.go:404-433 | an undisturbed installation of a plan passes all its own verifications |
| TrustChange.CanPlan | cmd/tun2proxy-web/cert_mount.go:226-329 | on a healthy world with room planning of any valid certificates succeeds when nothing fails |
| TrustChange.ApplyCanComplete | cmd/tun2proxy-web/cert_mount.go:370-433 | and so does the whole apply |
| TrustChange.CommitAgrees | cmd/tun2proxy-web/cert_api.go:391-398 | a successful change saves exactly what it shows, a failed one saves nothing |
| TrustChange.FailsSafelyExactly | cmd/tun2proxy-web/cert_api.go:391-398 | a rejected change leaves saved inventory and visible stores in agreement in every run if and only if it still manages something or every layer shows what is saved |
| TrustChange.LastRemovalCanDisagree | cmd/tun2proxy-web/cert_api.go:391-398 | a concrete world in which removing the last certificate can fail and still be seen |
| Flows.LookupOwn | ebpf-proxy/internal/redirect/loader_linux.go:263-299 | a successful lookup returns the destination of this connection's own client, which is that client's latest redirected connect |
| Flows.EveryResolutionOwn | ebpf-proxy/bpf/redirect.bpf.c:4-60 | for any number of sockets and any interleaving with evictions, sweeps and closes whose callbacks may come late, every resolved connection got its own client's destination, and never one of a bypassed user, as long as reused tuples are clean |
| Flows.PromptRunsAreClean | ebpf-proxy/bpf/redirect.bpf.c:42-59 | where the callback runs before the tuple is given away every legal run is clean |
| Flows.ReuseExactly | ebpf-proxy/bpf/redirect.bpf.c:42-54 | using a tuple again before the old callback is harmless if and only if the new socket publishes over the old entry or nobody could use that any more |
| Flows.LateCallbackSpares | ebpf-proxy/bpf/redirect.bpf.c:55-58 | the late close callback of the earlier socket leaves the newer entry of the same tuple, by its cookie |
| Flows.LateCallbackHappens | ebpf-proxy/bpf/redirect.bpf.c:42-59 | such a state is reached by a legal and clean run |
| Flows.UndisturbedResolves | ebpf-proxy/internal/redirect/loader_linux.go:263-299 | a published connection looked up within 30 s of its connect is resolved, whatever other sockets, late callbacks of the tuple's earlier clients and sweeps do |
| Flows.SweepHarmless | ebpf-proxy/internal/redirect/loader_linux.go:317-330 | a sweep of an entry as just read removes nothing a lookup could still use |
| Flows.LossesOnlyFail | ebpf-proxy/internal/redirect/loader_linux.go:263-330 | removing any entries at any times during a run only turns successes into errors: every resolution of the lossy run is the same in the lossless one |
| Flows.EveryResolutionFits | ebpf-proxy/internal/redirect/loader_linux.go:263-299 | over any run, whatever the map held to begin with, a resolved value is of this version, of some socket and of the connection's own address family |
| Flows.SilentDaemonRedirectsNothing | ebpf-proxy/bpf/redirect.bpf.c:4-38 | once the daemon has been silent for longer than its lease no connect is redirected |
| Capture.CaptureExactly | ebpf-proxy/bpf/redirect.bpf.c:4-38 | after any run the hook redirects a connect if and only if, by the history of events alone, it is TCP, its user was last made a target or all users are, is not bypassed, the daemon is enabled and has been silent no longer than its lease, the destination is not exempt, and IPv6 is on if it is IPv6 |
| Capture.StorageIsCaptured | ebpf-proxy/bpf/redirect.bpf.c:4-38 | each socket has stored exactly its last connect that was to be captured |
| Capture.OnlyCaptured | ebpf-proxy/bpf/redirect.bpf.c:4-60 | over every run, however disturbed, each value stored, published or resolved is that of a connect that was to be captured |
| Capture.ResolvedWasCaptured | ebpf-proxy/internal/redirect/loader_linux.go:263-299 | in clean runs every resolved connection is one its own client asked for and that was to be captured |
| Capture.CapturedResolves | ebpf-proxy/internal/redirect/loader_linux.go:263-299 | conversely a connect to be captured that is established, published and then undisturbed for up to 30 s is resolved to what it asked for, whatever all the others do |
| FlowControl.FlowTables.OnConnect | ebpf-proxy/bpf/redirect.bpf.c:4-38 | the hook's checks in order redirect exactly the sockets the specification names, and store only for them |
| FlowControl.FlowTables.OnEstablish | ebpf-proxy/bpf/redirect.bpf.c:42-54 | publishes what the socket stored under its tuple, if there is room |
| FlowControl.FlowTables.OnClose | ebpf-proxy/bpf/redirect.bpf.c:42-59 | deletes the tuple's entry only if it carries this socket's cookie |
| FlowControl.FlowTables.Resolve | ebpf-proxy/internal/redirect/loader_linux.go:263-299 | at most ten lookups, others moving in between, are a run of the protocol that ends with a destination or an error |
| FlowControl.ResolveWaits | ebpf-proxy/internal/redirect/loader_linux.go:263-299 | the first of the ten lookups that meets an entry decides, whatever happens during the sleeps |
| FlowControl.ResolveGivesUp | ebpf-proxy/internal/redirect/loader_linux.go:263-299 | and without any entry it gives up only after all of them |
| FlowControl.FlowTables.SweepFlows | ebpf-proxy/internal/redirect/loader_linux.go:317-330 | the loop, with the others moving between reading an entry and the second lookup, is a run of the protocol that deletes old entries of unchanged cookie only |
| FlowControl.QuietSweepExact | ebpf-proxy/internal/redirect/loader_linux.go:317-330 | where nobody interferes it removes exactly the visited entries older than 60 s |

## Left out

- Real system calls: pidfds, polling, descriptor passing, locks, fsync, `/proc`. Kept are their effects: a capability, a liveness bit, an exclusive lock, an atomic rename.
- Timeouts and restart backoff: an expiry is a step that may come at any time.
- Hashes, hex and JSON are injective: a digest is the text it was taken of, a binding is a number, and a file holds a record.
- The regular expressions of `MarkUses`: an arbitrary function from lines to mark uses.
- Printing.EveryStepRenders: assumes that the mark recogniser reads the plan's mark in the plan's own rule.
- The exact checks (`iptables -C`): the kernel remembers as things the rules that a check finds. A check command that fails for another reason counts as absence, as it does in the code.
- KernelState.PlanRuns: the kernel's refusal to drop a chain in use or to add a rule without its chain is not modelled. PlanMeaning.NeedsEarlier shows that the plan's order never asks for either. Identical copies of a planned rule by another writer are one thing.
- Changes between an observation and the command after it: in scoped mode other writers may change any line outside the reserved footprint at that moment too, but they do not touch the footprint; in strict mode the namespace is exclusive.
- One listing command is atomic, and the three commands of a pass see the same moment; two passes may see different foreign lines.
- Trimming of command output, and white space outside ASCII.
- Power loss and a changed boot id: Decode refuses a record of another boot, the run theorems keep one boot. A crash settles the command in flight before anybody reopens the journal, as the inherited lease enforces.
- 64-bit wrap-around of broker ids.
- Supervisor.Supervise: does not model the older `SuperviseScopedIsolated` loop, which has no registry and no marker and otherwise makes the same attempts.
- Broker.ServeWorker: takes the decoding and descriptor checks of a packet as given truth values.
- Handoff.ExecutionNeedsHandoff: stray packets carry no process descriptors and do not guess the nonce of this handoff; a request is built from descriptors that only the guard has.
- Handoff.QuiescentMeansExited: does not model the size limit on the captured output, which only adds refusals.
- Supervisor.EveryHistoryOrderly: the journal operations of a worker and the packets to its broker are independent of each other, each arbitrary. Nobody but a clean end removes the marker.
- RouteRuns.ReversibleExactly: a jump in the network has its chain, as the kernel keeps it.
- The local `Admit` path of a paused command: the handoff does the same with one more party.
- Routes.CleanupCompletes: has no change of boot, after which the log is dropped together with the rules.
- The single configuration checks in `startRoutes`: their outcome is off, rejected or accepted. Uid ranges arrive distinct, as sorting distinct uids makes them.
- RouteControl.RouteModule.StartRoutes: takes the configuration as its outcome and the watcher as one command that may fail, and drops the tool's wait option and the reject messages from the rules.
- TrustRuns.PlanTrustPlans: takes all reads and writes, the labelling and the signature probes of one generation as one outcome. A symbolic link, directory or oversized file in the store makes it fail.
- Mount propagation: namespaces that share mount events are one namespace that may be listed several times. One-way propagation is not modelled.
- TrustRuns.EveryHistoryHealthy: assumes that nobody else mounts over a store. With a foreign layer on top, planning refuses and RemoveTrims shows that removal does not touch it.
- TrustControl.TrustManager.ChangeInventory: takes the edited inventory as any inventory. The edits of the single actions, and the Yakit save without an apply, are not modelled.
- Byte order and the layout of the map keys; a tuple is a record. Longest-prefix matching of bypass networks is a truth value per connect.
- Packets.InstalledKeepsPromise: what user ranges and networks contain is a parameter; a bypass of all of IPv4, whose throw route would collide with the default route, and foreign policies of the same priority are left out.
- FlowControl.FlowTables.Resolve: assumes, as Flows.Legal says, that a tuple is not used again while its client is live or its accepted side unresolved. Two processors racing on one entry appear as an erasure at any later time.
- `Detach`, cgroup links, counters and relaying: no state of the protocol.
- Preflight, probes, X.509 parsing, HTTP handlers, the web interface and the scripts.
