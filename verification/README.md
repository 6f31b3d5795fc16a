# Verified models of tgoskits components

A Dafny model of the parts of tgoskits whose correctness is hardest to see from the code, with
proofs of what those parts are for. `dafny verify dfyconfig.toml` checks the whole project.

## What is modelled

**Cgroup v2 membership and pids accounting** (`components/ax-cgroup`). A hierarchy of nodes with
weak parent links, a ledger from tasks to nodes, and fork guards that reserve, publish, commit or
roll back. Operations under the ledger lock are single steps of a transition system
(`Membership`). The destructor of a guard is split where the lock is released: ledger entries
first, then the member, then one node of the charged path at a time. Removing a node is split at
its separate looks at children, members and pins, so that anything may come in between.
`MembershipLedger` is the same system as an object with loops and in-place updates, each method
proved equal to its step; `SoundLedger` puts object, invariant and claims together for legal calls.

- `MembershipInvariant` proves the invariant of every reachable state, and with it every assertion
  the code makes about its own records.
- `Claims` proves the lower bound: on every legal run each counter covers the committed tasks whose
  walk passes it and the charges guards still owe there, so no release underflows. `LostCharges`
  makes it exact: the counter is those claims plus the charges lost on the way. They are lost when a
  node on the walk of committed tasks is freed, or when a fork is committed whose path holds nodes
  that its walk no longer reaches.
- `Conservation` proves, for every step and for whole runs, an if-and-only-if for keeping every
  counter equal to the tasks below it plus the charges still held by guards. It also says where a
  refused fork leaves its limit events.
- `CarefulRuns` gives runs on which conservation cannot fail; `LeakedCharge` is a legal run on
  which the counters do drift apart from the tasks; `DetachedRefusal` is one on which the refusing
  node itself counts no event.
- `ForkTransaction` proves that a dropped guard leaves no trace, by running the system with and
  without it side by side.
- `PidsCounter` is one node's counter at the level of single atomic accesses.
- `ChargeSteps` charges a path node by node, with releases of dropped guards and new limits between
  any two nodes, and compares that with the single step of `Membership`.
- `CgroupTree` and `CgroupPath` cover ancestor walks, the shared part of two walks, printed paths,
  and making, removing and freeing nodes.

**Schedulers** (`components/axsched`). `CfsFairness` has the weighted virtual runtimes, the spread
bound and the waiting bound of closed task sets, both for a put-back after each tick and for tasks
that run until their tick asks for a reschedule; the spread bound also with priorities changing
meanwhile. `CfsScheduler` is the queue object that follows it from an empty queue on. `RoundRobin`
bounds waiting in ticks, and its object takes each event of that model. `Placement` shows the
placement comparator to be a strict total order.

**Readiness queue** (`components/axpoll-set`). `PollQueue` is the queue object, with wake and close
passes proved equal to a one-pass filter. `PollProtocol` interleaves registration, cancellation,
wake and close passes at the queue lock. `PollSteps` has the object take the steps of that protocol
and call the wakers that they deliver.

**One-time initialisation and futex handoff.** `LazyInit` interleaves any number of calls, with
spurious exchange failures and failing initializers. `Handoff` interleaves sender and receiver of
the wakeup benchmark with compare-and-park futexes, spurious returns and interrupted waits.

**Validated binary images.** `SymbolMap` parses backtrace maps from bytes and proves binary search
equal to a linear scan. `ElfSegments` and `ElfImage` parse ELF64 boot images (System V gABI,
chapter 5, Program Header) from bytes.

### What callers owe

`Membership.Legal` writes down what the cgroup code expects of its callers: task generations are
never reused (`components/ax-cgroup/src/lib.rs:23`); calls on one `ProcessMembership` are
serialised (`components/ax-cgroup/src/membership.rs:56`); a final exit names a task of the ledger,
since otherwise the call returns early (`membership.rs:389`) and the process is marked exited all
the same (`membership.rs:131`); a task whose guard is not committed does not run yet, as StarryOS
arranges (`os/StarryOS/kernel/src/syscall/task/clone.rs:608`); a handle passed in keeps its node
alive. An exited process's membership is dropped at some later step (`Reap`), after which its node
can be freed.

### Where the code does less than one would hope

- Conservation does not hold on all legal runs. `remove_child` looks at members and pins but not
  at prepared reservations (`node.rs:184`), and exit walks up through weak parents
  (`membership.rs:412`). `StepConservesIff` gives the exact condition for each step and
  `ConservedThroughoutIff` for each run, `RootKeepsCharge` is a run on which it fails, and
  `CountersAreConserved` has the runs on which it cannot. What holds on all legal runs is the
  lower bound of `CountersCoverClaims` and the exact account of `EveryChargeIsAccountedFor`.
- A refused fork counts an event only at nodes with a live parent (`membership.rs:467`). When the
  target has been cut off from the root, the top of its walk is passed over, even when it is the
  node that refuses: `EventsReachRootIff`, `RefuserCountsNoEvent`.
- A waiter in `ax-lazyinit` loads the state twice (`lib.rs:82-88`, `lib.rs:159-166`). When an
  initializer fails and another call starts between the loads, the waiter slips through to
  memory that was never written: `SlipReadsNothing`. `OnlyPublishedValuesIff` says exactly on which
  runs a call reads anything but the published value, `EarlyReadFollowsSlip` that only a call that
  slipped through can, and `LetThroughWhenPublishedIff` exactly which runs let a call slip through
  at all. `ReadsNothingIff` has the calls that come back with nothing: those that slipped through
  and read before anybody wrote. The comments there (`lib.rs:115`, `lib.rs:165`) claim more than
  the code does.
- `add_task` of the CFS scheduler resets a task's base but keeps its ticks (`cfs.rs:168`), so a
  task that had run before is filed under a key it does not compute for itself, and `remove_task`
  does not find it. The contract of `AddTask` says exactly when, and `LostAfterRejoining` is
  such a run.
- `set_priority` of the CFS scheduler drops the fraction of virtual time earned so far
  (`cfs.rs:73-79`), and loses nothing exactly when the ticks come to whole units: `ReniceLosesIff`.
  Called every `k` ticks it keeps a running task from ever being asked to give way exactly when `k`
  ticks earn less than a unit: `HeldForEver`. The spread bound survives it, the waiting bound needs
  priorities that stay.
- `relative_path` prints a text for any two nodes (`node.rs:263-294`). It resolves exactly when
  the two share a node above and the target's own part is still listed: `PrintedPathResolvesIff`.
  Otherwise it may lead nowhere (`DetachedPathLeadsNowhere`) or to a namesake
  (`RemovedPathMisleads`). `Detach` and `Replace` get there by the operations of `Hierarchy`.
- `charge_path` takes one node after the other (`membership.rs:454-463`), and a limit may be lowered
  under a node it has just passed. Then a fork can be granted although at no moment the whole path
  had room: `LimitComesTooLate`. Otherwise it is as good as one step: `ChargeIsAtomic`.

## Model

| member | source | states |
|---|---|---|
| `CgroupTree.AncestryAt` | components/ax-cgroup/src/membership.rs:444-452 | the walk from any node on a walk is the rest of that walk, so every node on it is an ancestor |
| `CgroupTree.AncestryDistinct` | components/ax-cgroup/src/membership.rs:444-452 | a walk over live parents never meets a node twice |
| `CgroupTree.WholeAncestry` | components/ax-cgroup/src/membership.rs:444-452 | when all ancestors are alive the walk visits exactly the ancestors |
| `CgroupTree.UniquePaths` | components/ax-cgroup/src/membership.rs:485-499 | the loop cuts both walks at the longest common suffix |
| `CgroupTree.UniquePathsAreDifferences` | components/ax-cgroup/src/membership.rs:485-499 | what remains of two walks are precisely the two set differences of their nodes |
| `CgroupTree.Walk` | components/ax-cgroup/src/membership.rs:444-452 | the loop over live parents yields the walk |
| `MembershipLedger.Cgroups.ChargePath` | components/ax-cgroup/src/membership.rs:454-463 | charges the whole path, or, at the first full node, undoes all and counts the event from there up |
| `MembershipLedger.Cgroups.TryCharge` | components/ax-cgroup/src/membership.rs:455-456 | one more task at the next node of the path, unless its limit refuses |
| `MembershipLedger.Cgroups.RollBack` | components/ax-cgroup/src/membership.rs:456-459 | undoing a partial charge restores every counter, leaving raised peaks below and events above the refusal |
| `MembershipLedger.Cgroups.RecordMaxEvent` | components/ax-cgroup/src/membership.rs:465-471 | one limit event at each listed node that has a live parent |
| `MembershipLedger.Cgroups.ChargePathUnchecked` | components/ax-cgroup/src/membership.rs:473-477 | adds the count and raises the peak at exactly the nodes of the path |
| `MembershipLedger.Cgroups.UnchargePath` | components/ax-cgroup/src/membership.rs:479-483 | subtracts the count at exactly the nodes of the path |
| `MembershipLedger.Cgroups.Attach` | components/ax-cgroup/src/membership.rs:152-172 | the method is the attach step: root charged, member and ledger entry added, or busy with counters restored |
| `MembershipLedger.Cgroups.BeginTaskAt` | components/ax-cgroup/src/membership.rs:289-315 | the method is the reserve step: path charged, pending entry and guard made, or refused all-or-nothing |
| `MembershipLedger.Cgroups.BeginTask` | components/ax-cgroup/src/membership.rs:92-102 | reserves at the active node of the process; an exited process is refused |
| `MembershipLedger.Cgroups.Publish` | components/ax-cgroup/src/membership.rs:201-226 | the method is the publish step, with each busy case |
| `MembershipLedger.Cgroups.Commit` | components/ax-cgroup/src/membership.rs:229-247 | needs what the code asserts, that the guard is published and its pending entry names the process; then the entry goes and the guard is settled |
| `MembershipLedger.Cgroups.DropRecords` | components/ax-cgroup/src/membership.rs:251-280 | the locked and member parts of the destructor for each phase; under the invariant every debug assertion made there holds |
| `MembershipLedger.Cgroups.ReleasePath` | components/ax-cgroup/src/membership.rs:281 | the release loop runs all remaining single-node release steps |
| `MembershipLedger.Cgroups.DropGuard` | components/ax-cgroup/src/membership.rs:250-286 | the whole destructor is its steps in order |
| `MembershipLedger.Cgroups.UniqueWalks` | components/ax-cgroup/src/membership.rs:351-353 | the parts charged and released by a migration are the two set differences |
| `MembershipLedger.Cgroups.MoveTasks` | components/ax-cgroup/src/membership.rs:371-377 | every task of the process, and no other, is re-homed |
| `MembershipLedger.Cgroups.MoveMember` | components/ax-cgroup/src/membership.rs:357-369 | the member moves, or is put back when the target has it already |
| `MembershipLedger.Cgroups.MoveProcess` | components/ax-cgroup/src/membership.rs:351-379 | charge, move, release equals the relocate step |
| `MembershipLedger.Cgroups.Migrate` | components/ax-cgroup/src/membership.rs:317-380 | the method is the migrate step with all its refusals |
| `MembershipLedger.Cgroups.Exit` | components/ax-cgroup/src/membership.rs:121-135 | the method is the exit step: an exited process is left alone, a final exit marks it exited; under the invariant the assertion that the process is a member holds |
| `MembershipLedger.Cgroups.ExitTask` | components/ax-cgroup/src/membership.rs:382-414 | the ledger part, with the early return, the final-exit refusals, and the walk uncharged |
| `MembershipLedger.Cgroups.Rename` | components/ax-cgroup/src/membership.rs:416-442 | the ledger entry moves to the new generation, or nothing changes |
| `MembershipLedger.Cgroups.RemoveChild` | components/ax-cgroup/src/node.rs:171-189 | left alone, the three looks and the unlinking are one refusal for children, members or pins, or a removal |
| `MembershipLedger.Cgroups.CreateChild` | components/ax-cgroup/src/node.rs:134-155 | the method is the create step: a fresh node, listed, with counters at zero |
| `MembershipLedger.Cgroups.Reclaim` | components/ax-cgroup/src/node.rs:57-60 | the method is the freeing of a node nobody owns: its children no longer find a parent |
| `MembershipLedger.Cgroups.SetMaximum` | components/ax-cgroup/src/pids.rs:90-101 | the method is the limit step and changes nothing but that limit |
| `MembershipLedger.Cgroups.Pin` | components/ax-cgroup/src/node.rs:225-230 | the method is the pin step |
| `MembershipLedger.Cgroups.Unpin` | components/ax-cgroup/src/node.rs:246-251 | the method is the unpin step; a pin held means the count is not zero |
| `MembershipLedger.Cgroups.Reap` | components/ax-cgroup/src/membership.rs:54-66 | the method drops the membership of a process |
| `MembershipInvariant.BeginKeepsInv` | components/ax-cgroup/src/membership.rs:289-315 | reserving keeps the invariant |
| `MembershipInvariant.PublishKeepsInv` | components/ax-cgroup/src/membership.rs:201-226 | publishing keeps the invariant |
| `MembershipInvariant.DropKeepsInv` | components/ax-cgroup/src/membership.rs:251-276 | the locked part of a rollback keeps the invariant |
| `MembershipInvariant.DropMemberKeepsInv` | components/ax-cgroup/src/membership.rs:277-280 | so does taking the member out after the lock is released |
| `MembershipInvariant.DropReleaseKeepsInv` | components/ax-cgroup/src/membership.rs:479-483 | so does releasing one node of the charged path |
| `MembershipInvariant.MigrateKeepsInv` | components/ax-cgroup/src/membership.rs:317-380 | migration keeps the invariant |
| `MembershipInvariant.ExitKeepsInv` | components/ax-cgroup/src/membership.rs:382-414 | exit keeps the invariant |
| `MembershipInvariant.RenameKeepsInv` | components/ax-cgroup/src/membership.rs:416-442 | renaming keeps the invariant |
| `MembershipInvariant.ReapKeepsInv` | components/ax-cgroup/src/membership.rs:54-66 | dropping the membership of an exited process keeps the invariant |
| `MembershipInvariant.RemoveKeepsInv` | components/ax-cgroup/src/node.rs:171-189 | each look of a removal and its unlinking keep the invariant, whatever came in between |
| `MembershipInvariant.StepKeepsInv` | components/ax-cgroup/src/membership.rs:152-442 | every operation keeps the invariant of the ledger, the pending map, members, owners and guards |
| `MembershipInvariant.RunKeepsInv` | components/ax-cgroup/src/membership.rs:152-442 | it holds after every legal interleaving |
| `MembershipInvariant.LedgerAndMembershipAgree` | components/ax-cgroup/src/membership.rs:107-135 | in every reachable state a ledger task's process is a member of exactly one cgroup, the task's own, where the process is active; a pending thread fork names that cgroup |
| `MembershipInvariant.PendingForkPinsProcess` | components/ax-cgroup/src/membership.rs:322-325 | while a fork is pending, migration and final exit of its process are refused and change nothing |
| `MembershipInvariant.MigrationNeverRollsBack` | components/ax-cgroup/src/membership.rs:357-369 | a migration past its checks succeeds: the rollback arms are never taken |
| `MembershipInvariant.AssertionsHold` | components/ax-cgroup/src/membership.rs:230-279 | after every legal run the assertions of commit, of dropping a guard and of a final exit hold |
| `Claims.StepCovered` | components/ax-cgroup/src/membership.rs:152-442 | every legal step keeps each counter at or above the claims on it |
| `Claims.CountersCoverClaims` | components/ax-cgroup/src/pids.rs:58-63 | after every legal run, at every node, the counter is at least the committed tasks whose walk passes it plus the guards that owe it |
| `Claims.ReleasesNeverUnderflow` | components/ax-cgroup/src/pids.rs:58-63 | whatever exit, migration or rollback takes off a counter on a legal run is there to be taken |
| `LostCharges.StepSlack` | components/ax-cgroup/src/membership.rs:152-442 | a legal step moves a counter away from the claims on it by exactly the charges it loses: those of a committed guard that its task does not release, and those above a freed node |
| `LostCharges.EveryChargeIsAccountedFor` | components/ax-cgroup/src/membership.rs:152-442 | after every legal run, at every node, the counter equals committed tasks whose walk passes it plus guards that owe it plus the charges lost on the way |
| `LostCharges.StepCounts` | components/ax-cgroup/src/pids.rs:32-63 | the counter after any step is the one before plus what the step charges minus what it releases, refusals and roll-backs included |
| `LostCharges.CountersFollowSteps` | components/ax-cgroup/src/pids.rs:32-63 | at every step of every legal run each counter moves by exactly what is charged and released, and what is released is there |
| `SoundLedger.Boot` | components/ax-cgroup/src/membership.rs:43-49 | the object starts in the initial state, with invariant and claims |
| `SoundLedger.Attach` | components/ax-cgroup/src/membership.rs:152-172 | a legal call is the attach step and keeps invariant and claims |
| `SoundLedger.BeginProcessAt` | components/ax-cgroup/src/membership.rs:289-315 | a legal call is the reserve step and keeps invariant and claims |
| `SoundLedger.BeginTask` | components/ax-cgroup/src/membership.rs:92-102 | the same for a fork of a running process |
| `SoundLedger.Publish` | components/ax-cgroup/src/membership.rs:201-226 | the same for publishing |
| `SoundLedger.Commit` | components/ax-cgroup/src/membership.rs:229-247 | the same for committing, and the two assertions of the code cannot fail |
| `SoundLedger.Migrate` | components/ax-cgroup/src/membership.rs:317-380 | the same for migration |
| `SoundLedger.Exit` | components/ax-cgroup/src/membership.rs:382-414 | the same for exit, and its assertion cannot fail |
| `SoundLedger.Rename` | components/ax-cgroup/src/membership.rs:416-442 | the same for renaming |
| `SoundLedger.DropRecords` | components/ax-cgroup/src/membership.rs:251-280 | the same for the records part of a rollback, and its assertions cannot fail |
| `SoundLedger.ReleaseNext` | components/ax-cgroup/src/membership.rs:479-483 | the same for one node of the release, whose counter is at least one |
| `SoundLedger.DropGuard` | components/ax-cgroup/src/membership.rs:250-286 | the whole rollback keeps invariant and claims and leaves the guard done |
| `SoundLedger.CreateChild` | components/ax-cgroup/src/node.rs:134-155 | a legal call is the create step and keeps invariant and claims |
| `SoundLedger.RemoveChild` | components/ax-cgroup/src/node.rs:171-189 | an undisturbed removal of a listed node keeps invariant and claims |
| `SoundLedger.Reclaim` | components/ax-cgroup/src/node.rs:57-60 | freeing a node nobody owns keeps invariant and claims |
| `SoundLedger.SetMaximum` | components/ax-cgroup/src/pids.rs:90-101 | a legal call is the limit step and keeps invariant and claims |
| `SoundLedger.Pin` | components/ax-cgroup/src/node.rs:225-230 | the same for pinning |
| `SoundLedger.Unpin` | components/ax-cgroup/src/node.rs:246-251 | the same for unpinning |
| `SoundLedger.Reap` | components/ax-cgroup/src/membership.rs:54-66 | the same for dropping an exited membership |
| `Conservation.MoveCurrent` | components/ax-cgroup/src/membership.rs:351-378 | a move of k tasks adds k on the target's own part, takes k off the old part and leaves shared ancestors alone |
| `Conservation.PublishConservesIff` | components/ax-cgroup/src/membership.rs:201-226 | publishing keeps conservation exactly when, if it goes through, the recorded path covers every live ancestor |
| `Conservation.DropConservesIff` | components/ax-cgroup/src/membership.rs:250-286 | the same for rolling a published fork back |
| `Conservation.ExitConservesIff` | components/ax-cgroup/src/membership.rs:382-414 | exit keeps conservation exactly when its walk reaches every live ancestor |
| `Conservation.MoveConservesIff` | components/ax-cgroup/src/membership.rs:317-380 | migration keeps conservation exactly when both walks miss the same live nodes |
| `Conservation.StepConservesIff` | components/ax-cgroup/src/membership.rs:152-442 | any operation keeps every counter equal to tasks below plus held charges if and only if its walk reaches the live nodes above |
| `Conservation.ConservedThroughoutIff` | components/ax-cgroup/src/membership.rs:152-442 | from boot, every state of a legal run is conserved if and only if every step's walk reaches the live nodes above |
| `Conservation.RefusedForkIsAllOrNothing` | components/ax-cgroup/src/membership.rs:454-471 | for any target, a refused fork restores every counter, counts one event at the lowest full node and at each node above it on the walk that has a live parent and nowhere else, and may leave higher peaks below |
| `Conservation.EventsReachRootIff` | components/ax-cgroup/src/membership.rs:465-471 | the events land on the refuser and all its ancestors but the root if and only if the walk from the target reaches the root |
| `DetachedRefusal.OrphanRefuses` | components/ax-cgroup/src/membership.rs:465-471 | a full cgroup whose parent is gone refuses without counting the event |
| `DetachedRefusal.RefuserCountsNoEvent` | components/ax-cgroup/src/membership.rs:465-471 | a concrete legal run after which a detached cgroup refuses and its event counter stays zero |
| `CarefulRuns.AttachedWalksReach` | components/ax-cgroup/src/membership.rs:444-452 | when all charged nodes hang in the hierarchy, every walk is complete |
| `CarefulRuns.RemoveKeepsCharges` | components/ax-cgroup/src/node.rs:185-187 | unlinking a cgroup that is still vacant and no prepared process fork has picked leaves all charges attached |
| `CarefulRuns.StepKeepsCharges` | components/ax-cgroup/src/membership.rs:152-442 | every careful step keeps all charged nodes in the hierarchy |
| `CarefulRuns.CountersAreConserved` | components/ax-cgroup/src/membership.rs:152-442 | after any interleaving with careful callers each live counter is the tasks at or below plus charges guards still hold, so it never under-counts |
| `LeakedCharge.RootKeepsCharge` | components/ax-cgroup/src/node.rs:184-188 | a concrete legal run after which no task and no guard is left and the root still counts one |
| `ForkTransaction.OwnStepHidden` | components/ax-cgroup/src/membership.rs:250-286 | no step of the guard shows in the state with the guard taken out |
| `ForkTransaction.StepMirrored` | components/ax-cgroup/src/membership.rs:152-442 | any other step runs the same without the guard, or changes nothing but peaks and events |
| `ForkTransaction.RunMirrored` | components/ax-cgroup/src/membership.rs:201-286 | whole runs with and without the guard stay side by side |
| `ForkTransaction.DroppedForkLeavesNoTrace` | components/ax-cgroup/src/membership.rs:250-315 | after a fork has been dropped, ledger, pending map, members, owners and counters are as if it had never begun, whatever ran in between |
| `ForkTransaction.CommittedDropDoesNothing` | components/ax-cgroup/src/membership.rs:283 | dropping a committed guard changes nothing |
| `PidsCounter.PeakIsHistoricalMaximum` | components/ax-cgroup/src/pids.rs:32-56 | with any mix of charges, whenever none is in flight the peak is exactly the highest count there has been |
| `PidsCounter.LimitHolds` | components/ax-cgroup/src/pids.rs:32-49 | no interleaving of checked charges exceeds the maximum |
| `PidsCounter.GrantsAreCounted` | components/ax-cgroup/src/pids.rs:32-63 | the count is the start plus the exchanges won minus the releases |
| `PidsCounter.NoOvershoot` | components/ax-cgroup/src/pids.rs:32-63 | concurrent charges win no more than the limit and the releases allow |
| `ChargeSteps.CountersCommute` | components/ax-cgroup/src/membership.rs:454-483 | whatever is released or limited between two nodes, the counters are at every moment those without the charge plus one at each node it holds; granted it holds the whole path, rejected nothing |
| `ChargeSteps.EventsCount` | components/ax-cgroup/src/membership.rs:465-471 | a rejection counts one event at the refusing node and each node above it on the path with a live parent, a grant none, under any interleaving |
| `ChargeSteps.ChargeIsAtomic` | components/ax-cgroup/src/membership.rs:454-463 | unless a limit is lowered under a node just passed, charging node by node has the outcome, counters, limits and events of one step at some moment in between |
| `ChargeSteps.AtOnceIsBegin` | components/ax-cgroup/src/membership.rs:300-301 | that one step is what the reserve step of the transition system does to the counters, and is granted exactly when that is |
| `ChargeSteps.ReleaseIsStep` | components/ax-cgroup/src/membership.rs:281 | a release move is what one release step of a dropped guard does to the counters |
| `ChargeSteps.SetLimitIsStep` | components/ax-cgroup/src/pids.rs:90-101 | a limit move is what setting a maximum does to the counters |
| `ChargeSteps.ReachedInOrder` | components/ax-cgroup/src/membership.rs:454-463 | whatever happens to limits, each node passed had room at its moment, and the moments come in the order of the path |
| `ChargeSteps.RejectionIsJustified` | components/ax-cgroup/src/membership.rs:454-463 | whatever happens to limits, a rejected charge would also have been rejected as one step at some moment, at that node or below |
| `ChargeSteps.LimitComesTooLate` | components/ax-cgroup/src/membership.rs:454-463 | a concrete interleaving that is granted although one step would have been refused at every moment |
| `CgroupPath.SplitJoin` | components/ax-cgroup/src/node.rs:280-293 | splitting a path at slashes undoes joining its components |
| `CgroupPath.ResolveUps` | components/ax-cgroup/src/node.rs:281-286 | k times dot-dot leads k nodes up the walk |
| `CgroupPath.ResolveDowns` | components/ax-cgroup/src/node.rs:287-292 | names lead back down to the start of a walk if and only if every node passed is on its parent's list |
| `CgroupPath.PrintedPathResolvesIff` | components/ax-cgroup/src/node.rs:263-294 | for any two nodes, resolving the printed text from the root reaches the target if and only if some node is above both and the target's own part of its walk is still listed |
| `CgroupPath.DetachedPathLeadsNowhere` | components/ax-cgroup/src/node.rs:280-286 | a concrete cgroup whose parent is gone prints dot-dot past the root |
| `CgroupPath.RemovedPathMisleads` | components/ax-cgroup/src/node.rs:287-292 | a concrete removed cgroup prints the path of the one that took its name |
| `CgroupPath.PrintedPathResolves` | components/ax-cgroup/src/node.rs:263-294 | between nodes that can be found from the top, resolving the printed relative path from the root reaches exactly the target |
| `CgroupPath.PrintedPathsAreInjective` | components/ax-cgroup/src/node.rs:263-294 | two targets whose texts resolve and are equal are the same node |
| `CgroupPath.FindableWithChild` | components/ax-cgroup/src/node.rs:143-153 | after filing a child exactly what could be found before can be found, and the child if and only if its parent can |
| `CgroupPath.FindableUnlisted` | components/ax-cgroup/src/node.rs:172-189 | after removing a childless child exactly that child can no longer be found |
| `CgroupPath.FindableFreed` | components/ax-cgroup/src/node.rs:16-25 | freeing a node that is on no list changes nothing about what can be found |
| `CgroupPath.Hierarchy.CreateChild` | components/ax-cgroup/src/node.rs:134-155 | bad and taken names are refused exactly and change nothing; otherwise one child is filed, names stay unique among siblings, and it can be found if and only if its parent can |
| `CgroupPath.Hierarchy.RemoveChild` | components/ax-cgroup/src/node.rs:172-189 | each error exactly in its case and without a change; otherwise the child leaves the list and it alone can no longer be found |
| `CgroupPath.Hierarchy.Free` | components/ax-cgroup/src/node.rs:16-25 | a node on no list goes, with its own list, and nothing that could be found is affected |
| `CgroupPath.Detach` | components/ax-cgroup/src/node.rs:134-294 | for any two names, making, removing and freeing leads to a cgroup whose printed path resolves to nothing |
| `CgroupPath.Replace` | components/ax-cgroup/src/node.rs:134-294 | for any name, removing and making again leads to a held cgroup whose printed path resolves to the newer one |
| `CgroupPath.Hierarchy.RelativePath` | components/ax-cgroup/src/node.rs:263-294 | for any two nodes the loops print the text of the theorem, which resolves exactly under its condition |
| `CgroupPath.Hierarchy.PrintUps` | components/ax-cgroup/src/node.rs:280-286 | the first loop prints the dot-dots joined by slashes |
| `CgroupPath.Hierarchy.PrintDowns` | components/ax-cgroup/src/node.rs:287-292 | the second loop appends the names from the top down, with a slash unless one is there |
| `CfsFairness.Weight` | components/axsched/src/cfs.rs:45-52 | every weight lies between 15 and 88761, and nice 0 weighs 1024 |
| `CfsFairness.ScaledIsFloor` | components/axsched/src/cfs.rs:58-65 | both branches of the virtual-time formula are one floor division |
| `CfsFairness.TickStep` | components/axsched/src/cfs.rs:58-65 | a tick moves virtual time forward by between 0 and 69, over the whole weight table |
| `CfsFairness.PriorityKeepsKey` | components/axsched/src/cfs.rs:73-79 | changing priority leaves the queue key alone |
| `CfsFairness.SpreadBound` | components/axsched/src/cfs.rs:194-212 | in closed runs of fresh tasks, priority changes included, virtual runtimes are never more than 69 apart at a loop boundary |
| `CfsFairness.PickCostsATick` | components/axsched/src/cfs.rs:194-207 | each pick of another task brings it a tick closer to sorting behind the waiting one |
| `CfsFairness.WaitIsCovered` | components/axsched/src/cfs.rs:194-212 | from any state, the picks a queued task is passed over are bounded by the ticks the others are ahead |
| `CfsFairness.NoStarvation` | components/axsched/src/cfs.rs:194-212 | from any state a closed run of fresh tasks reaches, a task is passed over at most as often as the weights of the others allow |
| `CfsFairness.StintStep` | components/axsched/src/cfs.rs:209-216 | however stale the cached minimum, a task that runs until its tick asks ends at most 69 above where it or that minimum was |
| `CfsFairness.VariedStep` | components/axsched/src/cfs.rs:71-79 | the same bound on a stint when the running task is given new priorities in between |
| `CfsFairness.SpreadBoundOfTurns` | components/axsched/src/cfs.rs:194-225 | the spread bound of 69 also holds when each task runs until its tick asks, against the minimum cached when the tasks were added, with priorities of queued tasks and of the running one changed along the way |
| `CfsFairness.NoStarvationOfTurns` | components/axsched/src/cfs.rs:194-216 | the waiting bound also holds for whole stints |
| `CfsFairness.HeldForEver` | components/axsched/src/cfs.rs:71-79 | a running task whose priority is set every k ticks is never asked to give way, for ever, if and only if k ticks earn less than one unit at that priority and the first round does not pass the minimum |
| `CfsFairness.HeldLeadsTo` | components/axsched/src/cfs.rs:58-79 | where any number of such rounds leads to, from any task |
| `CfsFairness.ReniceLosesIff` | components/axsched/src/cfs.rs:58-79 | setting a task's own priority again costs between nothing and one unit, nothing for ever if and only if its ticks come to whole units, and earns nothing if and only if they do not come to one |
| `CfsScheduler.CfsTask.constructor` | components/axsched/src/cfs.rs:35-43 | a new task has base, ticks, nice and id zero |
| `CfsScheduler.FiledAtBase` | components/axsched/src/cfs.rs:162-176 | an entry filed under the task's base agrees with the task's own key if and only if its ticks are worth no virtual time |
| `CfsScheduler.CfScheduler.AddTask` | components/axsched/src/cfs.rs:162-176 | base and id are set, the cached minimum is exact, and the task can be found by its own key exactly when its ticks are worth nothing |
| `CfsScheduler.CfScheduler.RemoveTask` | components/axsched/src/cfs.rs:178-192 | removes the entry at the key the task computes now, or changes nothing |
| `CfsScheduler.CfScheduler.PickNextTask` | components/axsched/src/cfs.rs:194-200 | the entry with the least key leaves; the cached minimum stays |
| `CfsScheduler.CfScheduler.PutPrevTask` | components/axsched/src/cfs.rs:202-207 | the task returns under its own key with a fresh id |
| `CfsScheduler.CfScheduler.TaskTick` | components/axsched/src/cfs.rs:209-216 | one tick; reschedule is asked for exactly when others wait and the cached minimum has been passed or is unset |
| `CfsScheduler.CfScheduler.SetPriority` | components/axsched/src/cfs.rs:218-225 | in range it keeps the key, also of a queued task; out of range nothing changes |
| `CfsScheduler.CfScheduler.PickStealableTask` | components/axsched/src/cfs.rs:138-154 | the least key among acceptable tasks leaves and the minimum is exact again; none only if none is acceptable |
| `CfsScheduler.DriveRound` | components/axsched/src/cfs.rs:194-212 | pick, tick and put back on the object is one round of the closed model |
| `CfsScheduler.LostAfterRejoining` | components/axsched/src/cfs.rs:178-192 | a concrete run: new task added, picked, ticked once, added again; removing it finds nothing and it stays queued |
| `CfsScheduler.AddFresh` | components/axsched/src/cfs.rs:162-176 | a new task joins a fresh set at zero and the set stays fresh |
| `CfsScheduler.Fill` | components/axsched/src/cfs.rs:162-176 | a new scheduler filled with new tasks holds a fresh set, so the bounds hold from its start |
| `CfsScheduler.DriveSetPriority` | components/axsched/src/cfs.rs:218-225 | changing the priority of a queued task is that event of the closed model |
| `CfsScheduler.TickUntilAsked` | components/axsched/src/cfs.rs:209-216 | ticking ends, and at the first tick past the cached minimum |
| `CfsScheduler.DriveStint` | components/axsched/src/cfs.rs:194-216 | pick, run until asked, put back on the object is a stint of the closed model |
| `CfsScheduler.RunUntilAsked` | components/axsched/src/cfs.rs:209-225 | ticks and priority changes of the running task, in any planned order, end at the first tick past the cached minimum |
| `CfsScheduler.DriveVariedStint` | components/axsched/src/cfs.rs:194-225 | pick, run with such changes until asked, put back on the object is that stint of the closed model |
| `RoundRobin.EventPays` | components/axsched/src/round_robin.rs:115-144 | no arrival, steal, block, yield or preemption lengthens a wait, and every tick shortens it |
| `RoundRobin.EventKeepsBounded` | components/axsched/src/round_robin.rs:132-144 | no event gives a task more than a full slice |
| `RoundRobin.BoundedWaiting` | components/axsched/src/round_robin.rs:115-144 | a task at index k has run by tick (k+1)*S |
| `RoundRobin.RrScheduler.PutPrevTask` | components/axsched/src/round_robin.rs:132-139 | preempted with slice left it goes to the front, else to the back with a full slice |
| `RoundRobin.RrScheduler.PickNextTask` | components/axsched/src/round_robin.rs:128-130 | the front of the queue is dispatched |
| `RoundRobin.RrScheduler.TaskTick` | components/axsched/src/round_robin.rs:141-144 | one tick off the slice, and a reschedule exactly when it is used up |
| `RoundRobin.RrScheduler.RemoveTask` | components/axsched/src/round_robin.rs:124-126 | the task is cut out, the others keeping their order |
| `RoundRobin.RrScheduler.PickStealableTask` | components/axsched/src/round_robin.rs:100-112 | the first acceptable task leaves, the others keeping their order; none only if none is acceptable |
| `RoundRobin.OnTick` | components/axsched/src/round_robin.rs:132-144 | tick, put back and pick on the object is a tick of the waiting model |
| `RoundRobin.OnReschedule` | components/axsched/src/round_robin.rs:128-139 | put back and pick on the object is a preemption or a yield of the waiting model |
| `RoundRobin.OnArrive` | components/axsched/src/round_robin.rs:120-122 | adding a task, and picking when idle, is an arrival of the waiting model |
| `RoundRobin.OnBlock` | components/axsched/src/round_robin.rs:128-130 | picking for a task that blocks is that event of the waiting model |
| `RoundRobin.OnSteal` | components/axsched/src/round_robin.rs:97-112 | a steal from the object is a departure of the waiting model |
| `Placement.CompareIsPreference` | components/axsched/src/placement.rs:21-34 | the comparator with its cross multiplication is exactly the documented preference over real ratios, equal only on equal candidates |
| `Placement.ProductsFit` | components/axsched/src/placement.rs:25-29 | the products fit 128 bits at any saturation |
| `Placement.NoWorseIsTotal` | components/axsched/src/placement.rs:21-34 | the order is total and antisymmetric |
| `Placement.NoWorseIsTransitive` | components/axsched/src/placement.rs:21-34 | the order is transitive |
| `Placement.SelectionIsBest` | components/axsched/src/placement.rs:16-37 | the chosen processor is a candidate none is better than; none is chosen only from an empty list |
| `Placement.SelectionIgnoresOrder` | components/axsched/src/placement.rs:16-37 | the choice depends on the set of candidates, not on their order |
| `PollQueue.TakeFirst` | components/axpoll-set/src/lib.rs:132-145 | taking the first selected entry and starting over is one step of the one-pass filter |
| `PollQueue.PassTakes` | components/axpoll-set/src/lib.rs:79-92 | a pass takes all matching shared entries, the oldest matching exclusives the budget pays for, and nothing else |
| `PollQueue.PassSplits` | components/axpoll-set/src/lib.rs:124-146 | every entry is taken or kept, both in queue order |
| `PollQueue.PollState.Register` | components/axpoll-set/src/lib.rs:44-67 | a fresh id at the back of the queue, or none when closed or without interests |
| `PollQueue.PollState.Unregister` | components/axpoll-set/src/lib.rs:69-73 | strikes out that entry and no other |
| `PollQueue.PollState.TakeAndWake` | components/axpoll-set/src/lib.rs:85-91 | the entry leaves with its flag set and its waker is called |
| `PollQueue.PollState.WakeWith` | components/axpoll-set/src/lib.rs:124-146 | left alone, the take-one loop wakes exactly the filter's entries in order and keeps the rest |
| `PollQueue.PollState.Close` | components/axpoll-set/src/lib.rs:148-161 | left alone, close wakes all entries in order and leaves none |
| `PollProtocol.StrikeIsWithout` | components/axpoll-set/src/lib.rs:69-73 | cancelling removes the entry with that id and nothing else |
| `PollProtocol.StepKeepsInv` | components/axpoll-set/src/lib.rs:44-180 | every step of every interleaving keeps the queue ordered, leases accounted for, and one waker call per notice |
| `PollProtocol.NeverLostNorNotifiedTwice` | components/axpoll-set/src/lib.rs:44-101 | a registration still held is queued and unnotified, or out and notified with exactly one waker call made or on its way |
| `PollProtocol.QueueStaysInOrder` | components/axpoll-set/src/lib.rs:44-67 | queued ids are distinct, ascending, handed out, and belong to registrations still held |
| `PollProtocol.PassIsBounded` | components/axpoll-set/src/lib.rs:124-146 | a pass wakes in ascending order and takes no more than it found below its boundary, whatever is registered meanwhile |
| `PollProtocol.RemainingWorkFalls` | components/axpoll-set/src/lib.rs:132-145 | each successful take leaves strictly less below the boundary and no step adds to it |
| `PollProtocol.WakeReachesEveryMatch` | components/axpoll-set/src/lib.rs:124-146 | an entry queued when a matching wake begins has been notified or dropped when it returns, unless it is exclusive and the budget is spent |
| `PollProtocol.ClosedQueueStaysEmpty` | components/axpoll-set/src/lib.rs:148-161 | once a close call has returned the queue is empty for good |
| `PollSteps.OnRegister` | components/axpoll-set/src/lib.rs:44-67 | registering on the object is the step of the protocol |
| `PollSteps.OnCancel` | components/axpoll-set/src/lib.rs:69-73 | so is cancelling |
| `PollSteps.PassRuns` | components/axpoll-set/src/lib.rs:124-146 | a wake pass nothing comes between is a run of takes and waker calls that leaves what the one-pass filter leaves and calls what it takes, in order |
| `PollSteps.OnWake` | components/axpoll-set/src/lib.rs:124-146 | an undisturbed wake on the object is such a run of the protocol, and calls exactly the wakers the run delivers, in its order |
| `PollSteps.CloseRuns` | components/axpoll-set/src/lib.rs:148-161 | a close pass nothing comes between is a run that takes and calls every entry, front to back |
| `PollSteps.OnClose` | components/axpoll-set/src/lib.rs:148-161 | an undisturbed close on the object is such a run of the protocol, and calls exactly the wakers the run delivers, in its order |
| `LazyInit.StepKeepsInv` | components/ax-lazyinit/src/lib.rs:58-177 | every atomic step keeps one owner of the initializing state and the cell written at most once |
| `LazyInit.OneInitializerAtATime` | components/ax-lazyinit/src/lib.rs:66-79 | over any run, failures included, at most one call owns the state and the cell is written at most once |
| `LazyInit.PublishedIsFinal` | components/ax-lazyinit/src/lib.rs:76-79 | a published value is there and never changes |
| `LazyInit.OnlyPublishedValuesIff` | components/ax-lazyinit/src/lib.rs:101-177 | over any run, every call that reads the cell reads the published value if and only if none reads it while the byte does not say so |
| `LazyInit.LetThroughWhenPublishedIff` | components/ax-lazyinit/src/lib.rs:82-88 | calls are only ever let through to a published cell if and only if no waiter's second load finds the byte back at initializing |
| `LazyInit.EarlyReadFollowsSlip` | components/ax-lazyinit/src/lib.rs:159-166 | only a call whose second load found the byte back at initializing can read too early |
| `LazyInit.EveryReturnIsPublished` | components/ax-lazyinit/src/lib.rs:101-177 | on any run a call that reads the cell reads the one value ever written, or nothing, and nothing only if it slipped through; without failing initializers always the published value |
| `LazyInit.ReadsNothingIff` | components/ax-lazyinit/src/lib.rs:82-88 | over any run a call comes back with memory never written if and only if it slipped through and read before anybody had written |
| `LazyInit.SlipReadsNothing` | components/ax-lazyinit/src/lib.rs:159-166 | a concrete run with a failing initializer after which a call reads memory never written |
| `Handoff.StepKeepsInv` | benchmarks/starry/wakeup-latency-bench/handoff.c:113-321 | every step of either side, spurious returns included, keeps the two sides' views of the words consistent |
| `Handoff.AlwaysInLockstep` | benchmarks/starry/wakeup-latency-bench/handoff.c:113-135 | done <= gate <= armed <= done+1 always, and no protocol-error exit is reachable |
| `Handoff.NeverBothStuck` | benchmarks/starry/wakeup-latency-bench/handoff.c:167-243 | no wake is lost: until both have finished one side can go on |
| `Handoff.ExchangeEnds` | benchmarks/starry/wakeup-latency-bench/handoff.c:288-321 | a run is bounded by the sample count plus a fixed amount for each spurious return |
| `Handoff.SamplesAddUp` | benchmarks/starry/wakeup-latency-bench/handoff.c:223-241 | at the end valid plus not-parked samples equal the measured count |
| `Handoff.SampleFits` | benchmarks/starry/wakeup-latency-bench/handoff.c:224-226 | every latency is stored inside the sample array |
| `Bytes.FirstZero` | components/axbacktrace/src/lib.rs:415 | the position is that of the first zero byte, and none only if there is none |
| `SymbolMap.LayoutFits` | components/axbacktrace/src/lib.rs:272-283 | the offsets a header describes fit a machine word, so the checked additions never fail |
| `SymbolMap.ValidatedStringsDecode` | components/axbacktrace/src/lib.rs:408-435 | validation accepts exactly the strings that decode later |
| `SymbolMap.HeaderError` | components/axbacktrace/src/lib.rs:244-286 | no complaint exactly for a good header |
| `SymbolMap.RecordError` | components/axbacktrace/src/lib.rs:303-314 | no complaint exactly for a good record that starts at or after the previous end |
| `SymbolMap.CheckedIffGood` | components/axbacktrace/src/lib.rs:301-315 | checking each record against its predecessor is checking every pair |
| `SymbolMap.CheckRecords` | components/axbacktrace/src/lib.rs:301-315 | the loop accepts exactly good tables, else reports the first bad record's complaint |
| `SymbolMap.Parse` | components/axbacktrace/src/lib.rs:243-317 | accepts exactly well-formed images and returns the layout; otherwise the first complaint |
| `SymbolMap.ContainerIsUnique` | components/axbacktrace/src/lib.rs:361-390 | at most one record contains an address, and a scan finds it |
| `SymbolMap.Search` | components/axbacktrace/src/lib.rs:366-389 | binary search finds what a linear scan finds |
| `SymbolMap.Lookup` | components/axbacktrace/src/lib.rs:361-390 | the symbol of the one record containing the address, none exactly when no record does; decoding never fails |
| `ElfSegments.SortSorts` | bootloader/axloader/src/elf.rs:349 | sorting orders by physical address and permutes |
| `ElfSegments.SortKeepsDisjoint` | bootloader/axloader/src/elf.rs:349 | sorting does not affect pairwise disjointness |
| `ElfSegments.NeighboursDecide` | bootloader/axloader/src/elf.rs:350-358 | comparing neighbours of the sorted list, overflow included, decides disjointness of every pair |
| `ElfSegments.AnyNeighboursOverlap` | bootloader/axloader/src/target.rs:37-39 | some adjacent pair overlaps or overflows |
| `ElfSegments.AlignmentIsTight` | bootloader/axloader/src/elf.rs:449-457 | both alignments give the nearest page boundary, or overflow is reported |
| `ElfSegments.Bounds` | bootloader/axloader/src/elf.rs:99-112 | lowest address and highest end, or overflow exactly when some end overflows |
| `ElfSegments.ResolutionIsExecutable` | bootloader/axloader/src/elf.rs:440-447 | a resolved address lies in an executable segment at its virtual offset; none only when no executable segment maps it |
| `ElfImage.CollectLoads` | bootloader/axloader/src/elf.rs:308-344 | the loop returns the load segments in table order exactly when each is in order, else the first complaint |
| `ElfImage.LoadSegments` | bootloader/axloader/src/elf.rs:291-360 | accepts exactly tables whose load segments are in order, present and pairwise disjoint, and returns them sorted |
| `ElfImage.RoomForEntry` | bootloader/axloader/src/elf.rs:406-415 | below the end of a symbol table there is a whole entry, so reading one never fails |
| `ElfImage.ScanTable` | bootloader/axloader/src/elf.rs:413-422 | the value of the first symbol with the name, or none when the table lacks it |
| `ElfImage.FindSymbol` | bootloader/axloader/src/elf.rs:362-425 | the first definition in section order; none when every table lacks it; an error for a malformed table before any definition |
| `ElfImage.SymbolIsUnique` | bootloader/axloader/src/elf.rs:362-425 | a name resolves to at most one value |
| `ElfImage.PlaceSegments` | bootloader/axloader/src/elf.rs:99-120 | all segments lie in a page-aligned span of exactly the reported pages, tight at both ends; refused exactly on overflow |
| `ElfImage.ResolveEntry` | bootloader/axloader/src/elf.rs:122-125 | the entry lies in an executable segment; refused exactly when there is no such symbol mapped |
| `ElfImage.Parse` | bootloader/axloader/src/elf.rs:90-134 | accepted images have sorted, pairwise disjoint segments inside the reported pages and an executable entry; accepted if and only if acceptable |

## Left out

- CarefulRuns.CountersAreConserved: is stated for careful callers, because conservation is false on some legal runs; `Conservation.ConservedThroughoutIff` has the exact condition, `LeakedCharge.RootKeepsCharge` the failing run and `LostCharges.EveryChargeIsAccountedFor` the exact count on all of them.
- CfsFairness.NoStarvation: is stated, like `NoStarvationOfTurns`, for closed sets of tasks that were fresh when added and with priorities fixed during the wait, since `add_task` keeps old ticks and `set_priority` drops fractional progress (`HeldForEver`).
- Machine-integer overflow of pids counters, CFS ticks, round-robin slices, poll ids and handoff sequence numbers; the source guards the last two itself.
- Weak memory orderings: all protocols are sequentially consistent here.
- ChargeSteps.ChargeIsAtomic: leaves out runs that lower a limit under a node just passed, where it is false (`LimitComesTooLate`); some such runs agree with one step all the same, so the condition is not necessary. `CountersCommute`, `EventsCount`, `ReachedInOrder` and `RejectionIsJustified` hold on all of them. Peaks are not compared: node by node they may be higher.
- The transition system of `Membership` charges a path in one step; `ChargeSteps` justifies that for one reserve beside releases and limits, and `PidsCounter` has the single node at the grain of atomic accesses.
- Cgroup namespaces, controller files and the text forms of the counters: lookups and formatting without a law across operations.
- The moment a `ProcessMembership` value is made: here it appears when its fork is published.
- Abort paths, timestamps and failing system calls of the futex handoff: an abort leaves the sequence words as they are.
- The FIFO scheduler and the linked list under the round-robin queue: plain queues.
- UTF-8 itself: the check is a parameter of the symbol map model.
- The kernel symbol table and stack walking in `axbacktrace`: the first repeats the string argument, the second is memory access.
- 32-bit targets of the two binary parsers.
- `components/cpu-local`, `ax-tracepoint`, `axcpu`, `axklib`, the rest of `bootloader/axloader`, the StarryOS and ArceOS kernels, drivers, scripts and applications: not part of this model.
