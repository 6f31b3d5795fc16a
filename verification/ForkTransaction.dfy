/** Fork guards are transactions: a guard that is dropped leaves ledger, pending map,
    members, owners and counters as if it had never begun, whatever ran in between. */
module ForkTransaction {
  import opened CgroupTree
  import opened Membership
  import opened MembershipInvariant
  import opened Conservation

  // ---- The state without one guard ----

  ghost function LedgerWithout(tasks: Ledger, h: Guard): Ledger {
    if h.phase.Published? then tasks - {h.task} else tasks
  }

  ghost function PendingWithout(pending: Pending, h: Guard): Pending {
    if h.Uncommitted() then pending - {h.task} else pending
  }

  ghost function MembersWithout(members: Members, h: Guard): Members {
    if h.kind.Process? && (h.phase.Published? || h.phase.Unlinking?) then members - {(h.cgroup, h.task)} else members
  }

  ghost function OwnersWithout(procs: Owners, h: Guard): Owners {
    if h.kind.Process? && h.phase.Published? then procs - {h.process} else procs
  }

  /** The charge at `n` that exists because of this guard. */
  ghost function Owed(h: Guard, n: Node): int {
    One(h.Owes(n))
  }

  ghost predicate CountersWithout(pids: PidsMap, h: Guard, pids': PidsMap) {
    forall n: Node ::
      && At(pids', n).current == At(pids, n).current - Owed(h, n)
      && At(pids', n).maximum == At(pids, n).maximum
  }

  /** A removal that only gave up because of the guard is still under way without it. */
  ghost predicate Covers(removing: map<Node, Stage>, removing': map<Node, Stage>) {
    forall n :: n in removing ==> n in removing' && removing'[n] == removing[n]
  }

  ghost predicate RecordsWithout(g: GuardId, s: State, e: State) {
    && g in s.guards
    && e.tree == s.tree && e.linked == s.linked && e.pins == s.pins
    && e.tasks == LedgerWithout(s.tasks, s.guards[g])
    && e.pending == PendingWithout(s.pending, s.guards[g])
    && e.members == MembersWithout(s.members, s.guards[g])
    && e.procs == OwnersWithout(s.procs, s.guards[g])
    && e.guards == s.guards - {g}
    && Covers(s.removing, e.removing)
    && e.used <= s.used
  }

  /** `e` is `s` with guard `g` and everything it did taken out; high-water marks and limit
      events are not compared, and a generation once used stays used in `s`. */
  ghost predicate Without(g: GuardId, s: State, e: State) {
    RecordsWithout(g, s, e) && CountersWithout(s.pids, s.guards[g], e.pids)
  }

  ghost predicate SameCounters(pids: PidsMap, pids': PidsMap) {
    forall n: Node :: At(pids', n).current == At(pids, n).current && At(pids', n).maximum == At(pids, n).maximum
  }

  /** Steps of `g` itself. */
  predicate Concerns(op: Op, g: GuardId) {
    (op.Publish? || op.Commit? || op.Drop? || op.DropMember? || op.DropRelease?) && op.g == g
  }

  // ---- The guard's own steps do not show ----

  lemma SameOthers(guards: Guards, g: GuardId, phase: Phase)
    requires g in guards
    ensures SetPhase(guards, g, phase) - {g} == guards - {g}
  {
  }

  lemma OwnPublishRecords(g: GuardId, s: State, e: State)
    requires RecordsWithout(g, s, e) && PublishStep(s, g).1.Ok?
    requires EntryOk(s.guards[g], s.tasks, s.pending, s.used) && HomeOk(s.guards[g], s.procs, s.members)
    ensures RecordsWithout(g, PublishStep(s, g).0, e)
  {
    var h := s.guards[g];
    assert s.tasks[h.task := Task(h.process, h.cgroup)] - {h.task} == s.tasks;
    assert h.kind.Process? ==> s.procs[h.task := Active(h.cgroup)] - {h.process} == s.procs;
    assert h.kind.Process? ==> s.members + {(h.cgroup, h.task)} - {(h.cgroup, h.task)} == s.members;
    assert SetPhase(s.guards, g, Published) - {g} == s.guards - {g};
  }

  lemma OwnDropPrepared(g: GuardId, s: State, e: State)
    requires RecordsWithout(g, s, e) && s.guards[g].phase.Prepared?
    ensures RecordsWithout(g, DropStep(s, g).0, e)
  {
  }

  lemma OwnDropPublished(g: GuardId, s: State, e: State)
    requires RecordsWithout(g, s, e) && s.guards[g].phase.Published?
    ensures RecordsWithout(g, DropStep(s, g).0, e)
  {
  }

  lemma OwnDropMemberRecords(g: GuardId, s: State, e: State)
    requires RecordsWithout(g, s, e) && HomeOk(s.guards[g], s.procs, s.members)
    ensures RecordsWithout(g, DropMemberStep(s, g).0, e)
  {
  }

  /** A guard owes the same charge from `Prepared` to the start of its release. */
  lemma SameDebt(pids: PidsMap, h: Guard, h': Guard, pids': PidsMap)
    requires CountersWithout(pids, h, pids') && h' == h.(phase := h'.phase)
    requires h.phase.Prepared? || h.phase.Published? || h.phase.Unlinking?
    requires h'.phase.Published? || h'.phase.Unlinking? || h'.phase == Releasing(0)
    ensures CountersWithout(pids, h', pids')
  {
  }

  lemma OwnPublish(g: GuardId, s: State, e: State)
    requires Inv(s) && Without(g, s, e)
    ensures Without(g, PublishStep(s, g).0, e)
  {
    if PublishStep(s, g).1.Ok? {
      OwnPublishRecords(g, s, e);
      SameDebt(s.pids, s.guards[g], s.guards[g].(phase := Published), e.pids);
    }
  }

  lemma OwnDrop(g: GuardId, s: State, e: State)
    requires Without(g, s, e)
    ensures Without(g, DropStep(s, g).0, e)
  {
    var h := s.guards[g];
    if h.Uncommitted() {
      if h.phase.Prepared? { OwnDropPrepared(g, s, e); } else { OwnDropPublished(g, s, e); }
      SameDebt(s.pids, h, h.(phase := if h.phase.Published? && h.kind.Process? then Unlinking else Releasing(0)),
        e.pids);
    }
  }

  lemma OwnDropMember(g: GuardId, s: State, e: State)
    requires Inv(s) && Without(g, s, e)
    ensures Without(g, DropMemberStep(s, g).0, e)
  {
    OwnDropMemberRecords(g, s, e);
    if s.guards[g].phase.Unlinking? { SameDebt(s.pids, s.guards[g], s.guards[g].(phase := Releasing(0)), e.pids); }
  }

  lemma ReleasedDebt(pids: PidsMap, h: Guard, pids': PidsMap)
    requires CountersWithout(pids, h, pids') && Distinct(h.path) && h.phase.Releasing? && h.phase.next < |h.path|
    ensures CountersWithout(Uncharge(pids, {h.path[h.phase.next]}, 1), h.(phase := Releasing(h.phase.next + 1)), pids')
  {
  }

  lemma OwnRelease(g: GuardId, s: State, e: State)
    requires Without(g, s, e) && Distinct(s.guards[g].path)
    ensures Without(g, DropReleaseStep(s, g).0, e)
  {
    var h := s.guards[g];
    if h.phase.Releasing? && h.phase.next < |h.path| {
      SameOthers(s.guards, g, Releasing(h.phase.next + 1));
      ReleasedDebt(s.pids, h, e.pids);
    }
  }

  // ---- Other steps run the same without the guard, or do nothing ----

  /** A step that changed no more than peaks and events. */
  lemma NothingHappened(g: GuardId, s: State, s': State, e: State)
    requires Without(g, s, e) && SameCounters(s.pids, s'.pids) && s' == s.(pids := s'.pids)
    ensures Quiet(s, s') && Without(g, s', e)
  {
  }

  lemma LedgerPut(tasks: Ledger, h: Guard, t: ProcessId, task: Task)
    requires t != h.task
    ensures LedgerWithout(tasks[t := task], h) == LedgerWithout(tasks, h)[t := task]
  {
  }

  lemma LedgerTake(tasks: Ledger, h: Guard, t: ProcessId)
    ensures LedgerWithout(tasks - {t}, h) == LedgerWithout(tasks, h) - {t}
  {
  }

  lemma PendingPut(pending: Pending, h: Guard, t: ProcessId, p: ProcessId)
    requires t != h.task
    ensures PendingWithout(pending[t := p], h) == PendingWithout(pending, h)[t := p]
  {
  }

  lemma PendingTake(pending: Pending, h: Guard, t: ProcessId)
    ensures PendingWithout(pending - {t}, h) == PendingWithout(pending, h) - {t}
  {
  }

  lemma OwnersPut(procs: Owners, h: Guard, p: ProcessId, o: Owner)
    requires p != h.process || h.kind.Thread? || !h.phase.Published?
    ensures OwnersWithout(procs[p := o], h) == OwnersWithout(procs, h)[p := o]
  {
  }

  lemma OwnersTake(procs: Owners, h: Guard, p: ProcessId)
    ensures OwnersWithout(procs - {p}, h) == OwnersWithout(procs, h) - {p}
  {
  }

  lemma MembersPut(members: Members, h: Guard, m: (Node, ProcessId))
    requires m != (h.cgroup, h.task) || h.kind.Thread? || !(h.phase.Published? || h.phase.Unlinking?)
    ensures MembersWithout(members + {m}, h) == MembersWithout(members, h) + {m}
  {
  }

  lemma MembersTake(members: Members, h: Guard, m: (Node, ProcessId))
    ensures MembersWithout(members - {m}, h) == MembersWithout(members, h) - {m}
  {
  }

  lemma GuardsPut(guards: Guards, g: GuardId, g2: GuardId, h2: Guard)
    requires g2 != g
    ensures guards[g2 := h2] - {g} == (guards - {g})[g2 := h2]
  {
  }

  lemma ChargeFollows(pids: PidsMap, h: Guard, pids': PidsMap, nodes: set<Node>, k: nat)
    requires CountersWithout(pids, h, pids')
    ensures CountersWithout(Charge(pids, nodes, k), h, Charge(pids', nodes, k))
  {
    forall n: Node
      ensures At(Charge(pids', nodes, k), n).current == At(Charge(pids, nodes, k), n).current - Owed(h, n)
    {
      assert At(pids', n).current == At(pids, n).current - Owed(h, n);
    }
  }

  lemma UnchargeFollows(pids: PidsMap, h: Guard, pids': PidsMap, nodes: set<Node>, k: nat)
    requires CountersWithout(pids, h, pids')
    ensures CountersWithout(Uncharge(pids, nodes, k), h, Uncharge(pids', nodes, k))
  {
    forall n: Node
      ensures At(Uncharge(pids', nodes, k), n).current == At(Uncharge(pids, nodes, k), n).current - Owed(h, n)
    {
      assert At(pids', n).current == At(pids, n).current - Owed(h, n);
    }
  }

  lemma AttachFollows(g: GuardId, s: State, e: State, pid: ProcessId)
    requires Without(g, s, e) && AttachStep(s, pid).1.Ok? && pid != s.guards[g].task && pid != s.guards[g].process
    ensures Without(g, AttachStep(s, pid).0, AttachStep(e, pid).0)
  {
    var h := s.guards[g];
    LedgerPut(s.tasks, h, pid, Task(pid, ROOT));
    OwnersPut(s.procs, h, pid, Active(ROOT));
    MembersPut(s.members, h, (ROOT, pid));
    ChargeFollows(s.pids, h, e.pids, Elements(Ancestry(s.tree, ROOT)), 1);
  }

  lemma BeginFollows(g: GuardId, s: State, e: State, g2: GuardId, target: Node, process: ProcessId, t: ProcessId,
        kind: ChildKind)
    requires Without(g, s, e) && g2 != g && BeginAt(s, g2, target, process, t, kind).1.Ok? && t != s.guards[g].task
    ensures Without(g, BeginAt(s, g2, target, process, t, kind).0, BeginAt(e, g2, target, process, t, kind).0)
  {
    var h := s.guards[g];
    var path := Ancestry(s.tree, target);
    LessRefuses(s.pids, h, e.pids, path);
    PendingPut(s.pending, h, t, if kind.Process? then t else process);
    GuardsPut(s.guards, g, g2, Guard(target, t, if kind.Process? then t else process, kind, path, Prepared));
    ChargeFollows(s.pids, h, e.pids, Elements(path), 1);
  }

  /** Without the guard's charge no node refuses that did not refuse with it. */
  lemma LessRefuses(pids: PidsMap, h: Guard, pids': PidsMap, path: seq<Node>)
    requires CountersWithout(pids, h, pids') && FirstRefusal(pids, path) == |path|
    ensures FirstRefusal(pids', path) == |path|
  {
  }

  lemma PublishStaysPossible(g: GuardId, s: State, e: State, g2: GuardId)
    requires RecordsWithout(g, s, e) && g2 in s.guards && g2 != g && PublishStep(s, g2).1.Ok?
    requires s.guards[g].Uncommitted() ==> s.guards[g2].task != s.guards[g].task
    ensures g2 in e.guards && e.guards[g2] == s.guards[g2] && PublishStep(e, g2).1.Ok?
  {
  }

  lemma PublishFollowsRecords(g: GuardId, s: State, e: State, g2: GuardId)
    requires RecordsWithout(g, s, e) && g2 in s.guards && g2 != g && PublishStep(s, g2).1.Ok?
    requires s.guards[g].Uncommitted() ==> s.guards[g2].task != s.guards[g].task
    requires s.guards[g].kind.Process? && s.guards[g2].kind.Process? ==>
      s.guards[g2].task != s.guards[g].task && s.guards[g2].task != s.guards[g].process
    ensures RecordsWithout(g, PublishStep(s, g2).0, PublishStep(e, g2).0)
  {
    var h, h2 := s.guards[g], s.guards[g2];
    PublishStaysPossible(g, s, e, g2);
    if h.phase.Published? { LedgerPut(s.tasks, h, h2.task, Task(h2.process, h2.cgroup)); }
    if h2.kind.Process? {
      OwnersPut(s.procs, h, h2.task, Active(h2.cgroup));
      MembersPut(s.members, h, (h2.cgroup, h2.task));
    }
    GuardsPut(s.guards, g, g2, h2.(phase := Published));
  }

  lemma PublishFollows(g: GuardId, s: State, e: State, g2: GuardId)
    requires Without(g, s, e) && g2 in s.guards && g2 != g && PublishStep(s, g2).1.Ok?
    requires s.guards[g].Uncommitted() ==> s.guards[g2].task != s.guards[g].task
    requires s.guards[g].kind.Process? && s.guards[g2].kind.Process? ==>
      s.guards[g2].task != s.guards[g].task && s.guards[g2].task != s.guards[g].process
    ensures Without(g, PublishStep(s, g2).0, PublishStep(e, g2).0)
  {
    PublishFollowsRecords(g, s, e, g2);
    assert PublishStep(s, g2).0.pids == s.pids && PublishStep(e, g2).0.pids == e.pids;
  }

  lemma CommitFollows(g: GuardId, s: State, e: State, g2: GuardId)
    requires Without(g, s, e) && g2 in s.guards && g2 != g
    ensures Without(g, CommitStep(s, g2).0, CommitStep(e, g2).0)
  {
  }

  lemma DropPreparedFollows(g: GuardId, s: State, e: State, g2: GuardId)
    requires Without(g, s, e) && g2 in s.guards && g2 != g && !s.guards[g2].phase.Published?
    ensures Without(g, DropStep(s, g2).0, DropStep(e, g2).0)
  {
    PendingTake(s.pending, s.guards[g], s.guards[g2].task);
    GuardsPut(s.guards, g, g2, s.guards[g2].(phase := Releasing(0)));
  }

  lemma DropThreadFollows(g: GuardId, s: State, e: State, g2: GuardId)
    requires Without(g, s, e) && g2 in s.guards && g2 != g && s.guards[g2].phase.Published? && s.guards[g2].kind.Thread?
    ensures Without(g, DropStep(s, g2).0, DropStep(e, g2).0)
  {
  }

  lemma DropProcessFollows(g: GuardId, s: State, e: State, g2: GuardId)
    requires Without(g, s, e) && g2 in s.guards && g2 != g && s.guards[g2].phase.Published?
    requires s.guards[g2].kind.Process?
    ensures Without(g, DropStep(s, g2).0, DropStep(e, g2).0)
  {
    var h, h2 := s.guards[g], s.guards[g2];
    PendingTake(s.pending, h, h2.task);
    LedgerTake(s.tasks, h, h2.task);
    OwnersTake(s.procs, h, h2.process);
    GuardsPut(s.guards, g, g2, h2.(phase := Unlinking));
  }

  lemma DropFollows(g: GuardId, s: State, e: State, g2: GuardId)
    requires Without(g, s, e) && g2 in s.guards && g2 != g
    ensures Without(g, DropStep(s, g2).0, DropStep(e, g2).0)
  {
    if !s.guards[g2].phase.Published? { DropPreparedFollows(g, s, e, g2); }
    else if s.guards[g2].kind.Process? { DropProcessFollows(g, s, e, g2); }
    else { DropThreadFollows(g, s, e, g2); }
  }

  lemma UnlinkedFollows(g: GuardId, s: State, e: State, g2: GuardId)
    requires RecordsWithout(g, s, e) && g2 in s.guards && g2 != g && s.guards[g2].phase.Unlinking?
    ensures RecordsWithout(g, DropMemberStep(s, g2).0, DropMemberStep(e, g2).0)
  {
    MembersTake(s.members, s.guards[g], (s.guards[g2].cgroup, s.guards[g2].task));
    GuardsPut(s.guards, g, g2, s.guards[g2].(phase := Releasing(0)));
  }

  lemma DropMemberFollows(g: GuardId, s: State, e: State, g2: GuardId)
    requires Without(g, s, e) && g2 in s.guards && g2 != g
    ensures Without(g, DropMemberStep(s, g2).0, DropMemberStep(e, g2).0)
  {
    if s.guards[g2].phase.Unlinking? { UnlinkedFollows(g, s, e, g2); }
  }

  lemma ReleaseFollows(g: GuardId, s: State, e: State, g2: GuardId)
    requires Without(g, s, e) && g2 in s.guards && g2 != g
    ensures Without(g, DropReleaseStep(s, g2).0, DropReleaseStep(e, g2).0)
  {
    var h2 := s.guards[g2];
    if h2.phase.Releasing? && h2.phase.next < |h2.path| {
      UnchargeFollows(s.pids, s.guards[g], e.pids, {h2.path[h2.phase.next]}, 1);
      GuardsPut(s.guards, g, g2, h2.(phase := Releasing(h2.phase.next + 1)));
    }
  }

  /** `p` is not the process that this guard is forking. */
  ghost predicate NotForked(h: Guard, p: ProcessId) {
    h.kind.Process? && (h.phase.Published? || h.phase.Unlinking?) ==> p != h.process && p != h.task
  }

  lemma SameOwner(g: GuardId, s: State, e: State, p: ProcessId, t: ProcessId)
    requires Without(g, s, e) && NotForked(s.guards[g], p) && (s.guards[g].phase.Published? ==> t != s.guards[g].task)
    ensures p in s.procs ==> p in e.procs && e.procs[p] == s.procs[p]
    ensures t in s.tasks ==> t in e.tasks && e.tasks[t] == s.tasks[t]
  {
  }

  lemma SameTasksOf(g: GuardId, s: State, e: State, p: ProcessId)
    requires Without(g, s, e) && (s.guards[g].phase.Published? ==> s.guards[g].task !in TasksOf(s, p))
    ensures TasksOf(e, p) == TasksOf(s, p)
    ensures forall t :: t in TasksOf(s, p) ==> e.tasks[t] == s.tasks[t]
    ensures !HasPending(s, p) ==> !HasPending(e, p)
  {
  }

  lemma MovedWithout(tasks: Ledger, h: Guard, p: ProcessId, target: Node)
    ensures LedgerWithout(Moved(tasks, p, target), h) == Moved(LedgerWithout(tasks, h), p, target)
  {
  }

  lemma MoveFollowsCounters(g: GuardId, s: State, e: State, gained: set<Node>, lost: set<Node>, k: nat)
    requires Without(g, s, e)
    ensures CountersWithout(Uncharge(Charge(s.pids, gained, k), lost, k), s.guards[g],
      Uncharge(Charge(e.pids, gained, k), lost, k))
  {
    ChargeFollows(s.pids, s.guards[g], e.pids, gained, k);
    UnchargeFollows(Charge(s.pids, gained, k), s.guards[g], Charge(e.pids, gained, k), lost, k);
  }

  lemma MoveStays(g: GuardId, s: State, e: State, p: ProcessId, target: Node)
    requires Without(g, s, e) && Moves(s, p, target) && NotForked(s.guards[g], p)
    requires s.guards[g].phase.Published? ==> s.guards[g].task !in TasksOf(s, p)
    ensures Moves(e, p, target) && e.procs[p] == s.procs[p] && TasksOf(e, p) == TasksOf(s, p)
  {
    SameTasksOf(g, s, e, p);
    var t :| t in TasksOf(s, p);
    SameOwner(g, s, e, p, t);
  }

  lemma MoveRelocates(s: State, p: ProcessId, target: Node)
    requires Moves(s, p, target)
    ensures MigrateStep(s, p, target) == Relocate(s, p, s.procs[p].node, target) && MigrateStep(s, p, target).1.Ok?
  {
  }

  lemma RelocateFollows(g: GuardId, s: State, e: State, p: ProcessId, home: Node, target: Node)
    requires Without(g, s, e) && NotForked(s.guards[g], p) && TasksOf(e, p) == TasksOf(s, p)
    requires Relocate(s, p, home, target).1.Ok? && Relocate(e, p, home, target).1.Ok?
    ensures Without(g, Relocate(s, p, home, target).0, Relocate(e, p, home, target).0)
  {
    var h := s.guards[g];
    var gained := Elements(Ancestry(s.tree, target)) - Elements(Ancestry(s.tree, home));
    var lost := Elements(Ancestry(s.tree, home)) - Elements(Ancestry(s.tree, target));
    MoveFollowsCounters(g, s, e, gained, lost, |TasksOf(s, p)|);
    MovedWithout(s.tasks, h, p, target);
    OwnersPut(s.procs, h, p, Active(target));
    MembersTake(s.members, h, (home, p));
    MembersPut(s.members - {(home, p)}, h, (target, p));
  }

  lemma MigrateFollows(g: GuardId, s: State, e: State, p: ProcessId, target: Node)
    requires Without(g, s, e) && Moves(s, p, target) && NotForked(s.guards[g], p)
    requires s.guards[g].phase.Published? ==> s.guards[g].task !in TasksOf(s, p)
    ensures Without(g, MigrateStep(s, p, target).0, MigrateStep(e, p, target).0)
  {
    MoveStays(g, s, e, p, target);
    MoveRelocates(s, p, target);
    MoveRelocates(e, p, target);
    RelocateFollows(g, s, e, p, s.procs[p].node, target);
  }

  lemma ExitStillTakes(g: GuardId, s: State, e: State, p: ProcessId, t: ProcessId, exit: ExitKind)
    requires Without(g, s, e) && ExitTakes(s, p, t, exit) && NotForked(s.guards[g], p)
    requires s.guards[g].phase.Published? ==> t != s.guards[g].task
    ensures ExitTakes(e, p, t, exit) && e.procs[p] == s.procs[p]
  {
    SameOwner(g, s, e, p, t);
    if exit.LastProcessTask? { SameTasksOf(g, s, e, p); }
  }

  ghost function Departed(s: State, p: ProcessId, node: Node, exit: ExitKind): State {
    if exit.LastProcessTask? then s.(procs := s.procs[p := Exited(node)], members := s.members - {(node, p)}) else s
  }

  lemma ExitResult(s: State, p: ProcessId, t: ProcessId, exit: ExitKind)
    requires ExitTakes(s, p, t, exit)
    ensures
      var node := s.procs[p].node;
      var released := Uncharge(s.pids, Elements(Ancestry(s.tree, node)), 1);
      ExitStep(s, p, t, exit).0 == Departed(s.(tasks := s.tasks - {t}), p, node, exit).(pids := released)
  {
  }

  lemma ThreadExitFollows(g: GuardId, s: State, e: State, t: ProcessId)
    requires RecordsWithout(g, s, e)
    ensures RecordsWithout(g, s.(tasks := s.tasks - {t}), e.(tasks := e.tasks - {t}))
  {
    LedgerTake(s.tasks, s.guards[g], t);
  }

  lemma ProcessExitFollows(g: GuardId, s: State, e: State, p: ProcessId, node: Node)
    requires RecordsWithout(g, s, e) && NotForked(s.guards[g], p)
    ensures RecordsWithout(g,
      s.(procs := s.procs[p := Exited(node)], members := s.members - {(node, p)}),
      e.(procs := e.procs[p := Exited(node)], members := e.members - {(node, p)}))
  {
    OwnersPut(s.procs, s.guards[g], p, Exited(node));
    MembersTake(s.members, s.guards[g], (node, p));
  }

  lemma ExitFollows(g: GuardId, s: State, e: State, p: ProcessId, t: ProcessId, exit: ExitKind)
    requires Without(g, s, e) && ExitTakes(s, p, t, exit) && NotForked(s.guards[g], p)
    requires s.guards[g].phase.Published? ==> t != s.guards[g].task
    ensures Without(g, ExitStep(s, p, t, exit).0, ExitStep(e, p, t, exit).0)
  {
    var node := s.procs[p].node;
    ExitStillTakes(g, s, e, p, t, exit);
    ExitResult(s, p, t, exit);
    ExitResult(e, p, t, exit);
    ThreadExitFollows(g, s, e, t);
    if exit.LastProcessTask? {
      ProcessExitFollows(g, s.(tasks := s.tasks - {t}), e.(tasks := e.tasks - {t}), p, node);
    }
    UnchargeFollows(s.pids, s.guards[g], e.pids, Elements(Ancestry(s.tree, node)), 1);
  }

  lemma RenameFollows(g: GuardId, s: State, e: State, p: ProcessId, t: ProcessId, u: ProcessId)
    requires Without(g, s, e) && RenameStep(s, p, t, u).1.Ok? && NotForked(s.guards[g], p)
    requires s.guards[g].phase.Published? ==> t != s.guards[g].task && u != s.guards[g].task
    ensures Without(g, RenameStep(s, p, t, u).0, RenameStep(e, p, t, u).0)
  {
    var h := s.guards[g];
    SameOwner(g, s, e, p, t);
    LedgerTake(s.tasks, h, t);
    if h.phase.Published? { LedgerPut(s.tasks - {t}, h, u, s.tasks[t]); }
  }

  lemma UnlinkFollows(g: GuardId, s: State, e: State, s': State, e': State)
    requires Without(g, s, e) && s' == s.(linked := s'.linked, removing := s'.removing)
    requires e' == e.(linked := s'.linked, removing := e'.removing) && Covers(s'.removing, e'.removing)
    ensures Without(g, s', e')
  {
  }

  lemma StartRemoveFollows(g: GuardId, s: State, e: State, n: Node)
    requires Without(g, s, e) && StartRemoveStep(s, n).1.Ok?
    ensures Without(g, StartRemoveStep(s, n).0, StartRemoveStep(e, n).0)
  {
    UnlinkFollows(g, s, e, StartRemoveStep(s, n).0, StartRemoveStep(e, n).0);
  }

  lemma CheckMembersFollows(g: GuardId, s: State, e: State, n: Node)
    requires Without(g, s, e) && CheckMembersStep(s, n).1.Ok?
    ensures Without(g, CheckMembersStep(s, n).0, CheckMembersStep(e, n).0)
  {
    UnlinkFollows(g, s, e, CheckMembersStep(s, n).0, CheckMembersStep(e, n).0);
  }

  lemma FinishRemoveFollows(g: GuardId, s: State, e: State, n: Node)
    requires Without(g, s, e) && FinishRemoveStep(s, n).1.Ok?
    ensures Without(g, FinishRemoveStep(s, n).0, FinishRemoveStep(e, n).0)
  {
    UnlinkFollows(g, s, e, FinishRemoveStep(s, n).0, FinishRemoveStep(e, n).0);
  }

  lemma RemoveFollows(g: GuardId, s: State, e: State, op: Op)
    requires Without(g, s, e) && IsRemoval(op) && RemovalLegal(s, op) && RemovalStep(s, op).1.Ok?
    ensures RemovalLegal(e, op) && Without(g, RemovalStep(s, op).0, RemovalStep(e, op).0)
  {
    if op.StartRemove? { StartRemoveFollows(g, s, e, op.node); }
    else if op.CheckMembers? { CheckMembersFollows(g, s, e, op.node); }
    else { FinishRemoveFollows(g, s, e, op.node); }
  }

  lemma ReclaimFollows(g: GuardId, s: State, e: State, n: Node)
    requires Without(g, s, e) && n != ROOT && Unowned(s, n)
    ensures Unowned(e, n) && Without(g, ReclaimStep(s, n).0, ReclaimStep(e, n).0)
  {
  }

  lemma CreateFollows(g: GuardId, s: State, e: State, under: Node, n: Node)
    requires Without(g, s, e) && under in s.tree.alive && !IsNode(s.tree, n) && under < n && n !in s.guards[g].path
    ensures Without(g, CreateStep(s, under, n).0, CreateStep(e, under, n).0)
  {
  }

  lemma TreeStepFollows(g: GuardId, s: State, e: State, op: Op)
    requires Without(g, s, e) && IsTreeOp(op) && TreeLegal(s, op)
    requires op.CreateChild? ==> op.node !in s.guards[g].path
    ensures TreeLegal(e, op) && Without(g, TreeStep(s, op).0, TreeStep(e, op).0)
  {
    if op.CreateChild? { CreateFollows(g, s, e, op.under, op.node); }
    else if op.Reclaim? { ReclaimFollows(g, s, e, op.node); }
  }

  // ---- One step, with and without the guard ----

  /** Nothing but high-water marks and limit events changed, apart from a removal that gave up:
      the step was refused or had nothing to do. */
  ghost predicate Quiet(s: State, s': State) {
    && s' == s.(pids := s'.pids, removing := s'.removing)
    && SameCounters(s.pids, s'.pids) && Covers(s'.removing, s.removing)
  }

  /** The new state `s'` is either quiet and still `e` without `g`, or `e'` without `g`. */
  ghost predicate Either(g: GuardId, s: State, s': State, e: State, e': State) {
    (Quiet(s, s') && Without(g, s', e)) || Without(g, s', e')
  }

  /** The same step is legal in the state without `g`, and either it was a quiet one or it leads
      there to the new state without `g`. */
  ghost predicate Mirrored(g: GuardId, s: State, s': State, e: State, op: Op) {
    Legal(e, op) && Either(g, s, s', e, Step(e, op).0)
  }

  lemma Facts(g: GuardId, s: State)
    requires Inv(s) && g in s.guards
    ensures EntryOk(s.guards[g], s.tasks, s.pending, s.used) && HomeOk(s.guards[g], s.procs, s.members)
    ensures SoleTask(s.guards[g], s.tasks, s.pending) && PathOk(s.tree, s.guards[g])
  {
  }

  lemma TaskNotForked(g: GuardId, s: State, t: ProcessId)
    requires Inv(s) && g in s.guards && t in s.tasks && t !in s.pending
    ensures NotForked(s.guards[g], s.tasks[t].process) && (s.guards[g].phase.Published? ==> t != s.guards[g].task)
  {
  }

  lemma CanStillRun(g: GuardId, s: State, e: State, p: ProcessId)
    requires Inv(s) && Without(g, s, e) && CanRun(s, p)
    ensures CanRun(e, p) && (p in s.procs ==> p in e.procs && e.procs[p] == s.procs[p])
  {
    var t :| t in s.tasks && t !in s.pending && s.tasks[t].process == p;
    TaskNotForked(g, s, t);
    SameOwner(g, s, e, p, t);
  }

  lemma RefusedKeepsCounters(tree: Tree, pids: PidsMap, below: set<Node>, above: set<Node>)
    ensures SameCounters(pids, Refused(tree, pids, below, above))
  {
  }

  lemma RefusedForkKeepsCounters(s: State, g: GuardId, target: Node, process: ProcessId, t: ProcessId, kind: ChildKind)
    requires BeginAt(s, g, target, process, t, kind).1.Err?
    ensures SameCounters(s.pids, BeginAt(s, g, target, process, t, kind).0.pids)
  {
    var path := Ancestry(s.tree, target);
    var i := FirstRefusal(s.pids, path);
    RefusedKeepsCounters(s.tree, s.pids, Elements(path[..i]), Elements(path[i..]));
  }

  lemma BeginMirrored(g: GuardId, s: State, e: State, g2: GuardId, target: Node, process: ProcessId, t: ProcessId,
        kind: ChildKind)
    requires Inv(s) && Without(g, s, e) && g2 !in s.guards && t !in s.used
    ensures
      var s' := BeginAt(s, g2, target, process, t, kind).0;
      Either(g, s, s', e, BeginAt(e, g2, target, process, t, kind).0)
  {
    if BeginAt(s, g2, target, process, t, kind).1.Ok? {
      Facts(g, s);
      BeginFollows(g, s, e, g2, target, process, t, kind);
    } else {
      RefusedForkKeepsCounters(s, g2, target, process, t, kind);
      NothingHappened(g, s, BeginAt(s, g2, target, process, t, kind).0, e);
    }
  }

  lemma AttachMirrored(g: GuardId, s: State, e: State, pid: ProcessId)
    requires Inv(s) && Without(g, s, e) && pid !in s.used
    ensures Without(g, AttachStep(s, pid).0, AttachStep(e, pid).0)
  {
    Facts(g, s);
    assert (ROOT, pid) !in s.members;
    AttachFollows(g, s, e, pid);
  }

  lemma BeginTaskMirrored(g: GuardId, s: State, e: State, g2: GuardId, p: ProcessId, t: ProcessId, kind: ChildKind)
    requires Inv(s) && Without(g, s, e) && g2 !in s.guards && t !in s.used && CanRun(s, p)
    ensures CanRun(e, p)
    ensures
      var s' := BeginTaskStep(s, g2, p, t, kind).0;
      Either(g, s, s', e, BeginTaskStep(e, g2, p, t, kind).0)
  {
    CanStillRun(g, s, e, p);
    if p in s.procs && s.procs[p].Active? {
      BeginMirrored(g, s, e, g2, s.procs[p].node, p, t, kind);
    }
  }

  lemma ForkMirrored(g: GuardId, s: State, e: State, op: Op)
    requires Inv(s) && Without(g, s, e) && IsForkOp(op) && ForkLegal(s, op)
    ensures ForkLegal(e, op) && Either(g, s, ForkStep(s, op).0, e, ForkStep(e, op).0)
  {
    if op.Attach? { AttachMirrored(g, s, e, op.pid); }
    else if op.BeginProcessAt? { BeginMirrored(g, s, e, op.g, op.target, op.task, op.task, Process); }
    else { BeginTaskMirrored(g, s, e, op.g, op.process, op.task, op.kind); }
  }

  lemma PublishMirrored(g: GuardId, s: State, e: State, g2: GuardId)
    requires Inv(s) && Without(g, s, e) && g2 in s.guards && g2 != g
    ensures Either(g, s, PublishStep(s, g2).0, e, PublishStep(e, g2).0)
  {
    Facts(g, s);
    Facts(g2, s);
    if PublishStep(s, g2).1.Ok? { PublishFollows(g, s, e, g2); }
  }

  lemma SettleMirrored(g: GuardId, s: State, e: State, op: Op)
    requires Without(g, s, e) && IsGuardOp(op) && GuardLegal(s, op) && !op.Publish? && op.g != g
    ensures GuardLegal(e, op) && Without(g, GuardStep(s, op).0, GuardStep(e, op).0)
  {
    if op.Commit? { CommitFollows(g, s, e, op.g); }
    else if op.Drop? { DropFollows(g, s, e, op.g); }
    else if op.DropMember? { DropMemberFollows(g, s, e, op.g); }
    else { ReleaseFollows(g, s, e, op.g); }
  }

  lemma GuardMirrored(g: GuardId, s: State, e: State, op: Op)
    requires Inv(s) && Without(g, s, e) && IsGuardOp(op) && GuardLegal(s, op) && op.g != g
    ensures GuardLegal(e, op) && Either(g, s, GuardStep(s, op).0, e, GuardStep(e, op).0)
  {
    if op.Publish? { PublishMirrored(g, s, e, op.g); } else { SettleMirrored(g, s, e, op); }
  }

  lemma UnmovedKeepsCounters(s: State, p: ProcessId, home: Node, target: Node)
    requires Relocate(s, p, home, target).1.Err?
    ensures SameCounters(s.pids, Relocate(s, p, home, target).0.pids)
  {
    UndoneCounters(s.pids, Elements(Ancestry(s.tree, target)) - Elements(Ancestry(s.tree, home)), |TasksOf(s, p)|);
  }

  lemma UndoneCounters(pids: PidsMap, nodes: set<Node>, k: nat)
    ensures SameCounters(pids, Uncharge(Charge(pids, nodes, k), nodes, k))
  {
  }

  lemma NoMoveKeepsCounters(s: State, p: ProcessId, target: Node)
    requires !Moves(s, p, target)
    ensures SameCounters(s.pids, MigrateStep(s, p, target).0.pids)
  {
    if MigrateStep(s, p, target).0 != s { UnmovedKeepsCounters(s, p, s.procs[p].node, target); }
  }

  lemma MigrateMirrored(g: GuardId, s: State, e: State, p: ProcessId, target: Node)
    requires Inv(s) && Without(g, s, e)
    ensures Either(g, s, MigrateStep(s, p, target).0, e, MigrateStep(e, p, target).0)
  {
    if Moves(s, p, target) {
      Facts(g, s);
      NoForkInFlight(s, p);
      MigrateFollows(g, s, e, p, target);
    } else {
      NoMoveKeepsCounters(s, p, target);
      NothingHappened(g, s, MigrateStep(s, p, target).0, e);
    }
  }

  lemma ExitMirrored(g: GuardId, s: State, e: State, p: ProcessId, t: ProcessId, exit: ExitKind)
    requires Inv(s) && Without(g, s, e) && t !in s.pending && (exit.LastProcessTask? ==> t in s.tasks)
    ensures t in s.tasks ==> t in e.tasks
    ensures Either(g, s, ExitStep(s, p, t, exit).0, e, ExitStep(e, p, t, exit).0)
  {
    if t in s.tasks {
      TaskNotForked(g, s, t);
      SameOwner(g, s, e, s.tasks[t].process, t);
    }
    if ExitTakes(s, p, t, exit) {
      ExitFollows(g, s, e, p, t, exit);
    } else {
      ExitStays(s, p, t, exit);
    }
  }

  lemma ExitStays(s: State, p: ProcessId, t: ProcessId, exit: ExitKind)
    requires !ExitTakes(s, p, t, exit) && (exit.LastProcessTask? ==> t in s.tasks)
    ensures ExitStep(s, p, t, exit).0 == s
  {
  }

  lemma RenameMirrored(g: GuardId, s: State, e: State, p: ProcessId, t: ProcessId, u: ProcessId)
    requires Inv(s) && Without(g, s, e) && t !in s.pending
    ensures Either(g, s, RenameStep(s, p, t, u).0, e, RenameStep(e, p, t, u).0)
  {
    if RenameStep(s, p, t, u).1.Ok? {
      Facts(g, s);
      TaskNotForked(g, s, t);
      RenameFollows(g, s, e, p, t, u);
    }
  }

  lemma ReapedStillThere(g: GuardId, s: State, e: State, p: ProcessId)
    requires RecordsWithout(g, s, e) && HomeOk(s.guards[g], s.procs, s.members) && p in s.procs && s.procs[p].Exited?
    ensures p in e.procs && e.procs[p] == s.procs[p]
  {
  }

  lemma ReapFollows(g: GuardId, s: State, e: State, p: ProcessId)
    requires Without(g, s, e)
    ensures Without(g, ReapStep(s, p).0, ReapStep(e, p).0)
  {
    OwnersTake(s.procs, s.guards[g], p);
  }

  lemma ReapMirrored(g: GuardId, s: State, e: State, p: ProcessId)
    requires Inv(s) && Without(g, s, e) && p in s.procs && s.procs[p].Exited?
    ensures p in e.procs && e.procs[p] == s.procs[p] && Without(g, ReapStep(s, p).0, ReapStep(e, p).0)
  {
    Facts(g, s);
    ReapedStillThere(g, s, e, p);
    ReapFollows(g, s, e, p);
  }

  lemma TaskMirrored(g: GuardId, s: State, e: State, op: Op)
    requires Inv(s) && Without(g, s, e) && IsTaskOp(op) && TaskLegal(s, op)
    ensures TaskLegal(e, op) && Either(g, s, TaskStep(s, op).0, e, TaskStep(e, op).0)
  {
    if op.Migrate? { MigrateMirrored(g, s, e, op.process, op.target); }
    else if op.Exit? { ExitMirrored(g, s, e, op.process, op.task, op.exit); }
    else if op.Rename? { RenameMirrored(g, s, e, op.process, op.task, op.newTask); }
    else { ReapMirrored(g, s, e, op.process); }
  }

  lemma RemovalMirrored(g: GuardId, s: State, e: State, op: Op)
    requires Without(g, s, e) && IsRemoval(op) && RemovalLegal(s, op)
    ensures RemovalLegal(e, op) && Either(g, s, RemovalStep(s, op).0, e, RemovalStep(e, op).0)
  {
    if RemovalStep(s, op).1.Ok? { RemoveFollows(g, s, e, op); }
  }

  lemma TreeMirrored(g: GuardId, s: State, e: State, op: Op)
    requires Inv(s) && Without(g, s, e) && IsTreeOp(op) && TreeLegal(s, op)
    ensures TreeLegal(e, op) && Either(g, s, TreeStep(s, op).0, e, TreeStep(e, op).0)
  {
    if op.CreateChild? && op.node in s.guards[g].path {
      Facts(g, s);
      AncestorsAreNodes(s.tree, s.guards[g].cgroup, op.node);
    }
    TreeStepFollows(g, s, e, op);
  }

  lemma OwnStepHidden(g: GuardId, s: State, e: State, op: Op)
    requires Inv(s) && Without(g, s, e) && Concerns(op, g) && GuardLegal(s, op) && !op.Commit?
    ensures Without(g, GuardStep(s, op).0, e)
  {
    match op
    case Publish(_) => OwnPublish(g, s, e);
    case Drop(_) => OwnDrop(g, s, e);
    case DropMember(_) => OwnDropMember(g, s, e);
    case DropRelease(_) => Facts(g, s); OwnRelease(g, s, e);
  }

  lemma GuardLifts(g: GuardId, s: State, e: State, op: Op)
    requires IsGuardOp(op) && GuardLegal(s, op) && GuardLegal(e, op)
    requires Either(g, s, GuardStep(s, op).0, e, GuardStep(e, op).0)
    ensures Mirrored(g, s, Step(s, op).0, e, op)
  {
  }

  lemma GuardOpMirrored(g: GuardId, s: State, e: State, op: Op)
    requires Inv(s) && Without(g, s, e) && IsGuardOp(op) && Legal(s, op) && !Concerns(op, g)
    ensures Mirrored(g, s, Step(s, op).0, e, op)
  {
    GuardMirrored(g, s, e, op);
    GuardLifts(g, s, e, op);
  }

  lemma TaskLifts(g: GuardId, s: State, e: State, op: Op)
    requires IsTaskOp(op) && TaskLegal(s, op) && TaskLegal(e, op)
    requires Either(g, s, TaskStep(s, op).0, e, TaskStep(e, op).0)
    ensures Legal(s, op) && Mirrored(g, s, Step(s, op).0, e, op)
  {
  }

  lemma TaskOpMirrored(g: GuardId, s: State, e: State, op: Op)
    requires Inv(s) && Without(g, s, e) && IsTaskOp(op) && TaskLegal(s, op)
    ensures Legal(s, op) && Mirrored(g, s, Step(s, op).0, e, op)
  {
    TaskMirrored(g, s, e, op);
    TaskLifts(g, s, e, op);
  }

  lemma ForkLifts(g: GuardId, s: State, e: State, op: Op)
    requires IsForkOp(op) && ForkLegal(s, op) && ForkLegal(e, op)
    requires Either(g, s, ForkStep(s, op).0, e, ForkStep(e, op).0)
    ensures Mirrored(g, s, Step(s, op).0, e, op)
  {
  }

  lemma ForkOpMirrored(g: GuardId, s: State, e: State, op: Op)
    requires Inv(s) && Without(g, s, e) && IsForkOp(op) && Legal(s, op)
    ensures Mirrored(g, s, Step(s, op).0, e, op)
  {
    ForkMirrored(g, s, e, op);
    ForkLifts(g, s, e, op);
  }

  lemma RemovalOpMirrored(g: GuardId, s: State, e: State, op: Op)
    requires Without(g, s, e) && IsRemoval(op) && Legal(s, op)
    ensures Mirrored(g, s, Step(s, op).0, e, op)
  {
    RemovalMirrored(g, s, e, op);
  }

  lemma StepMirrored(g: GuardId, s: State, e: State, op: Op)
    requires Inv(s) && Without(g, s, e) && Legal(s, op) && !Concerns(op, g)
    ensures Mirrored(g, s, Step(s, op).0, e, op)
  {
    if IsGuardOp(op) { GuardOpMirrored(g, s, e, op); }
    else if IsTaskOp(op) { TaskOpMirrored(g, s, e, op); }
    else if IsForkOp(op) { ForkOpMirrored(g, s, e, op); }
    else if IsRemoval(op) { RemovalOpMirrored(g, s, e, op); }
    else { TreeMirrored(g, s, e, op); }
  }

  lemma OwnOpHidden(g: GuardId, s: State, e: State, op: Op)
    requires Inv(s) && Without(g, s, e) && Concerns(op, g) && Legal(s, op) && !op.Commit?
    ensures Without(g, Step(s, op).0, e)
  {
    OwnStepHidden(g, s, e, op);
  }

  /** Left out, the step does not show without `g`; kept, it does there what it does here. */
  ghost predicate Thins(g: GuardId, s: State, e: State, op: Op, skip: bool)
    requires Legal(s, op)
  {
    var s' := Step(s, op).0;
    if skip then (Concerns(op, g) || Quiet(s, s')) && Without(g, s', e)
    else !Concerns(op, g) && Legal(e, op) && Without(g, s', Step(e, op).0)
  }

  lemma MirrorThins(g: GuardId, s: State, e: State, op: Op) returns (skip: bool)
    requires Legal(s, op) && !Concerns(op, g) && Mirrored(g, s, Step(s, op).0, e, op)
    ensures Thins(g, s, e, op, skip)
  {
    skip := Quiet(s, Step(s, op).0) && Without(g, Step(s, op).0, e);
  }

  lemma StepThinned(g: GuardId, s: State, e: State, op: Op) returns (skip: bool)
    requires Inv(s) && Without(g, s, e) && Legal(s, op) && op != Commit(g)
    ensures Thins(g, s, e, op, skip)
  {
    if Concerns(op, g) {
      OwnOpHidden(g, s, e, op);
      skip := true;
    } else {
      StepMirrored(g, s, e, op);
      skip := MirrorThins(g, s, e, op);
    }
  }

  // ---- Whole runs ----

  /** `rest` arises from `ops` by leaving out all steps of `g`, and otherwise only quiet ones. */
  ghost predicate Thinned(g: GuardId, s: State, ops: seq<Op>, rest: seq<Op>)
    requires LegalRun(s, ops)
    decreases |ops|
  {
    if ops == [] then rest == []
    else
      var op, s' := ops[0], Step(s, ops[0]).0;
      || ((Concerns(op, g) || Quiet(s, s')) && Thinned(g, s', ops[1..], rest))
      || (!Concerns(op, g) && rest != [] && rest[0] == op && Thinned(g, s', ops[1..], rest[1..]))
  }

  lemma {:induction false} RunMirrored(g: GuardId, s: State, e: State, ops: seq<Op>) returns (rest: seq<Op>)
    requires Inv(s) && Without(g, s, e) && LegalRun(s, ops) && Commit(g) !in ops
    ensures Thinned(g, s, ops, rest) && LegalRun(e, rest) && Without(g, After(s, ops), After(e, rest))
    decreases |ops|
  {
    if ops == [] {
      rest := [];
    } else {
      var op, s' := ops[0], Step(s, ops[0]).0;
      StepKeepsInv(s, op);
      var skip := StepThinned(g, s, e, op);
      if skip {
        rest := RunMirrored(g, s', e, ops[1..]);
      } else {
        var tail := RunMirrored(g, s', Step(e, op).0, ops[1..]);
        rest := [op] + tail;
        assert rest[1..] == tail;
      }
    }
  }

  lemma BegunAtWithout(s: State, g: GuardId, target: Node, process: ProcessId, t: ProcessId, kind: ChildKind)
    requires g !in s.guards && BeginAt(s, g, target, process, t, kind).1.Ok?
    ensures Without(g, BeginAt(s, g, target, process, t, kind).0, s)
  {
    var h := Guard(target, t, if kind.Process? then t else process, kind, Ancestry(s.tree, target), Prepared);
    NewGuardAlone(s, g, h);
    ChargedDebt(s.pids, h);
  }

  lemma NewGuardAlone(s: State, g: GuardId, h: Guard)
    requires g !in s.guards && h.phase.Prepared? && h.task !in s.pending && h.task !in s.tasks
    ensures
      var s' := s.(pids := Charge(s.pids, Elements(h.path), 1), pending := s.pending[h.task := h.process],
                   guards := s.guards[g := h], used := s.used + {h.task});
      RecordsWithout(g, s', s)
  {
    assert s.pending[h.task := h.process] - {h.task} == s.pending;
    assert s.guards[g := h] - {g} == s.guards;
  }

  lemma ChargedDebt(pids: PidsMap, h: Guard)
    requires h.phase.Prepared?
    ensures CountersWithout(Charge(pids, Elements(h.path), 1), h, pids)
  {
  }

  lemma BegunWithout(s: State, op: Op)
    requires Legal(s, op) && (op.BeginProcessAt? || op.BeginTask?) && Step(s, op).1.Ok?
    ensures Without(op.g, Step(s, op).0, s)
  {
    if op.BeginProcessAt? {
      BegunAtWithout(s, op.g, op.target, op.task, op.task, Process);
    } else {
      BegunAtWithout(s, op.g, s.procs[op.process].node, op.process, op.task, op.kind);
    }
  }

  /** Once its last node is released the guard owes nothing and shows nowhere. */
  lemma DoneShowsNowhere(g: GuardId, s: State, e: State)
    requires Without(g, s, e) && s.guards[g].Done()
    ensures s.tasks == e.tasks && s.pending == e.pending && s.members == e.members && s.procs == e.procs
    ensures s.tree == e.tree && s.linked == e.linked
    ensures forall n: Node :: At(s.pids, n).current == At(e.pids, n).current
  {
  }

  /** A fork that began and was dropped to the end: the same run without any step of the guard,
      and without steps that did nothing anyway, is legal and reaches the same ledger, pending
      map, members, owners and counters. */
  lemma DroppedForkLeavesNoTrace(s: State, begin: Op, ops: seq<Op>) returns (rest: seq<Op>)
    requires Inv(s) && Legal(s, begin) && (begin.BeginProcessAt? || begin.BeginTask?) && Step(s, begin).1.Ok?
    requires LegalRun(Step(s, begin).0, ops) && Commit(begin.g) !in ops
    requires begin.g in After(Step(s, begin).0, ops).guards && After(Step(s, begin).0, ops).guards[begin.g].Done()
    ensures Thinned(begin.g, Step(s, begin).0, ops, rest) && LegalRun(s, rest)
    ensures
      var (got, want) := (After(Step(s, begin).0, ops), After(s, rest));
      && got.tasks == want.tasks && got.pending == want.pending
      && got.members == want.members && got.procs == want.procs
      && got.tree == want.tree && got.linked == want.linked
      && forall n: Node :: At(got.pids, n).current == At(want.pids, n).current
  {
    BegunWithout(s, begin);
    StepKeepsInv(s, begin);
    rest := RunMirrored(begin.g, Step(s, begin).0, s, ops);
    DoneShowsNowhere(begin.g, After(Step(s, begin).0, ops), After(s, rest));
  }

  /** A committed guard has nothing left to undo: its destructor changes nothing. */
  lemma CommittedDropDoesNothing(s: State, g: GuardId)
    requires g in s.guards && s.guards[g].phase.Committed?
    ensures DropStep(s, g).0 == s && DropMemberStep(s, g).0 == s && DropReleaseStep(s, g).0 == s
  {
  }
}
