/** Conservation over whole runs. The code does not by itself keep a charged node below its
    ancestors; callers that fork and migrate into attached cgroups only, and do not remove a
    cgroup that a prepared process fork has picked, get conservation in every state. */
module CarefulRuns {
  import opened CgroupTree
  import opened Membership
  import opened MembershipInvariant
  import opened Conservation

  /** `c` hangs below the root through `children` lists all the way. */
  ghost predicate Attached(tree: Tree, linked: set<Node>, c: Node) {
    c in tree.alive && forall n :: n in Ancestors(tree, c) ==> n == ROOT || n in linked
  }

  ghost predicate OwnersAttached(tree: Tree, linked: set<Node>, procs: Owners) {
    forall p :: p in procs && procs[p].Active? ==> Attached(tree, linked, procs[p].node)
  }

  /** A fork in flight has charged every node above its attached cgroup. */
  ghost predicate ForkAttached(tree: Tree, linked: set<Node>, h: Guard) {
    h.Uncommitted() ==> Attached(tree, linked, h.cgroup) && Missed(tree, h.cgroup, h.path) == {}
  }

  ghost predicate ForksAttached(tree: Tree, linked: set<Node>, guards: Guards) {
    forall g :: g in guards ==> ForkAttached(tree, linked, guards[g])
  }

  /** Everything that is or may become a ledger charge hangs in the hierarchy. */
  ghost predicate ChargesAttached(s: State) {
    OwnersAttached(s.tree, s.linked, s.procs) && ForksAttached(s.tree, s.linked, s.guards)
  }

  /** The obligation the code leaves to its callers. */
  ghost predicate Careful(s: State, op: Op) {
    match op
    case BeginProcessAt(_, target, _) => Attached(s.tree, s.linked, target)
    case Migrate(_, target) => Attached(s.tree, s.linked, target)
    case FinishRemove(n) => !IsPinned(s, n) ==> Vacant(s, n)
    case _ => true
  }

  /** Nobody has moved into `n` since it was looked at, and no process fork is about to. */
  ghost predicate Vacant(s: State, n: Node) {
    !HasChildren(s, n) && !IsPopulated(s, n) && NoPreparedProcess(s.guards, n)
  }

  ghost predicate NoPreparedProcess(guards: Guards, n: Node) {
    forall g :: g in guards && guards[g].phase.Prepared? && guards[g].kind.Process? ==> guards[g].cgroup != n
  }

  /** An attached node is reached from everywhere above. */
  lemma AttachedMissesNothing(tree: Tree, linked: set<Node>, c: Node)
    requires LinkedOk(tree, linked) && Attached(tree, linked, c)
    ensures Missing(tree, c) == {}
  {
    WholeAncestry(tree, c);
  }

  /** Attached charges make every walk complete, so the condition for conservation holds. */
  lemma AttachedWalksReach(s: State, op: Op)
    requires Inv(s) && ChargesAttached(s) && Legal(s, op) && Careful(s, op)
    ensures WalksReach(s, op)
  {
    if op.Exit? && ExitTakes(s, op.process, op.task, op.exit) {
      AttachedMissesNothing(s.tree, s.linked, s.tasks[op.task].cgroup);
    } else if op.Migrate? && Moves(s, op.process, op.target) {
      AttachedMissesNothing(s.tree, s.linked, s.procs[op.process].node);
      AttachedMissesNothing(s.tree, s.linked, op.target);
    } else if op.Publish? || op.Drop? {
      assert ForkAttached(s.tree, s.linked, s.guards[op.g]);
    }
  }

  // ---- Attachment is kept ----

  /** More links, and other facts about nodes that already existed, do no harm. */
  lemma StaysAttached(tree: Tree, linked: set<Node>, tree': Tree, linked': set<Node>, c: Node)
    requires Attached(tree, linked, c) && c in tree'.alive
    requires forall x :: x in tree.parent ==> x in tree'.parent && tree'.parent[x] == tree.parent[x]
    requires forall n :: n in Ancestors(tree, c) && n in linked ==> n in linked'
    ensures Attached(tree', linked', c) && Ancestors(tree', c) == Ancestors(tree, c)
  {
    AncestorsStable(tree, tree', c);
  }

  lemma AttachKeepsCharges(s: State, pid: ProcessId)
    requires ChargesAttached(s)
    ensures ChargesAttached(AttachStep(s, pid).0)
  {
  }

  lemma NewForkAttached(tree: Tree, linked: set<Node>, guards: Guards, g: GuardId, h: Guard)
    requires ForksAttached(tree, linked, guards) && ForkAttached(tree, linked, h)
    ensures ForksAttached(tree, linked, guards[g := h])
  {
  }

  lemma BeginKeepsCharges(s: State, g: GuardId, target: Node, process: ProcessId, t: ProcessId, kind: ChildKind)
    requires LinkedOk(s.tree, s.linked) && ChargesAttached(s) && Attached(s.tree, s.linked, target)
    ensures ChargesAttached(BeginAt(s, g, target, process, t, kind).0)
  {
    var h := Guard(target, t, if kind.Process? then t else process, kind, Ancestry(s.tree, target), Prepared);
    AttachedMissesNothing(s.tree, s.linked, target);
    NewForkAttached(s.tree, s.linked, s.guards, g, h);
  }

  lemma PublishKeepsCharges(s: State, g: GuardId)
    requires ChargesAttached(s) && g in s.guards
    ensures ChargesAttached(PublishStep(s, g).0)
  {
  }

  lemma SettleKeepsCharges(s: State, guards: Guards, g: GuardId, phase: Phase)
    requires ForksAttached(s.tree, s.linked, s.guards) && g in s.guards && !phase.Prepared? && !phase.Published?
    requires guards == SetPhase(s.guards, g, phase)
    ensures ForksAttached(s.tree, s.linked, guards)
  {
  }

  lemma MigrateKeepsCharges(s: State, p: ProcessId, target: Node)
    requires ChargesAttached(s) && Attached(s.tree, s.linked, target)
    ensures ChargesAttached(MigrateStep(s, p, target).0)
  {
  }

  lemma ExitKeepsCharges(s: State, p: ProcessId, t: ProcessId, exit: ExitKind)
    requires ChargesAttached(s)
    ensures ChargesAttached(ExitStep(s, p, t, exit).0)
  {
  }

  /** A change to the tree that leaves the links above every charged node in place. */
  lemma TreeChangeKeepsCharges(s: State, s': State)
    requires Inv(s) && ChargesAttached(s) && s'.procs == s.procs && s'.guards == s.guards
    requires forall x :: x in s.tree.parent ==> x in s'.tree.parent && s'.tree.parent[x] == s.tree.parent[x]
    requires forall p :: p in s.procs && s.procs[p].Active? ==> KeepsLinks(s, s', s.procs[p].node)
    requires forall g :: g in s.guards && s.guards[g].Uncommitted() ==> KeepsLinks(s, s', s.guards[g].cgroup)
    ensures ChargesAttached(s')
  {
    forall p | p in s.procs && s.procs[p].Active? ensures Attached(s'.tree, s'.linked, s.procs[p].node) {
      StaysAttached(s.tree, s.linked, s'.tree, s'.linked, s.procs[p].node);
    }
    forall g | g in s.guards ensures ForkAttached(s'.tree, s'.linked, s.guards[g]) {
      assert ForkAttached(s.tree, s.linked, s.guards[g]);
      if s.guards[g].Uncommitted() { StaysAttached(s.tree, s.linked, s'.tree, s'.linked, s.guards[g].cgroup); }
    }
  }

  ghost predicate KeepsLinks(s: State, s': State, c: Node) {
    c in s'.tree.alive && forall n :: n in Ancestors(s.tree, c) && n in s.linked ==> n in s'.linked
  }

  lemma CreateKeepsCharges(s: State, under: Node, n: Node)
    requires Inv(s) && ChargesAttached(s) && under in s.tree.alive && !IsNode(s.tree, n) && under < n
    ensures ChargesAttached(CreateStep(s, under, n).0)
  {
    forall g | g in s.guards ensures ForkAttached(s.tree, s.linked, s.guards[g]) {}
    TreeChangeKeepsCharges(s, CreateStep(s, under, n).0);
  }

  /** A node that may be removed has no attached node below it and, when callers are careful,
      nothing is charged to the node itself. */
  lemma RemovedIsNotAbove(s: State, n: Node, c: Node)
    requires !HasChildren(s, n) && Attached(s.tree, s.linked, c) && c != n
    ensures n !in Ancestors(s.tree, c)
  {
    if n in Ancestors(s.tree, c) {
      var d := ChildOnTheWay(s.tree, c, n);
    }
  }

  lemma RemovedHostsNobody(s: State, n: Node)
    requires Inv(s) && Vacant(s, n)
    ensures forall p :: p in s.procs && s.procs[p].Active? ==> s.procs[p].node != n
    ensures forall g :: g in s.guards && s.guards[g].Uncommitted() ==> s.guards[g].cgroup != n
  {
  }

  lemma RemoveKeepsCharges(s: State, n: Node)
    requires Inv(s) && ChargesAttached(s) && (!IsPinned(s, n) ==> Vacant(s, n))
    ensures ChargesAttached(FinishRemoveStep(s, n).0)
  {
    if FinishRemoveStep(s, n).1.Ok? {
      var s' := FinishRemoveStep(s, n).0;
      RemovedHostsNobody(s, n);
      forall p | p in s.procs && s.procs[p].Active? ensures KeepsLinks(s, s', s.procs[p].node) {
        RemovedIsNotAbove(s, n, s.procs[p].node);
      }
      forall g | g in s.guards && s.guards[g].Uncommitted() ensures KeepsLinks(s, s', s.guards[g].cgroup) {
        assert ForkAttached(s.tree, s.linked, s.guards[g]);
        RemovedIsNotAbove(s, n, s.guards[g].cgroup);
      }
      TreeChangeKeepsCharges(s, s');
    }
  }

  /** Nothing attached lies at or below a detached node. */
  lemma DetachedIsNotAbove(s: State, n: Node, c: Node)
    requires n != ROOT && n !in s.linked && Attached(s.tree, s.linked, c)
    ensures KeepsLinks(s, ReclaimStep(s, n).0, c)
  {
    AncestorsReflexive(s.tree, c);
    forall d | d in Ancestors(s.tree, c) && d in s.linked ensures d in ReclaimStep(s, n).0.linked {
      if d in s.tree.parent { ParentIsAncestor(s.tree, c, d); }
    }
  }

  lemma ReclaimKeepsCharges(s: State, n: Node)
    requires Inv(s) && ChargesAttached(s) && n != ROOT && n !in s.linked
    ensures ChargesAttached(ReclaimStep(s, n).0)
  {
    var s' := ReclaimStep(s, n).0;
    forall p | p in s.procs && s.procs[p].Active? ensures KeepsLinks(s, s', s.procs[p].node) {
      DetachedIsNotAbove(s, n, s.procs[p].node);
    }
    forall g | g in s.guards && s.guards[g].Uncommitted() ensures KeepsLinks(s, s', s.guards[g].cgroup) {
      assert ForkAttached(s.tree, s.linked, s.guards[g]);
      DetachedIsNotAbove(s, n, s.guards[g].cgroup);
    }
    TreeChangeKeepsCharges(s, s');
  }

  lemma SettleStepKeepsCharges(s: State, g: GuardId)
    requires ChargesAttached(s) && g in s.guards
    ensures ChargesAttached(DropStep(s, g).0)
    ensures ChargesAttached(DropMemberStep(s, g).0)
    ensures s.guards[g].phase.Published? ==> ChargesAttached(CommitStep(s, g).0)
  {
    SettleKeepsCharges(s, SetPhase(s.guards, g, Releasing(0)), g, Releasing(0));
    SettleKeepsCharges(s, SetPhase(s.guards, g, Unlinking), g, Unlinking);
    SettleKeepsCharges(s, SetPhase(s.guards, g, Committed), g, Committed);
  }

  lemma ReleaseKeepsCharges(s: State, g: GuardId)
    requires ChargesAttached(s) && g in s.guards
    ensures ChargesAttached(DropReleaseStep(s, g).0)
  {
  }

  lemma GuardStepKeepsCharges(s: State, op: Op)
    requires ChargesAttached(s) && IsGuardOp(op) && GuardLegal(s, op)
    ensures ChargesAttached(GuardStep(s, op).0)
  {
    if op.Publish? { PublishKeepsCharges(s, op.g); }
    else if op.DropRelease? { ReleaseKeepsCharges(s, op.g); }
    else { SettleStepKeepsCharges(s, op.g); }
  }

  lemma ForkStepKeepsCharges(s: State, op: Op)
    requires Inv(s) && ChargesAttached(s) && IsForkOp(op) && ForkLegal(s, op) && Careful(s, op)
    ensures ChargesAttached(ForkStep(s, op).0)
  {
    if op.Attach? { AttachKeepsCharges(s, op.pid); }
    else if op.BeginProcessAt? { BeginKeepsCharges(s, op.g, op.target, op.task, op.task, Process); }
    else if op.process in s.procs && s.procs[op.process].Active? {
      BeginKeepsCharges(s, op.g, s.procs[op.process].node, op.process, op.task, op.kind);
    }
  }

  lemma TaskStepKeepsCharges(s: State, op: Op)
    requires Inv(s) && ChargesAttached(s) && IsTaskOp(op) && TaskLegal(s, op) && Careful(s, op)
    ensures ChargesAttached(TaskStep(s, op).0)
  {
    if op.Migrate? { MigrateKeepsCharges(s, op.process, op.target); }
    else if op.Exit? { ExitKeepsCharges(s, op.process, op.task, op.exit); }
  }

  lemma TreeStepKeepsCharges(s: State, op: Op)
    requires Inv(s) && ChargesAttached(s) && IsTreeOp(op) && TreeLegal(s, op) && Careful(s, op)
    ensures ChargesAttached(TreeStep(s, op).0)
  {
    if op.CreateChild? { CreateKeepsCharges(s, op.under, op.node); }
    else if op.Reclaim? { ReclaimKeepsCharges(s, op.node); }
  }

  lemma RemovalStepKeepsCharges(s: State, op: Op)
    requires Inv(s) && ChargesAttached(s) && IsRemoval(op) && Careful(s, op)
    ensures ChargesAttached(RemovalStep(s, op).0)
  {
    if op.FinishRemove? { RemoveKeepsCharges(s, op.node); }
    else if op.StartRemove? { StartRemoveFrame(s, op.node); }
    else { CheckMembersFrame(s, op.node); }
  }

  lemma StepKeepsCharges(s: State, op: Op)
    requires Inv(s) && ChargesAttached(s) && Legal(s, op) && Careful(s, op)
    ensures ChargesAttached(Step(s, op).0)
  {
    if IsGuardOp(op) { GuardStepKeepsCharges(s, op); }
    else if IsTaskOp(op) { TaskStepKeepsCharges(s, op); }
    else if IsForkOp(op) { ForkStepKeepsCharges(s, op); }
    else if IsRemoval(op) { RemovalStepKeepsCharges(s, op); }
    else { TreeStepKeepsCharges(s, op); }
  }

  // ---- Whole runs ----

  ghost predicate CarefulRun(s: State, ops: seq<Op>)
    requires LegalRun(s, ops)
    decreases |ops|
  {
    ops == [] || (Careful(s, ops[0]) && CarefulRun(Step(s, ops[0]).0, ops[1..]))
  }

  lemma {:induction false} RunConserves(s: State, ops: seq<Op>)
    requires Inv(s) && Conserved(s) && ChargesAttached(s) && LegalRun(s, ops) && CarefulRun(s, ops)
    ensures Conserved(After(s, ops))
    decreases |ops|
  {
    if ops != [] {
      StepKeepsInv(s, ops[0]);
      AttachedWalksReach(s, ops[0]);
      StepConservesIff(s, ops[0]);
      StepKeepsCharges(s, ops[0]);
      RunConserves(Step(s, ops[0]).0, ops[1..]);
    }
  }

  /** From boot, whatever forks, rollbacks, migrations, exits and renames interleave, every live
      node's counter is the number of tasks at or below it plus the charges guards still hold
      there; in particular it never under-counts and never goes below zero. */
  lemma CountersAreConserved(ops: seq<Op>, n: Node)
    requires LegalRun(INITIAL, ops) && CarefulRun(INITIAL, ops)
    requires n in After(INITIAL, ops).tree.alive
    ensures
      var s := After(INITIAL, ops);
      && At(s.pids, n).current == |Within(s.tasks, Subtree(s.tree, n))| + |Holding(s.guards, n)|
      && At(s.pids, n).current >= |Within(s.tasks, Subtree(s.tree, n))|
  {
    RunConserves(INITIAL, ops);
    assert Excess(After(INITIAL, ops), n) == 0;
  }
}
