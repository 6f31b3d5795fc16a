/** Conservation of the pids counters: at every live node, `current` is the number of
    ledger tasks at or below it plus the charges that fork guards still hold there. */
module Conservation {
  import opened CgroupTree
  import opened Membership
  import opened Numbers
  import opened MembershipInvariant

  /** The nodes at or below `n`. */
  ghost function Subtree(tree: Tree, n: Node): iset<Node> {
    iset c: Node | n in Ancestors(tree, c)
  }

  /** Ledger tasks whose cgroup lies in `region`. */
  ghost function Within(tasks: Ledger, region: iset<Node>): set<ProcessId> {
    set t | t in tasks && tasks[t].cgroup in region
  }

  /** Guards that account for a charge at `n` themselves. */
  ghost function Holding(guards: Guards, n: Node): set<GuardId> {
    set g | g in guards && guards[g].Holds(n)
  }

  /** By how much the counter of `n` exceeds what ledger and guards explain. */
  ghost function Excess(s: State, n: Node): int {
    At(s.pids, n).current - |Within(s.tasks, Subtree(s.tree, n))| - |Holding(s.guards, n)|
  }

  ghost predicate Conserved(s: State) {
    forall n :: n in s.tree.alive ==> Excess(s, n) == 0
  }

  function One(b: bool): int { if b then 1 else 0 }

  // ---- Counting ----

  lemma WithinInsert(tasks: Ledger, t: ProcessId, task: Task, region: iset<Node>)
    requires t !in tasks
    ensures |Within(tasks[t := task], region)| == |Within(tasks, region)| + One(task.cgroup in region)
  {
    assert Within(tasks[t := task], region) == Within(tasks, region) + if task.cgroup in region then {t} else {};
  }

  lemma WithinRemove(tasks: Ledger, t: ProcessId, region: iset<Node>)
    requires t in tasks
    ensures |Within(tasks - {t}, region)| == |Within(tasks, region)| - One(tasks[t].cgroup in region)
  {
    WithinInsert(tasks - {t}, t, tasks[t], region);
    assert (tasks - {t})[t := tasks[t]] == tasks;
  }

  /** Moving all tasks of `p` from one node to another. */
  lemma StayersWithin(tasks: Ledger, p: ProcessId, home: Node, region: iset<Node>, movers: set<ProcessId>)
    requires movers == set t | t in tasks && tasks[t].process == p
    requires forall t :: t in movers ==> tasks[t].cgroup == home
    ensures
      var rest := Within(tasks, region) - movers;
      Within(tasks, region) == if home in region then rest + movers else rest
  {
  }

  lemma MovedWithin(tasks: Ledger, p: ProcessId, target: Node, region: iset<Node>, movers: set<ProcessId>)
    requires movers == set t | t in tasks && tasks[t].process == p
    ensures
      var rest := Within(tasks, region) - movers;
      Within(Moved(tasks, p, target), region) == if target in region then rest + movers else rest
  {
  }

  lemma WithinMoved(tasks: Ledger, p: ProcessId, home: Node, target: Node, region: iset<Node>, movers: set<ProcessId>)
    requires movers == set t | t in tasks && tasks[t].process == p
    requires forall t :: t in movers ==> tasks[t].cgroup == home
    ensures |Within(Moved(tasks, p, target), region)| == |Within(tasks, region)|
              - (if home in region then |movers| else 0) + (if target in region then |movers| else 0)
  {
    var rest := Within(tasks, region) - movers;
    StayersWithin(tasks, p, home, region, movers);
    MovedWithin(tasks, p, target, region, movers);
    SplitOff(Within(tasks, region), movers, rest, home in region);
    SplitOff(Within(Moved(tasks, p, target), region), movers, rest, target in region);
  }

  lemma SplitOff(all: set<ProcessId>, part: set<ProcessId>, rest: set<ProcessId>, inside: bool)
    requires all == if inside then rest + part else rest
    requires rest !! part
    ensures |all| == |rest| + if inside then |part| else 0
  {
  }

  lemma HoldingUpdate(guards: Guards, g: GuardId, h: Guard, n: Node)
    ensures |Holding(guards[g := h], n)| ==
      |Holding(guards, n)| - One(g in guards && guards[g].Holds(n)) + One(h.Holds(n))
  {
    var rest := Holding(guards, n) - {g};
    assert Holding(guards, n) == if g in guards && guards[g].Holds(n) then rest + {g} else rest;
    assert Holding(guards[g := h], n) == if h.Holds(n) then rest + {g} else rest;
  }

  /** Three ways to stand to `c`: reached by the walk, above `c` but missed, or not above `c`. */
  lemma ReachedOrMissed(tree: Tree, c: Node, n: Node)
    ensures One(c in Subtree(tree, n)) == One(n in Elements(Ancestry(tree, c))) + One(n in Missing(tree, c))
  {
  }

  lemma CurrentAfterUncharge(pids: PidsMap, nodes: set<Node>, k: nat, n: Node)
    ensures At(Uncharge(pids, nodes, k), n).current == At(pids, n).current - if n in nodes then k else 0
  {
  }

  // ---- The effect of each step on one node ----

  lemma FromParts(s: State, s': State, n: Node, current: int, within: int, holding: int)
    requires At(s'.pids, n).current == At(s.pids, n).current + current
    requires |Within(s'.tasks, Subtree(s'.tree, n))| == |Within(s.tasks, Subtree(s.tree, n))| + within
    requires |Holding(s'.guards, n)| == |Holding(s.guards, n)| + holding
    ensures Excess(s', n) == Excess(s, n) + current - within - holding
  {
  }

  lemma SameParts(s: State, s': State, n: Node)
    requires s'.tree == s.tree && s'.tasks == s.tasks && s'.guards == s.guards
    requires At(s'.pids, n).current == At(s.pids, n).current
    ensures Excess(s', n) == Excess(s, n)
  {
  }

  lemma AttachCurrent(s: State, pid: ProcessId, n: Node)
    requires AttachStep(s, pid).1.Ok?
    ensures At(AttachStep(s, pid).0.pids, n).current ==
      At(s.pids, n).current + One(n in Elements(Ancestry(s.tree, ROOT)))
  {
  }

  lemma AttachRefusedCurrent(s: State, pid: ProcessId, n: Node)
    requires AttachStep(s, pid).1.Err?
    ensures At(AttachStep(s, pid).0.pids, n).current == At(s.pids, n).current
  {
  }

  lemma AttachExcess(s: State, pid: ProcessId, n: Node)
    ensures Excess(AttachStep(s, pid).0, n) == Excess(s, n)
  {
    if AttachStep(s, pid).1.Ok? { AttachedExcess(s, pid, n); } else { AttachRefusedExcess(s, pid, n); }
  }

  lemma AttachedExcess(s: State, pid: ProcessId, n: Node)
    requires AttachStep(s, pid).1.Ok?
    ensures Excess(AttachStep(s, pid).0, n) == Excess(s, n)
  {
    AttachCurrent(s, pid, n);
    WithinInsert(s.tasks, pid, Task(pid, ROOT), Subtree(s.tree, n));
    RootIsItsOwnWalk(s.tree, n);
    FromParts(s, AttachStep(s, pid).0, n, One(ROOT in Subtree(s.tree, n)), One(ROOT in Subtree(s.tree, n)), 0);
  }

  lemma AttachRefusedExcess(s: State, pid: ProcessId, n: Node)
    requires AttachStep(s, pid).1.Err?
    ensures Excess(AttachStep(s, pid).0, n) == Excess(s, n)
  {
    AttachRefusedCurrent(s, pid, n);
    FromParts(s, AttachStep(s, pid).0, n, 0, 0, 0);
  }

  lemma RootIsItsOwnWalk(tree: Tree, n: Node)
    ensures ROOT in Subtree(tree, n) <==> n in Elements(Ancestry(tree, ROOT))
  {
  }

  lemma BegunCurrent(s: State, g: GuardId, target: Node, process: ProcessId, t: ProcessId, kind: ChildKind, n: Node)
    requires BeginAt(s, g, target, process, t, kind).1.Ok?
    ensures At(BeginAt(s, g, target, process, t, kind).0.pids, n).current ==
      At(s.pids, n).current + One(n in Ancestry(s.tree, target))
  {
  }

  lemma RefusedCurrent(s: State, g: GuardId, target: Node, process: ProcessId, t: ProcessId, kind: ChildKind, n: Node)
    requires BeginAt(s, g, target, process, t, kind).1.Err?
    ensures At(BeginAt(s, g, target, process, t, kind).0.pids, n).current == At(s.pids, n).current
  {
  }

  lemma BegunExcess(s: State, g: GuardId, target: Node, process: ProcessId, t: ProcessId, kind: ChildKind, n: Node)
    requires g !in s.guards && BeginAt(s, g, target, process, t, kind).1.Ok?
    ensures Excess(BeginAt(s, g, target, process, t, kind).0, n) == Excess(s, n)
  {
    var s' := BeginAt(s, g, target, process, t, kind).0;
    BegunCurrent(s, g, target, process, t, kind, n);
    HoldingUpdate(s.guards, g, s'.guards[g], n);
    FromParts(s, s', n, One(n in Ancestry(s.tree, target)), 0, One(n in Ancestry(s.tree, target)));
  }

  lemma RefusedExcess(s: State, g: GuardId, target: Node, process: ProcessId, t: ProcessId, kind: ChildKind, n: Node)
    requires BeginAt(s, g, target, process, t, kind).1.Err?
    ensures Excess(BeginAt(s, g, target, process, t, kind).0, n) == Excess(s, n)
  {
    RefusedCurrent(s, g, target, process, t, kind, n);
    FromParts(s, BeginAt(s, g, target, process, t, kind).0, n, 0, 0, 0);
  }

  lemma BeginExcess(s: State, g: GuardId, target: Node, process: ProcessId, t: ProcessId, kind: ChildKind, n: Node)
    requires g !in s.guards
    ensures Excess(BeginAt(s, g, target, process, t, kind).0, n) == Excess(s, n)
  {
    if BeginAt(s, g, target, process, t, kind).1.Ok? { BegunExcess(s, g, target, process, t, kind, n); }
    else { RefusedExcess(s, g, target, process, t, kind, n); }
  }

  lemma PublishExcess(s: State, g: GuardId, n: Node)
    requires PathsOk(s.tree, s.guards) && g in s.guards && PublishStep(s, g).1.Ok?
    ensures Excess(PublishStep(s, g).0, n) ==
      Excess(s, n) - One(n in Missed(s.tree, s.guards[g].cgroup, s.guards[g].path))
  {
    var h := s.guards[g];
    assert PathOk(s.tree, h);
    HoldingUpdate(s.guards, g, h.(phase := Published), n);
    WithinInsert(s.tasks, h.task, Task(h.process, h.cgroup), Subtree(s.tree, n));
  }

  lemma DropExcess(s: State, g: GuardId, n: Node)
    requires PathsOk(s.tree, s.guards) && EntriesOk(s.guards, s.tasks, s.pending, s.used) && g in s.guards
    ensures Excess(DropStep(s, g).0, n) ==
              Excess(s, n) + One(s.guards[g].phase.Published?
                && n in Missed(s.tree, s.guards[g].cgroup, s.guards[g].path))
  {
    var h := s.guards[g];
    assert PathOk(s.tree, h) && EntryOk(h, s.tasks, s.pending, s.used);
    assert h.path[0..] == h.path;
    if h.phase.Published? {
      DropPublishedExcess(s, g, n);
    } else {
      HoldingUpdate(s.guards, g, DropStep(s, g).0.guards[g], n);
    }
  }

  lemma DropPublishedExcess(s: State, g: GuardId, n: Node)
    requires g in s.guards && s.guards[g].phase.Published? && PathOk(s.tree, s.guards[g])
    requires EntryOk(s.guards[g], s.tasks, s.pending, s.used)
    ensures Excess(DropStep(s, g).0, n) == Excess(s, n) + One(n in Missed(s.tree, s.guards[g].cgroup, s.guards[g].path))
  {
    var h := s.guards[g];
    assert h.path[0..] == h.path;
    HoldingUpdate(s.guards, g, DropStep(s, g).0.guards[g], n);
    WithinRemove(s.tasks, h.task, Subtree(s.tree, n));
  }

  lemma GuardOnlyExcess(s: State, g: GuardId, n: Node)
    requires g in s.guards
    ensures s.guards[g].phase.Published? ==> Excess(CommitStep(s, g).0, n) == Excess(s, n)
    ensures Excess(DropMemberStep(s, g).0, n) == Excess(s, n)
  {
    var h := s.guards[g];
    assert h.path[0..] == h.path;
    HoldingUpdate(s.guards, g, h.(phase := Committed), n);
    HoldingUpdate(s.guards, g, h.(phase := Releasing(0)), n);
  }

  lemma HeldAfterRelease(h: Guard, n: Node)
    requires Distinct(h.path) && h.phase.Releasing? && h.phase.next < |h.path|
    ensures One(h.(phase := Releasing(h.phase.next + 1)).Holds(n)) == One(h.Holds(n)) - One(n == h.path[h.phase.next])
  {
  }

  lemma ReleaseExcess(s: State, g: GuardId, n: Node)
    requires g in s.guards && Distinct(s.guards[g].path)
    ensures Excess(DropReleaseStep(s, g).0, n) == Excess(s, n)
  {
    var h := s.guards[g];
    if h.phase.Releasing? && h.phase.next < |h.path| {
      HoldingUpdate(s.guards, g, h.(phase := Releasing(h.phase.next + 1)), n);
      HeldAfterRelease(h, n);
      CurrentAfterUncharge(s.pids, {h.path[h.phase.next]}, 1, n);
    }
  }

  /** This exit takes its task out of the ledger (rather than being refused or finding it gone). */
  ghost predicate ExitTakes(s: State, p: ProcessId, t: ProcessId, exit: ExitKind) {
    && p in s.procs && s.procs[p].Active?
    && t in s.tasks && s.tasks[t] == Task(p, s.procs[p].node)
    && (exit.LastProcessTask? ==> !HasPending(s, p) && TasksOf(s, p) == {t})
  }

  lemma ExitExcess(s: State, p: ProcessId, t: ProcessId, exit: ExitKind, n: Node)
    ensures Excess(ExitStep(s, p, t, exit).0, n) ==
              Excess(s, n) + One(ExitTakes(s, p, t, exit) && n in Missing(s.tree, s.tasks[t].cgroup))
  {
    var s' := ExitStep(s, p, t, exit).0;
    if ExitTakes(s, p, t, exit) {
      var node := s.tasks[t].cgroup;
      var reached := One(n in Elements(Ancestry(s.tree, node)));
      WithinRemove(s.tasks, t, Subtree(s.tree, n));
      ExitCurrent(s, p, t, exit, n);
      FromParts(s, s', n, -reached, -One(node in Subtree(s.tree, n)), 0);
      ReachedOrMissed(s.tree, node, n);
    } else {
      FromParts(s, s', n, 0, 0, 0);
    }
  }

  lemma ExitCurrent(s: State, p: ProcessId, t: ProcessId, exit: ExitKind, n: Node)
    requires ExitTakes(s, p, t, exit)
    ensures At(ExitStep(s, p, t, exit).0.pids, n).current ==
              At(s.pids, n).current - One(n in Elements(Ancestry(s.tree, s.tasks[t].cgroup)))
  {
  }

  lemma RenameExcess(s: State, p: ProcessId, t: ProcessId, u: ProcessId, n: Node)
    ensures Excess(RenameStep(s, p, t, u).0, n) == Excess(s, n)
  {
    if RenameStep(s, p, t, u).1.Ok? {
      WithinRemove(s.tasks, t, Subtree(s.tree, n));
      WithinInsert(s.tasks - {t}, u, s.tasks[t], Subtree(s.tree, n));
    }
  }

  /** This migration moves tasks (rather than being refused or staying in place). */
  ghost predicate Moves(s: State, p: ProcessId, target: Node) {
    && p in s.procs && s.procs[p].Active? && s.procs[p].node != target && !HasPending(s, p)
    && TasksOf(s, p) != {} && (forall t :: t in TasksOf(s, p) ==> s.tasks[t].cgroup == s.procs[p].node)
    && (s.procs[p].node, p) in s.members && (target, p) !in s.members
  }

  /** A migration that does not move leaves all but peaks as it was. */
  lemma NoMoveCurrent(s: State, p: ProcessId, target: Node, n: Node)
    requires !Moves(s, p, target)
    ensures At(MigrateStep(s, p, target).0.pids, n).current == At(s.pids, n).current
  {
    var r := MigrateStep(s, p, target);
    if r.0 != s {
      UnmovedCurrent(s, p, s.procs[p].node, target, n);
    }
  }

  lemma NoMoveFrame(s: State, p: ProcessId, target: Node)
    requires !Moves(s, p, target)
    ensures
      var s' := MigrateStep(s, p, target).0;
      s'.tree == s.tree && s'.tasks == s.tasks && s'.guards == s.guards
  {
  }

  lemma UnmovedCurrent(s: State, p: ProcessId, home: Node, target: Node, n: Node)
    requires Relocate(s, p, home, target).1.Err?
    ensures At(Relocate(s, p, home, target).0.pids, n).current == At(s.pids, n).current
  {
    UndoneCharge(s.pids, Elements(Ancestry(s.tree, target)) - Elements(Ancestry(s.tree, home)), |TasksOf(s, p)|, n);
  }

  lemma UndoneCharge(pids: PidsMap, nodes: set<Node>, k: nat, n: Node)
    ensures At(Uncharge(Charge(pids, nodes, k), nodes, k), n).current == At(pids, n).current
  {
  }

  /** Shared ancestors keep their count; only the differences of the two walks change. */
  lemma MoveCurrent(s: State, p: ProcessId, target: Node, n: Node)
    requires Moves(s, p, target)
    ensures
      At(MigrateStep(s, p, target).0.pids, n).current == At(s.pids, n).current
        + (if n in Elements(Ancestry(s.tree, target)) then |TasksOf(s, p)| else 0)
        - (if n in Elements(Ancestry(s.tree, s.procs[p].node)) then |TasksOf(s, p)| else 0)
  {
  }

  lemma MoveFrame(s: State, p: ProcessId, target: Node)
    requires Moves(s, p, target)
    ensures
      var s' := MigrateStep(s, p, target).0;
      s'.tree == s.tree && s'.guards == s.guards && s'.tasks == Moved(s.tasks, p, target)
    ensures forall t :: t in TasksOf(s, p) ==> s.tasks[t].cgroup == s.procs[p].node
  {
  }

  lemma MovedParts(s: State, s': State, n: Node, home: Node, target: Node, k: nat)
    requires s'.tree == s.tree && s'.guards == s.guards
    requires At(s'.pids, n).current == At(s.pids, n).current
      + (if n in Elements(Ancestry(s.tree, target)) then k else 0)
        - (if n in Elements(Ancestry(s.tree, home)) then k else 0)
    requires |Within(s'.tasks, Subtree(s.tree, n))| == |Within(s.tasks, Subtree(s.tree, n))|
      + (if target in Subtree(s.tree, n) then k else 0) - (if home in Subtree(s.tree, n) then k else 0)
    ensures Excess(s', n) == Excess(s, n)
      + (if n in Missing(s.tree, home) then k else 0) - (if n in Missing(s.tree, target) then k else 0)
  {
    ReachedOrMissed(s.tree, home, n);
    ReachedOrMissed(s.tree, target, n);
  }

  lemma MoveExcess(s: State, p: ProcessId, target: Node, n: Node)
    requires Moves(s, p, target)
    ensures Excess(MigrateStep(s, p, target).0, n) == Excess(s, n)
      + (if n in Missing(s.tree, s.procs[p].node) then |TasksOf(s, p)| else 0)
      - (if n in Missing(s.tree, target) then |TasksOf(s, p)| else 0)
  {
    MoveFrame(s, p, target);
    MoveCurrent(s, p, target, n);
    WithinMoved(s.tasks, p, s.procs[p].node, target, Subtree(s.tree, n), TasksOf(s, p));
    MovedParts(s, MigrateStep(s, p, target).0, n, s.procs[p].node, target, |TasksOf(s, p)|);
  }

  lemma StayExcess(s: State, p: ProcessId, target: Node, n: Node)
    requires !Moves(s, p, target)
    ensures Excess(MigrateStep(s, p, target).0, n) == Excess(s, n)
  {
    NoMoveCurrent(s, p, target, n);
    NoMoveFrame(s, p, target);
    SameParts(s, MigrateStep(s, p, target).0, n);
  }

  lemma MigrateExcess(s: State, p: ProcessId, target: Node, n: Node)
    ensures !Moves(s, p, target) ==> Excess(MigrateStep(s, p, target).0, n) == Excess(s, n)
    ensures Moves(s, p, target) ==>
      Excess(MigrateStep(s, p, target).0, n) == Excess(s, n)
        + (if n in Missing(s.tree, s.procs[p].node) then |TasksOf(s, p)| else 0)
        - (if n in Missing(s.tree, target) then |TasksOf(s, p)| else 0)
  {
    if Moves(s, p, target) { MoveExcess(s, p, target, n); } else { StayExcess(s, p, target, n); }
  }

  lemma SameWithin(tree: Tree, tree': Tree, tasks: Ledger, n: Node)
    requires forall t :: t in tasks ==> IsNode(tree, tasks[t].cgroup)
    requires forall x :: x in tree.parent ==> x in tree'.parent && tree'.parent[x] == tree.parent[x]
    ensures Within(tasks, Subtree(tree', n)) == Within(tasks, Subtree(tree, n))
  {
    forall t | t in tasks ensures tasks[t].cgroup in Subtree(tree', n) <==> tasks[t].cgroup in Subtree(tree, n) {
      AncestorsStable(tree, tree', tasks[t].cgroup);
    }
  }

  /** Nothing is charged to a node that does not exist yet. */
  lemma FreshNodeIsEmpty(s: State, n: Node)
    requires PathsOk(s.tree, s.guards) && LedgerOk(s.tasks, s.procs, s.used) && OwnersAlive(s.tree.alive, s.procs)
    requires !IsNode(s.tree, n)
    ensures Within(s.tasks, Subtree(s.tree, n)) == {} && Holding(s.guards, n) == {}
  {
    forall t | t in s.tasks ensures s.tasks[t].cgroup !in Subtree(s.tree, n) {
      if n in Ancestors(s.tree, s.tasks[t].cgroup) { AncestorsAreNodes(s.tree, s.tasks[t].cgroup, n); }
    }
    forall g | g in s.guards ensures n !in s.guards[g].path {
      assert PathOk(s.tree, s.guards[g]);
      if n in s.guards[g].path { AncestorsAreNodes(s.tree, s.guards[g].cgroup, n); }
    }
  }

  // ---- Exactly when a step conserves ----

  /** The walk recorded in `path` reaches every live node above `c`. */
  ghost predicate Reaches(tree: Tree, c: Node, path: seq<Node>) {
    forall n :: n in tree.alive ==> n !in Missed(tree, c, path)
  }

  /** Walks from `a` and from `b` miss the same live nodes. */
  ghost predicate MissAlike(tree: Tree, a: Node, b: Node) {
    forall n :: n in tree.alive ==> (n in Missing(tree, a) <==> n in Missing(tree, b))
  }

  ghost predicate Publishable(s: State, g: GuardId)
    requires g in s.guards
  {
    var h := s.guards[g];
    && h.phase.Prepared? && h.task in s.pending && s.pending[h.task] == h.process && h.task !in s.tasks
    && (h.kind.Process? ==> (h.cgroup, h.task) !in s.members)
  }

  /** What must hold of the hierarchy before the step: the walk that charges or uncharges must
      reach the live nodes above; a migration may miss the same live nodes at both ends. */
  ghost predicate WalksReach(s: State, op: Op)
    requires Legal(s, op)
  {
    if IsGuardOp(op) then GuardWalkReaches(s, op)
    else if IsTaskOp(op) then TaskWalkReaches(s, op)
    else true
  }

  ghost predicate GuardWalkReaches(s: State, op: Op)
    requires IsGuardOp(op) && GuardLegal(s, op)
  {
    var h := s.guards[op.g];
    (op.Publish? && Publishable(s, op.g)) || (op.Drop? && h.phase.Published?) ==> Reaches(s.tree, h.cgroup, h.path)
  }

  ghost predicate TaskWalkReaches(s: State, op: Op)
    requires IsTaskOp(op)
  {
    match op
    case Exit(p, t, exit) => ExitTakes(s, p, t, exit) ==>
      Reaches(s.tree, s.tasks[t].cgroup, Ancestry(s.tree, s.tasks[t].cgroup))
    case Migrate(p, target) => Moves(s, p, target) ==> MissAlike(s.tree, s.procs[p].node, target)
    case Rename(_, _, _) => true
    case Reap(_) => true
  }

  /** From `s` to `s'` the excess grows by `k` on `over` and shrinks by `k` on `under`. */
  ghost predicate Shifted(s: State, s': State, over: set<Node>, under: set<Node>, k: nat) {
    && s'.tree == s.tree
    && forall n: Node :: Excess(s', n) == Excess(s, n) + (if n in over then k else 0) - (if n in under then k else 0)
  }

  lemma ShiftDecides(s: State, s': State, over: set<Node>, under: set<Node>, k: nat)
    requires Conserved(s) && k > 0 && Shifted(s, s', over, under, k)
    ensures Conserved(s') <==> forall n :: n in s.tree.alive ==> (n in over <==> n in under)
  {
  }

  lemma PublishShifts(s: State, g: GuardId)
    requires PathsOk(s.tree, s.guards) && g in s.guards && PublishStep(s, g).1.Ok?
    ensures Shifted(s, PublishStep(s, g).0, {}, Missed(s.tree, s.guards[g].cgroup, s.guards[g].path), 1)
  {
    forall n: Node { PublishExcess(s, g, n); }
  }

  lemma PublishConservesIff(s: State, g: GuardId)
    requires PathsOk(s.tree, s.guards) && Conserved(s) && g in s.guards
    ensures Conserved(PublishStep(s, g).0) <==>
      (Publishable(s, g) ==> Reaches(s.tree, s.guards[g].cgroup, s.guards[g].path))
  {
    if PublishStep(s, g).1.Ok? {
      PublishShifts(s, g);
      ShiftDecides(s, PublishStep(s, g).0, {}, Missed(s.tree, s.guards[g].cgroup, s.guards[g].path), 1);
    }
  }

  lemma DropShifts(s: State, g: GuardId, missed: set<Node>)
    requires PathsOk(s.tree, s.guards) && EntriesOk(s.guards, s.tasks, s.pending, s.used) && g in s.guards
    requires missed == if s.guards[g].phase.Published? then Missed(s.tree, s.guards[g].cgroup, s.guards[g].path) else {}
    ensures Shifted(s, DropStep(s, g).0, missed, {}, 1)
  {
    forall n: Node { DropExcess(s, g, n); }
  }

  lemma DropConservesIff(s: State, g: GuardId)
    requires PathsOk(s.tree, s.guards) && EntriesOk(s.guards, s.tasks, s.pending, s.used) && Conserved(s)
    requires g in s.guards
    ensures Conserved(DropStep(s, g).0) <==>
      (s.guards[g].phase.Published? ==> Reaches(s.tree, s.guards[g].cgroup, s.guards[g].path))
  {
    var missed := if s.guards[g].phase.Published? then Missed(s.tree, s.guards[g].cgroup, s.guards[g].path) else {};
    DropShifts(s, g, missed);
    ShiftDecides(s, DropStep(s, g).0, missed, {}, 1);
  }

  lemma ExitShifts(s: State, p: ProcessId, t: ProcessId, exit: ExitKind, missed: set<Node>)
    requires missed == if ExitTakes(s, p, t, exit) then Missing(s.tree, s.tasks[t].cgroup) else {}
    ensures Shifted(s, ExitStep(s, p, t, exit).0, missed, {}, 1)
  {
    forall n: Node { ExitExcess(s, p, t, exit, n); }
  }

  lemma ExitConservesIff(s: State, p: ProcessId, t: ProcessId, exit: ExitKind)
    requires Conserved(s)
    ensures Conserved(ExitStep(s, p, t, exit).0) <==>
              (ExitTakes(s, p, t, exit) ==> Reaches(s.tree, s.tasks[t].cgroup, Ancestry(s.tree, s.tasks[t].cgroup)))
  {
    var missed := if ExitTakes(s, p, t, exit) then Missing(s.tree, s.tasks[t].cgroup) else {};
    ExitShifts(s, p, t, exit, missed);
    ShiftDecides(s, ExitStep(s, p, t, exit).0, missed, {}, 1);
  }

  lemma MoveShifts(s: State, p: ProcessId, target: Node, over: set<Node>, under: set<Node>)
    requires Moves(s, p, target) && over == Missing(s.tree, s.procs[p].node) && under == Missing(s.tree, target)
    ensures Shifted(s, MigrateStep(s, p, target).0, over, under, |TasksOf(s, p)|)
  {
    forall n: Node { MigrateExcess(s, p, target, n); }
  }

  lemma MoveConservesIff(s: State, p: ProcessId, target: Node)
    requires Conserved(s) && Moves(s, p, target)
    ensures Conserved(MigrateStep(s, p, target).0) <==> MissAlike(s.tree, s.procs[p].node, target)
  {
    var over, under, k := Missing(s.tree, s.procs[p].node), Missing(s.tree, target), |TasksOf(s, p)|;
    MoveShifts(s, p, target, over, under);
    ShiftDecides(s, MigrateStep(s, p, target).0, over, under, k);
  }

  /** The two states explain their counters equally well, in the same hierarchy. */
  ghost predicate SameExcess(s: State, s': State) {
    s'.tree == s.tree && forall n: Node :: Excess(s', n) == Excess(s, n)
  }

  lemma SameExcessConserves(s: State, s': State)
    requires Conserved(s) && SameExcess(s, s')
    ensures Conserved(s')
  {
  }

  lemma NoMoveSame(s: State, p: ProcessId, target: Node)
    requires !Moves(s, p, target)
    ensures SameExcess(s, MigrateStep(s, p, target).0)
  {
    forall n: Node ensures Excess(MigrateStep(s, p, target).0, n) == Excess(s, n) { MigrateExcess(s, p, target, n); }
  }

  lemma AttachSame(s: State, pid: ProcessId)
    ensures SameExcess(s, AttachStep(s, pid).0)
  {
    forall n: Node ensures Excess(AttachStep(s, pid).0, n) == Excess(s, n) { AttachExcess(s, pid, n); }
  }

  lemma BeginSame(s: State, g: GuardId, target: Node, process: ProcessId, t: ProcessId, kind: ChildKind)
    requires g !in s.guards
    ensures SameExcess(s, BeginAt(s, g, target, process, t, kind).0)
  {
    forall n: Node ensures Excess(BeginAt(s, g, target, process, t, kind).0, n) == Excess(s, n) {
      BeginExcess(s, g, target, process, t, kind, n);
    }
  }

  lemma RenameSame(s: State, p: ProcessId, t: ProcessId, u: ProcessId)
    ensures SameExcess(s, RenameStep(s, p, t, u).0)
  {
    forall n: Node ensures Excess(RenameStep(s, p, t, u).0, n) == Excess(s, n) { RenameExcess(s, p, t, u, n); }
  }

  lemma CommitSame(s: State, g: GuardId)
    requires g in s.guards && s.guards[g].phase.Published?
    ensures SameExcess(s, CommitStep(s, g).0)
  {
    forall n: Node ensures Excess(CommitStep(s, g).0, n) == Excess(s, n) { GuardOnlyExcess(s, g, n); }
  }

  lemma DropMemberSame(s: State, g: GuardId)
    requires g in s.guards
    ensures SameExcess(s, DropMemberStep(s, g).0)
  {
    forall n: Node ensures Excess(DropMemberStep(s, g).0, n) == Excess(s, n) { GuardOnlyExcess(s, g, n); }
  }

  lemma ReleaseSame(s: State, g: GuardId)
    requires g in s.guards && Distinct(s.guards[g].path)
    ensures SameExcess(s, DropReleaseStep(s, g).0)
  {
    forall n: Node ensures Excess(DropReleaseStep(s, g).0, n) == Excess(s, n) { ReleaseExcess(s, g, n); }
  }

  lemma ForkStepSame(s: State, op: Op)
    requires IsForkOp(op) && ForkLegal(s, op)
    ensures SameExcess(s, ForkStep(s, op).0)
  {
    match op
    case Attach(pid) => AttachSame(s, pid);
    case BeginProcessAt(g, target, t) => BeginSame(s, g, target, t, t, Process);
    case BeginTask(g, p, t, kind) =>
      if p in s.procs && s.procs[p].Active? { BeginSame(s, g, s.procs[p].node, p, t, kind); }
  }

  lemma QuietStepSame(s: State, op: Op)
    requires PathsOk(s.tree, s.guards) && (op.Commit? || op.DropMember? || op.DropRelease?) && GuardLegal(s, op)
    ensures SameExcess(s, GuardStep(s, op).0)
  {
    match op
    case Commit(g) => CommitSame(s, g);
    case DropMember(g) => DropMemberSame(s, g);
    case DropRelease(g) => assert PathOk(s.tree, s.guards[g]); ReleaseSame(s, g);
  }

  lemma CreateConserves(s: State, under: Node, n: Node)
    requires Inv(s) && Conserved(s) && under in s.tree.alive && !IsNode(s.tree, n) && under < n
    ensures Conserved(CreateStep(s, under, n).0)
  {
    var s' := CreateStep(s, under, n).0;
    TasksAreAtNodes(s);
    forall m | m in s'.tree.alive ensures Excess(s', m) == 0 {
      SameWithin(s.tree, s'.tree, s.tasks, m);
      if m == n { FreshNodeIsEmpty(s, n); } else { FromParts(s, s', m, 0, 0, 0); }
    }
  }

  lemma ReclaimConserves(s: State, n: Node)
    requires Inv(s) && Conserved(s) && n != ROOT
    ensures Conserved(ReclaimStep(s, n).0)
  {
    var s' := ReclaimStep(s, n).0;
    TasksAreAtNodes(s);
    forall m | m in s'.tree.alive ensures Excess(s', m) == 0 {
      SameWithin(s.tree, s'.tree, s.tasks, m);
      FromParts(s, s', m, 0, 0, 0);
    }
  }

  lemma SameCountersSame(s: State, s': State)
    requires s'.tree == s.tree && s'.tasks == s.tasks && s'.guards == s.guards
    requires forall n: Node :: At(s'.pids, n).current == At(s.pids, n).current
    ensures SameExcess(s, s')
  {
  }

  lemma RemovalSame(s: State, op: Op)
    requires IsRemoval(op) && RemovalLegal(s, op)
    ensures SameExcess(s, RemovalStep(s, op).0)
  {
    RemovalFrame(s, op);
    SameCountersSame(s, RemovalStep(s, op).0);
  }

  lemma TreeStepSame(s: State, op: Op)
    requires (op.Pin? || op.Unpin? || op.SetMaximum?) && TreeLegal(s, op)
    ensures SameExcess(s, TreeStep(s, op).0)
  {
    SameCountersSame(s, TreeStep(s, op).0);
  }

  lemma TreeStepConserves(s: State, op: Op)
    requires Inv(s) && Conserved(s) && IsTreeOp(op) && TreeLegal(s, op)
    ensures Conserved(TreeStep(s, op).0)
  {
    if op.CreateChild? {
      CreateConserves(s, op.under, op.node);
    } else if op.Reclaim? {
      ReclaimConserves(s, op.node);
    } else {
      TreeStepSame(s, op);
      SameExcessConserves(s, TreeStep(s, op).0);
    }
  }

  lemma TasksAreAtNodes(s: State)
    requires LedgerOk(s.tasks, s.procs, s.used) && OwnersAlive(s.tree.alive, s.procs)
    ensures forall t :: t in s.tasks ==> IsNode(s.tree, s.tasks[t].cgroup)
  {
  }

  lemma TaskStepConservesIff(s: State, op: Op)
    requires Inv(s) && Conserved(s) && IsTaskOp(op) && TaskLegal(s, op)
    ensures Conserved(TaskStep(s, op).0) <==> TaskWalkReaches(s, op)
  {
    match op
    case Exit(p, t, exit) => ExitConservesIff(s, p, t, exit);
    case Migrate(p, target) =>
      if Moves(s, p, target) {
        MoveConservesIff(s, p, target);
      } else {
        NoMoveSame(s, p, target);
        SameExcessConserves(s, MigrateStep(s, p, target).0);
      }
    case Rename(p, t, u) =>
      RenameSame(s, p, t, u);
      SameExcessConserves(s, RenameStep(s, p, t, u).0);
    case Reap(p) =>
      SameCountersSame(s, ReapStep(s, p).0);
      SameExcessConserves(s, ReapStep(s, p).0);
  }

  lemma GuardStepConservesIff(s: State, op: Op)
    requires Inv(s) && Conserved(s) && IsGuardOp(op) && GuardLegal(s, op)
    ensures Conserved(GuardStep(s, op).0) <==> GuardWalkReaches(s, op)
  {
    if op.Publish? {
      PublishConservesIff(s, op.g);
    } else if op.Drop? {
      DropConservesIff(s, op.g);
    } else {
      QuietStepSame(s, op);
      SameExcessConserves(s, GuardStep(s, op).0);
    }
  }

  /** Conservation is kept by a step exactly when its walk reaches the live nodes above. */
  lemma StepConservesIff(s: State, op: Op)
    requires Inv(s) && Conserved(s) && Legal(s, op)
    ensures Conserved(Step(s, op).0) <==> WalksReach(s, op)
  {
    if IsGuardOp(op) { GuardStepConservesIff(s, op); }
    else if IsTaskOp(op) { TaskStepConservesIff(s, op); }
    else if IsForkOp(op) { ForkStepSame(s, op); SameExcessConserves(s, ForkStep(s, op).0); }
    else if IsRemoval(op) { RemovalSame(s, op); SameExcessConserves(s, RemovalStep(s, op).0); }
    else { TreeStepConserves(s, op); }
  }

  // ---- Whole runs ----

  ghost predicate AlwaysConserved(s: State, ops: seq<Op>)
    requires LegalRun(s, ops)
    decreases |ops|
  {
    Conserved(s) && (ops != [] ==> AlwaysConserved(Step(s, ops[0]).0, ops[1..]))
  }

  ghost predicate WalksAlwaysReach(s: State, ops: seq<Op>)
    requires LegalRun(s, ops)
    decreases |ops|
  {
    ops != [] ==> WalksReach(s, ops[0]) && WalksAlwaysReach(Step(s, ops[0]).0, ops[1..])
  }

  lemma {:induction false} RunConservesIff(s: State, ops: seq<Op>)
    requires Inv(s) && Conserved(s) && LegalRun(s, ops)
    ensures AlwaysConserved(s, ops) <==> WalksAlwaysReach(s, ops)
    decreases |ops|
  {
    if ops != [] {
      StepKeepsInv(s, ops[0]);
      StepConservesIff(s, ops[0]);
      if WalksReach(s, ops[0]) {
        RunConservesIff(Step(s, ops[0]).0, ops[1..]);
      }
    }
  }

  /** From boot, every state of a legal run is conserved if and only if every step's walk reaches
      the live nodes above. */
  lemma ConservedThroughoutIff(ops: seq<Op>)
    requires LegalRun(INITIAL, ops)
    ensures AlwaysConserved(INITIAL, ops) <==> WalksAlwaysReach(INITIAL, ops)
  {
    RunConservesIff(INITIAL, ops);
  }

  // ---- A refused fork ----

  /** The top of a walk, and nothing else on it, has no live parent. */
  lemma {:induction false} OnlyTopIsParentless(tree: Tree, c: Node, k: nat)
    requires k < |Ancestry(tree, c)|
    ensures HasLiveParent(tree, Ancestry(tree, c)[k]) <==> k < |Ancestry(tree, c)| - 1
    decreases c
  {
    if k > 0 { OnlyTopIsParentless(tree, tree.parent[c], k - 1); }
  }

  lemma RefusedAt(tree: Tree, pids: PidsMap, below: set<Node>, above: set<Node>, n: Node)
    requires below !! above
    ensures At(Refused(tree, pids, below, above), n) ==
      At(pids, n).(peak := if n in below then Max(At(pids, n).peak, At(pids, n).current + 1) else At(pids, n).peak,
                   events := At(pids, n).events + One(n in above && HasLiveParent(tree, n)))
  {
  }

  lemma SplitWalk(tree: Tree, c: Node, i: nat)
    requires i <= |Ancestry(tree, c)|
    ensures Elements(Ancestry(tree, c)[..i]) !! Elements(Ancestry(tree, c)[i..])
    ensures forall n :: n in Ancestry(tree, c) <==> n in Ancestry(tree, c)[..i] || n in Ancestry(tree, c)[i..]
  {
    AncestryDistinct(tree, c);
    assert Ancestry(tree, c) == Ancestry(tree, c)[..i] + Ancestry(tree, c)[i..];
  }

  /** The lowest full cgroup above the target: it refuses, and nothing below it does. */
  ghost predicate Refuser(s: State, target: Node, r: Node) {
    && r in Ancestry(s.tree, target) && Refuses(At(s.pids, r))
    && forall x :: x in Ancestry(s.tree, target) && x !in Ancestry(s.tree, r) ==> !Refuses(At(s.pids, x))
  }

  /** The lowest full cgroup `r` above the target refuses: no counter changes, one limit event is
      counted at `r` and at each node above it on the walk that has a live parent and nowhere
      else, and the cgroups below `r` may keep a raised peak. */
  lemma RefusedForkIsAllOrNothing(s: State, g: GuardId, target: Node, process: ProcessId, t: ProcessId,
        kind: ChildKind) returns (r: Node)
    requires BeginAt(s, g, target, process, t, kind).1 == Err(LimitExceeded)
    ensures Refuser(s, target, r)
    ensures
      var s' := BeginAt(s, g, target, process, t, kind).0;
      && s' == s.(pids := s'.pids)
      && forall n: Node ::
          && At(s'.pids, n).current == At(s.pids, n).current
          && At(s'.pids, n).maximum == At(s.pids, n).maximum
          && At(s'.pids, n).events == At(s.pids, n).events + One(n in Ancestry(s.tree, r) && HasLiveParent(s.tree, n))
          && At(s'.pids, n).peak ==
               if n in Ancestry(s.tree, target) && n !in Ancestry(s.tree, r)
                 then Max(At(s.pids, n).peak, At(s.pids, n).current + 1)
               else At(s.pids, n).peak
  {
    var path := Ancestry(s.tree, target);
    var i := FirstRefusal(s.pids, path);
    r := path[i];
    AncestryAt(s.tree, target, i);
    SplitWalk(s.tree, target, i);
    forall n: Node { RefusedAt(s.tree, s.pids, Elements(path[..i]), Elements(path[i..]), n); }
  }

  /** An event at the refuser and at each of its ancestors except the root. */
  ghost predicate EventsUpToRoot(s: State, s': State, r: Node) {
    forall n: Node :: At(s'.pids, n).events == At(s.pids, n).events + One(n in Ancestry(s.tree, r) && n != ROOT)
  }

  ghost function Top(tree: Tree, c: Node): Node {
    Ancestry(tree, c)[|Ancestry(tree, c)| - 1]
  }

  lemma RootIsTop(tree: Tree, c: Node)
    ensures ROOT in Ancestry(tree, c) <==> Top(tree, c) == ROOT
  {
    var walk := Ancestry(tree, c);
    if ROOT in walk {
      var k :| 0 <= k < |walk| && walk[k] == ROOT;
      OnlyTopIsParentless(tree, c, k);
    }
  }

  lemma SameTop(tree: Tree, c: Node, r: Node)
    requires r in Ancestry(tree, c)
    ensures Top(tree, r) == Top(tree, c)
  {
    var i :| 0 <= i < |Ancestry(tree, c)| && Ancestry(tree, c)[i] == r;
    AncestryAt(tree, c, i);
  }

  lemma TopIsParentless(tree: Tree, r: Node, n: Node)
    requires n in Ancestry(tree, r)
    ensures HasLiveParent(tree, n) <==> n != Top(tree, r)
  {
    var walk := Ancestry(tree, r);
    var k :| 0 <= k < |walk| && walk[k] == n;
    AncestryDistinct(tree, r);
    OnlyTopIsParentless(tree, r, k);
  }

  lemma LowerIsNotAbove(tree: Tree, c: Node, i: nat, j: nat)
    requires i < j < |Ancestry(tree, c)|
    ensures Ancestry(tree, c)[i] !in Ancestry(tree, Ancestry(tree, c)[j])
  {
    AncestryAt(tree, c, j);
    AncestryDistinct(tree, c);
  }

  lemma RefuserIsUnique(s: State, target: Node, r: Node, q: Node)
    requires Refuser(s, target, r) && Refuser(s, target, q)
    ensures q == r
  {
    var path := Ancestry(s.tree, target);
    var i :| 0 <= i < |path| && path[i] == r;
    var j :| 0 <= j < |path| && path[j] == q;
    if i < j { LowerIsNotAbove(s.tree, target, i, j); } else if j < i { LowerIsNotAbove(s.tree, target, j, i); }
  }

  lemma EventsByTop(s: State, s': State, target: Node, r: Node)
    requires r in Ancestry(s.tree, target)
    requires forall n: Node ::
      At(s'.pids, n).events == At(s.pids, n).events + One(n in Ancestry(s.tree, r) && HasLiveParent(s.tree, n))
    ensures EventsUpToRoot(s, s', r) <==> ROOT in Ancestry(s.tree, target)
  {
    var top := Top(s.tree, r);
    SameTop(s.tree, target, r);
    RootIsTop(s.tree, target);
    forall n | n in Ancestry(s.tree, r)
      ensures HasLiveParent(s.tree, n) <==> n != top { TopIsParentless(s.tree, r, n); }
    assert At(s'.pids, top).events == At(s.pids, top).events;
    if EventsUpToRoot(s, s', r) {
      assert At(s'.pids, top).events == At(s.pids, top).events + One(top in Ancestry(s.tree, r) && top != ROOT);
    }
  }

  /** The events land on the refuser and all its ancestors except the root if and only if the walk
      from the target reaches the root. Otherwise the top of the walk is passed over, even when it
      is the one that refuses. */
  lemma EventsReachRootIff(s: State, g: GuardId, target: Node, process: ProcessId, t: ProcessId, kind: ChildKind,
        r: Node)
    requires BeginAt(s, g, target, process, t, kind).1 == Err(LimitExceeded) && Refuser(s, target, r)
    ensures EventsUpToRoot(s, BeginAt(s, g, target, process, t, kind).0, r) <==> ROOT in Ancestry(s.tree, target)
  {
    var s' := BeginAt(s, g, target, process, t, kind).0;
    var q := RefusedForkIsAllOrNothing(s, g, target, process, t, kind);
    RefuserIsUnique(s, target, r, q);
    EventsByTop(s, s', target, r);
  }
}
