/** What the counters cover on every legal run, careful or not: at each node, the committed tasks
    whose walk passes it and the guards that would release it. So nothing is ever taken off a
    counter that is not there. */
module Claims {
  import opened CgroupTree
  import opened Membership
  import opened MembershipInvariant
  import opened Conservation

  /** The ledger without the tasks whose fork is not committed. */
  ghost function Settled(tasks: Ledger, pending: Pending): Ledger {
    tasks - pending.Keys
  }

  /** The nodes whose walk passes `n`. */
  ghost function Passing(tree: Tree, n: Node): iset<Node> {
    iset c: Node | n in Ancestry(tree, c)
  }

  /** Committed tasks whose exit would uncharge `n`. */
  ghost function Claimants(s: State, n: Node): set<ProcessId> {
    Within(Settled(s.tasks, s.pending), Passing(s.tree, n))
  }

  /** Guards whose drop would uncharge `n`. */
  ghost function Owing(guards: Guards, n: Node): set<GuardId> {
    set g | g in guards && guards[g].Owes(n)
  }

  ghost function Slack(s: State, n: Node): int {
    At(s.pids, n).current - |Claimants(s, n)| - |Owing(s.guards, n)|
  }

  /** A fork still to be committed has charged at least what its task will have to release. */
  ghost predicate PathsCover(tree: Tree, guards: Guards) {
    forall g :: g in guards && guards[g].Uncommitted() ==>
      Elements(Ancestry(tree, guards[g].cgroup)) <= Elements(guards[g].path)
  }

  ghost predicate PendingOwned(tasks: Ledger, pending: Pending) {
    forall t :: t in tasks && t in pending ==> pending[t] == tasks[t].process
  }

  ghost predicate Covered(s: State) {
    && PathsCover(s.tree, s.guards) && PendingOwned(s.tasks, s.pending)
    && forall n: Node :: Slack(s, n) >= 0
  }

  // ---- Counting ----

  lemma OwingUpdate(guards: Guards, g: GuardId, h: Guard, n: Node)
    ensures |Owing(guards[g := h], n)| == |Owing(guards, n)| - One(g in guards && guards[g].Owes(n)) + One(h.Owes(n))
  {
    var rest := Owing(guards, n) - {g};
    assert Owing(guards, n) == if g in guards && guards[g].Owes(n) then rest + {g} else rest;
    assert Owing(guards[g := h], n) == if h.Owes(n) then rest + {g} else rest;
  }

  lemma SlackOf(s: State, s': State, n: Node, current: int, claims: int, owing: int)
    requires At(s'.pids, n).current == At(s.pids, n).current + current
    requires |Claimants(s', n)| == |Claimants(s, n)| + claims
    requires |Owing(s'.guards, n)| == |Owing(s.guards, n)| + owing
    ensures Slack(s', n) == Slack(s, n) + current - claims - owing
  {
  }

  lemma SlackSame(s: State, s': State, n: Node)
    requires s'.tree == s.tree && s'.guards == s.guards && Settled(s'.tasks, s'.pending) == Settled(s.tasks, s.pending)
    requires At(s'.pids, n).current == At(s.pids, n).current
    ensures Slack(s', n) == Slack(s, n)
  {
  }

  /** What becomes of the settled ledger when an entry or a pending mark comes or goes. */
  lemma SettledPut(tasks: Ledger, pending: Pending, t: ProcessId, task: Task)
    ensures t !in pending ==> Settled(tasks[t := task], pending) == Settled(tasks, pending)[t := task]
    ensures t in pending ==> Settled(tasks[t := task], pending) == Settled(tasks, pending)
  {
  }

  lemma SettledMark(tasks: Ledger, pending: Pending, t: ProcessId, owner: ProcessId)
    requires t !in tasks
    ensures Settled(tasks, pending[t := owner]) == Settled(tasks, pending) == Settled(tasks, pending - {t})
  {
  }

  lemma SettledUnmark(tasks: Ledger, pending: Pending, t: ProcessId)
    requires t in tasks && t in pending
    ensures t !in Settled(tasks, pending)
    ensures Settled(tasks, pending - {t}) == Settled(tasks, pending)[t := tasks[t]]
    ensures Settled(tasks - {t}, pending - {t}) == Settled(tasks, pending)
  {
  }

  lemma SettledTake(tasks: Ledger, pending: Pending, t: ProcessId)
    ensures Settled(tasks - {t}, pending) == Settled(tasks, pending) - {t}
  {
  }

  lemma SettledMoved(tasks: Ledger, pending: Pending, p: ProcessId, target: Node)
    ensures Settled(Moved(tasks, p, target), pending) == Moved(Settled(tasks, pending), p, target)
  {
  }

  // ---- Forks ----

  lemma AttachSlack(s: State, pid: ProcessId, n: Node)
    requires Inv(s) && pid !in s.used
    ensures Slack(AttachStep(s, pid).0, n) == Slack(s, n)
  {
    var s' := AttachStep(s, pid).0;
    assert pid !in s.tasks && pid !in s.pending && (ROOT, pid) !in s.members;
    AttachCurrent(s, pid, n);
    SettledPut(s.tasks, s.pending, pid, Task(pid, ROOT));
    WithinInsert(Settled(s.tasks, s.pending), pid, Task(pid, ROOT), Passing(s.tree, n));
    SlackOf(s, s', n, One(n in Ancestry(s.tree, ROOT)), One(n in Ancestry(s.tree, ROOT)), 0);
  }

  lemma BegunSlack(s: State, g: GuardId, target: Node, process: ProcessId, t: ProcessId, kind: ChildKind, n: Node)
    requires Inv(s) && g !in s.guards && t !in s.used && BeginAt(s, g, target, process, t, kind).1.Ok?
    ensures Slack(BeginAt(s, g, target, process, t, kind).0, n) == Slack(s, n)
  {
    var s' := BeginAt(s, g, target, process, t, kind).0;
    BegunCurrent(s, g, target, process, t, kind, n);
    SettledMark(s.tasks, s.pending, t, s'.pending[t]);
    OwingUpdate(s.guards, g, s'.guards[g], n);
    SlackOf(s, s', n, One(n in Elements(Ancestry(s.tree, target))), 0, One(n in Elements(Ancestry(s.tree, target))));
  }

  lemma RefusedSlack(s: State, g: GuardId, target: Node, process: ProcessId, t: ProcessId, kind: ChildKind, n: Node)
    requires BeginAt(s, g, target, process, t, kind).1.Err?
    ensures Slack(BeginAt(s, g, target, process, t, kind).0, n) == Slack(s, n)
  {
    RefusedCurrent(s, g, target, process, t, kind, n);
    SlackSame(s, BeginAt(s, g, target, process, t, kind).0, n);
  }

  // ---- Guards ----

  /** A guard that changes phase and still owes the same, while the settled ledger stays. */
  lemma PhaseSlack(s: State, s': State, g: GuardId, h: Guard, n: Node)
    requires g in s.guards && s'.guards == s.guards[g := h] && s'.tree == s.tree && s'.pids == s.pids
    requires Settled(s'.tasks, s'.pending) == Settled(s.tasks, s.pending) && (h.Owes(n) <==> s.guards[g].Owes(n))
    ensures Slack(s', n) == Slack(s, n)
  {
    OwingUpdate(s.guards, g, h, n);
  }

  lemma PublishSlack(s: State, g: GuardId, n: Node)
    requires g in s.guards
    ensures Slack(PublishStep(s, g).0, n) == Slack(s, n)
  {
    var s' := PublishStep(s, g).0;
    if s' != s {
      var h := s.guards[g];
      SettledPut(s.tasks, s.pending, h.task, Task(h.process, h.cgroup));
      PhaseSlack(s, s', g, s'.guards[g], n);
    }
  }

  /** The task takes over from its guard; nodes freed meanwhile are let go for good. */
  lemma CommitSlack(s: State, g: GuardId, n: Node)
    requires Inv(s) && g in s.guards && s.guards[g].phase.Published? && PathsCover(s.tree, s.guards)
    ensures Slack(CommitStep(s, g).0, n) ==
      Slack(s, n) + One(n in s.guards[g].path && n !in Ancestry(s.tree, s.guards[g].cgroup))
  {
    var s', h := CommitStep(s, g).0, s.guards[g];
    assert EntryOk(h, s.tasks, s.pending, s.used);
    SettledUnmark(s.tasks, s.pending, h.task);
    WithinInsert(Settled(s.tasks, s.pending), h.task, Task(h.process, h.cgroup), Passing(s.tree, n));
    OwingUpdate(s.guards, g, s'.guards[g], n);
    SlackOf(s, s', n, 0, One(n in Ancestry(s.tree, h.cgroup)), -One(n in h.path));
    assert n in Elements(Ancestry(s.tree, h.cgroup)) ==> n in Elements(h.path);
  }

  lemma DropPreparedSlack(s: State, g: GuardId, n: Node)
    requires g in s.guards && s.guards[g].phase.Prepared? && s.guards[g].task !in s.tasks
    ensures Slack(DropStep(s, g).0, n) == Slack(s, n)
  {
    var s', h := DropStep(s, g).0, s.guards[g];
    assert h.path[0..] == h.path;
    SettledMark(s.tasks, s.pending, h.task, h.process);
    PhaseSlack(s, s', g, s'.guards[g], n);
  }

  lemma DropPublishedSlack(s: State, g: GuardId, n: Node)
    requires g in s.guards && s.guards[g].phase.Published?
    requires s.guards[g].task in s.tasks && s.guards[g].task in s.pending
    ensures Slack(DropStep(s, g).0, n) == Slack(s, n)
  {
    var s', h := DropStep(s, g).0, s.guards[g];
    assert h.path[0..] == h.path;
    SettledUnmark(s.tasks, s.pending, h.task);
    PhaseSlack(s, s', g, s'.guards[g], n);
  }

  lemma DropSlack(s: State, g: GuardId, n: Node)
    requires Inv(s) && g in s.guards
    ensures Slack(DropStep(s, g).0, n) == Slack(s, n)
  {
    var h := s.guards[g];
    assert EntryOk(h, s.tasks, s.pending, s.used);
    if h.phase.Prepared? { DropPreparedSlack(s, g, n); } else if h.phase.Published? { DropPublishedSlack(s, g, n); }
  }

  lemma DropMemberSlack(s: State, g: GuardId, n: Node)
    requires g in s.guards
    ensures Slack(DropMemberStep(s, g).0, n) == Slack(s, n)
  {
    var s', h := DropMemberStep(s, g).0, s.guards[g];
    if s' != s {
      assert h.path[0..] == h.path;
      PhaseSlack(s, s', g, s'.guards[g], n);
    }
  }

  lemma ReleaseSlack(s: State, g: GuardId, n: Node)
    requires g in s.guards && Distinct(s.guards[g].path)
    ensures Slack(DropReleaseStep(s, g).0, n) == Slack(s, n)
  {
    var h := s.guards[g];
    if h.phase.Releasing? && h.phase.next < |h.path| {
      OwingUpdate(s.guards, g, h.(phase := Releasing(h.phase.next + 1)), n);
      HeldAfterRelease(h, n);
      CurrentAfterUncharge(s.pids, {h.path[h.phase.next]}, 1, n);
    }
  }

  // ---- Tasks ----

  /** None of the tasks that move is waiting for its commit. */
  lemma MoversAreSettled(s: State, p: ProcessId)
    requires PendingOwned(s.tasks, s.pending) && !HasPending(s, p)
    ensures forall t :: t in s.tasks && s.tasks[t].process == p ==> t in Settled(s.tasks, s.pending)
    ensures TasksOf(s, p) == set t | t in Settled(s.tasks, s.pending) && Settled(s.tasks, s.pending)[t].process == p
  {
  }

  lemma MoveSlack(s: State, p: ProcessId, target: Node, n: Node)
    requires PendingOwned(s.tasks, s.pending) && Moves(s, p, target)
    ensures Slack(MigrateStep(s, p, target).0, n) == Slack(s, n)
  {
    var s', home, k := MigrateStep(s, p, target).0, s.procs[p].node, |TasksOf(s, p)|;
    MoveFrame(s, p, target);
    MoveCurrent(s, p, target, n);
    MoversAreSettled(s, p);
    SettledMoved(s.tasks, s.pending, p, target);
    WithinMoved(Settled(s.tasks, s.pending), p, home, target, Passing(s.tree, n), TasksOf(s, p));
    var change := (if n in Ancestry(s.tree, target) then k else 0) - (if n in Ancestry(s.tree, home) then k else 0);
    SlackOf(s, s', n, change, change, 0);
  }

  lemma StaySlack(s: State, p: ProcessId, target: Node, n: Node)
    requires !Moves(s, p, target)
    ensures Slack(MigrateStep(s, p, target).0, n) == Slack(s, n)
  {
    NoMoveCurrent(s, p, target, n);
    NoMoveFrame(s, p, target);
    SlackSame(s, MigrateStep(s, p, target).0, n);
  }

  lemma ExitSlack(s: State, p: ProcessId, t: ProcessId, exit: ExitKind, n: Node)
    requires t !in s.pending
    ensures Slack(ExitStep(s, p, t, exit).0, n) == Slack(s, n)
  {
    var s' := ExitStep(s, p, t, exit).0;
    if ExitTakes(s, p, t, exit) {
      var reached := One(n in Ancestry(s.tree, s.tasks[t].cgroup));
      SettledTake(s.tasks, s.pending, t);
      WithinRemove(Settled(s.tasks, s.pending), t, Passing(s.tree, n));
      ExitCurrent(s, p, t, exit, n);
      SlackOf(s, s', n, -reached, -reached, 0);
    }
  }

  lemma RenameSlack(s: State, p: ProcessId, t: ProcessId, u: ProcessId, n: Node)
    requires t !in s.pending
    ensures Slack(RenameStep(s, p, t, u).0, n) == Slack(s, n)
  {
    var s' := RenameStep(s, p, t, u).0;
    if RenameStep(s, p, t, u).1.Ok? {
      var settled := Settled(s.tasks, s.pending);
      SettledTake(s.tasks, s.pending, t);
      SettledPut(s.tasks - {t}, s.pending, u, s.tasks[t]);
      WithinRemove(settled, t, Passing(s.tree, n));
      WithinInsert(settled - {t}, u, s.tasks[t], Passing(s.tree, n));
      SlackOf(s, s', n, 0, 0, 0);
    }
  }

  // ---- The hierarchy ----

  /** Fewer live parents make walks shorter. */
  lemma {:induction false} AncestryShrinks(tree: Tree, tree': Tree, c: Node)
    requires forall x :: x in Ancestors(tree, c) && HasLiveParent(tree', x) ==>
      HasLiveParent(tree, x) && tree'.parent[x] == tree.parent[x]
    ensures Elements(Ancestry(tree', c)) <= Elements(Ancestry(tree, c))
    decreases c
  {
    AncestorsReflexive(tree, c);
    if HasLiveParent(tree', c) {
      AncestryShrinks(tree, tree', tree.parent[c]);
    }
  }

  /** A new node is on nobody's walk yet. */
  lemma GrownWalk(tree: Tree, under: Node, n: Node, c: Node)
    requires IsNode(tree, c) && IsNode(tree, under) && !IsNode(tree, n) && under < n
    ensures
      var tree': Tree := RawTree(tree.parent[n := under], tree.alive + {n});
      Elements(Ancestry(tree', c)) == Elements(Ancestry(tree, c))
  {
    var tree': Tree := RawTree(tree.parent[n := under], tree.alive + {n});
    forall x | x in Ancestors(tree, c) && HasLiveParent(tree', x)
      ensures HasLiveParent(tree, x) && tree'.parent[x] == tree.parent[x]
    {
      AncestorsAreNodes(tree, c, x);
    }
    AncestryShrinks(tree, tree', c);
    AncestryShrinks(tree', tree, c);
  }

  /** Freeing `n` cuts the walks that come from below at `n`. */
  lemma {:induction false} TrimmedWalk(tree: Tree, n: Node, c: Node)
    requires n != ROOT && c != n
    ensures
      var tree': Tree := RawTree(tree.parent, tree.alive - {n});
      forall x :: x in Ancestry(tree', c) <==>
        x in Ancestry(tree, c) && !(n in Ancestry(tree, c) && x in Ancestry(tree, n))
    decreases c
  {
    var tree': Tree := RawTree(tree.parent, tree.alive - {n});
    if HasLiveParent(tree, c) {
      var up := tree.parent[c];
      if n in Ancestry(tree, c) { AboveIsNotBelow(tree, c, n); }
      if up != n { TrimmedWalk(tree, n, up); }
    }
  }

  /** A node is not on the walk of another that is above it. */
  lemma AboveIsNotBelow(tree: Tree, c: Node, n: Node)
    requires n in Ancestry(tree, c) && c != n
    ensures c !in Ancestry(tree, n)
  {
    var i :| 0 <= i < |Ancestry(tree, c)| && Ancestry(tree, c)[i] == n;
    AncestryAt(tree, c, i);
    AncestryDistinct(tree, c);
  }

  /** Nothing is claimed of a node that does not exist yet. */
  lemma FreshNodeUnclaimed(s: State, n: Node)
    requires Inv(s) && !IsNode(s.tree, n)
    ensures Claimants(s, n) == {} && Owing(s.guards, n) == {}
  {
    TasksAreAtNodes(s);
    forall t | t in s.tasks ensures n !in Ancestry(s.tree, s.tasks[t].cgroup) {
      AncestryWithin(s.tree, s.tasks[t].cgroup);
      forall x | x in Ancestors(s.tree, s.tasks[t].cgroup) ensures IsNode(s.tree, x) {
        AncestorsAreNodes(s.tree, s.tasks[t].cgroup, x);
      }
    }
    forall g | g in s.guards ensures n !in s.guards[g].path {
      assert PathOk(s.tree, s.guards[g]);
      if n in s.guards[g].path { AncestorsAreNodes(s.tree, s.guards[g].cgroup, n); }
    }
  }

  lemma CreateSlack(s: State, under: Node, n: Node, m: Node)
    requires Inv(s) && under in s.tree.alive && !IsNode(s.tree, n) && under < n
    ensures Slack(CreateStep(s, under, n).0, m) == if m == n then 0 else Slack(s, m)
  {
    var s' := CreateStep(s, under, n).0;
    TasksAreAtNodes(s);
    forall t | t in s.tasks
      ensures m in Ancestry(s'.tree, s.tasks[t].cgroup) <==> m in Ancestry(s.tree, s.tasks[t].cgroup)
    {
      GrownWalk(s.tree, under, n, s.tasks[t].cgroup);
      assert m in Elements(Ancestry(s'.tree, s.tasks[t].cgroup)) <==>
        m in Elements(Ancestry(s.tree, s.tasks[t].cgroup));
    }
    assert Claimants(s', m) == Claimants(s, m);
    if m == n { FreshNodeUnclaimed(s, n); }
  }

  /** The claimants of `m` whose walk comes up through `n`. */
  ghost function CutOff(s: State, n: Node, m: Node): set<ProcessId> {
    set t | t in Settled(s.tasks, s.pending) && n in Ancestry(s.tree, s.tasks[t].cgroup) && m in Ancestry(s.tree, n)
  }

  lemma CutWalk(tree: Tree, n: Node, c: Node, m: Node)
    requires n != ROOT && c != n
    ensures
      var tree': Tree := RawTree(tree.parent, tree.alive - {n});
      var cut := n in Ancestry(tree, c) && m in Ancestry(tree, n);
      (m in Ancestry(tree, c) <==> cut || m in Ancestry(tree', c)) && !(cut && m in Ancestry(tree', c))
  {
    TrimmedWalk(tree, n, c);
    WalkGoesOn(tree, c, n, m);
  }

  lemma CutClaims(s: State, n: Node, m: Node)
    requires n != ROOT && Unowned(s, n)
    ensures Claimants(s, m) == Claimants(ReclaimStep(s, n).0, m) + CutOff(s, n, m)
    ensures Claimants(ReclaimStep(s, n).0, m) !! CutOff(s, n, m)
  {
    forall t | t in s.tasks
      ensures
        var c := s.tasks[t].cgroup;
        var cut := n in Ancestry(s.tree, c) && m in Ancestry(s.tree, n);
        && (m in Ancestry(s.tree, c) <==> cut || m in Ancestry(ReclaimStep(s, n).0.tree, c))
        && !(cut && m in Ancestry(ReclaimStep(s, n).0.tree, c))
    {
      CutWalk(s.tree, n, s.tasks[t].cgroup, m);
    }
  }

  lemma ReclaimSlack(s: State, n: Node, m: Node)
    requires n != ROOT && Unowned(s, n)
    ensures Slack(ReclaimStep(s, n).0, m) == Slack(s, m) + |CutOff(s, n, m)|
  {
    CutClaims(s, n, m);
  }

  lemma WalkGoesOn(tree: Tree, c: Node, n: Node, m: Node)
    ensures n in Ancestry(tree, c) && m in Ancestry(tree, n) ==> m in Ancestry(tree, c)
  {
    if n in Ancestry(tree, c) && m in Ancestry(tree, n) {
      var i :| 0 <= i < |Ancestry(tree, c)| && Ancestry(tree, c)[i] == n;
      AncestryAt(tree, c, i);
      assert m in Ancestry(tree, c)[i..];
    }
  }

  // ---- Every step keeps the counters above the claims ----

  lemma CreateKeepsPaths(s: State, under: Node, n: Node)
    requires Inv(s) && PathsCover(s.tree, s.guards) && under in s.tree.alive && !IsNode(s.tree, n) && under < n
    ensures PathsCover(CreateStep(s, under, n).0.tree, s.guards)
  {
    forall g | g in s.guards && s.guards[g].Uncommitted()
      ensures Elements(Ancestry(CreateStep(s, under, n).0.tree, s.guards[g].cgroup)) <= Elements(s.guards[g].path)
    {
      assert PathOk(s.tree, s.guards[g]);
      GrownWalk(s.tree, under, n, s.guards[g].cgroup);
    }
  }

  lemma ReclaimKeepsPaths(s: State, n: Node)
    requires PathsCover(s.tree, s.guards) && n != ROOT
    ensures PathsCover(ReclaimStep(s, n).0.tree, s.guards)
  {
    forall g | g in s.guards && s.guards[g].Uncommitted()
      ensures Elements(Ancestry(ReclaimStep(s, n).0.tree, s.guards[g].cgroup)) <= Elements(s.guards[g].path)
    {
      AncestryShrinks(s.tree, RawTree(s.tree.parent, s.tree.alive - {n}), s.guards[g].cgroup);
    }
  }

  lemma BeginSlack(s: State, g: GuardId, target: Node, process: ProcessId, t: ProcessId, kind: ChildKind, n: Node)
    requires Inv(s) && g !in s.guards && t !in s.used
    ensures Slack(BeginAt(s, g, target, process, t, kind).0, n) == Slack(s, n)
  {
    if BeginAt(s, g, target, process, t, kind).1.Ok? { BegunSlack(s, g, target, process, t, kind, n); }
    else { RefusedSlack(s, g, target, process, t, kind, n); }
  }

  lemma ForkStepSlack(s: State, op: Op, n: Node)
    requires Inv(s) && IsForkOp(op) && ForkLegal(s, op)
    ensures Slack(ForkStep(s, op).0, n) == Slack(s, n)
  {
    if op.Attach? {
      AttachSlack(s, op.pid, n);
    } else if op.BeginProcessAt? {
      BeginSlack(s, op.g, op.target, op.task, op.task, Process, n);
    } else if op.process in s.procs && s.procs[op.process].Active? {
      BeginSlack(s, op.g, s.procs[op.process].node, op.process, op.task, op.kind, n);
    }
  }

  lemma ForkStepSides(s: State, op: Op)
    requires Inv(s) && Covered(s) && IsForkOp(op) && ForkLegal(s, op)
    ensures
      var s' := ForkStep(s, op).0;
      PathsCover(s'.tree, s'.guards) && PendingOwned(s'.tasks, s'.pending)
  {
    if op.Attach? {
      AttachSides(s, op.pid);
    } else if op.BeginProcessAt? {
      BeginSides(s, op.g, op.target, op.task, op.task, Process);
    } else if op.process in s.procs && s.procs[op.process].Active? {
      BeginSides(s, op.g, s.procs[op.process].node, op.process, op.task, op.kind);
    }
  }

  lemma ForkStepCovered(s: State, op: Op)
    requires Inv(s) && Covered(s) && IsForkOp(op) && ForkLegal(s, op)
    ensures Covered(ForkStep(s, op).0)
  {
    ForkStepSides(s, op);
    forall n: Node ensures Slack(ForkStep(s, op).0, n) >= 0 { ForkStepSlack(s, op, n); }
  }

  lemma AttachSides(s: State, pid: ProcessId)
    requires PathsCover(s.tree, s.guards) && PendingOwned(s.tasks, s.pending)
    ensures
      var s' := AttachStep(s, pid).0;
      PathsCover(s'.tree, s'.guards) && PendingOwned(s'.tasks, s'.pending)
  {
  }

  lemma BeginPaths(s: State, g: GuardId, target: Node, process: ProcessId, t: ProcessId, kind: ChildKind)
    requires PathsCover(s.tree, s.guards) && g !in s.guards
    ensures
      var s' := BeginAt(s, g, target, process, t, kind).0;
      PathsCover(s'.tree, s'.guards)
  {
  }

  lemma BeginOwned(s: State, g: GuardId, target: Node, process: ProcessId, t: ProcessId, kind: ChildKind)
    requires Inv(s) && PendingOwned(s.tasks, s.pending) && t !in s.used
    ensures
      var s' := BeginAt(s, g, target, process, t, kind).0;
      PendingOwned(s'.tasks, s'.pending)
  {
  }

  lemma BeginSides(s: State, g: GuardId, target: Node, process: ProcessId, t: ProcessId, kind: ChildKind)
    requires Inv(s) && Covered(s) && g !in s.guards && t !in s.used
    ensures
      var s' := BeginAt(s, g, target, process, t, kind).0;
      PathsCover(s'.tree, s'.guards) && PendingOwned(s'.tasks, s'.pending)
  {
    BeginPaths(s, g, target, process, t, kind);
    BeginOwned(s, g, target, process, t, kind);
  }

  lemma PhaseKeepsCover(tree: Tree, guards: Guards, g: GuardId, phase: Phase)
    requires PathsCover(tree, guards) && g in guards
    requires (phase.Prepared? || phase.Published? ==> guards[g].Uncommitted())
    ensures PathsCover(tree, SetPhase(guards, g, phase))
  {
  }

  lemma GuardStepPaths(s: State, op: Op)
    requires PathsCover(s.tree, s.guards) && IsGuardOp(op) && GuardLegal(s, op)
    ensures PathsCover(GuardStep(s, op).0.tree, GuardStep(s, op).0.guards)
  {
    var g, h := op.g, s.guards[op.g];
    if h.Uncommitted() { PhaseKeepsCover(s.tree, s.guards, g, Published); }
    PhaseKeepsCover(s.tree, s.guards, g, Committed);
    PhaseKeepsCover(s.tree, s.guards, g, Unlinking);
    PhaseKeepsCover(s.tree, s.guards, g, Releasing(0));
    if h.phase.Releasing? { PhaseKeepsCover(s.tree, s.guards, g, Releasing(h.phase.next + 1)); }
  }

  lemma GuardStepOwners(s: State, op: Op)
    requires PendingOwned(s.tasks, s.pending) && IsGuardOp(op) && GuardLegal(s, op)
    ensures PendingOwned(GuardStep(s, op).0.tasks, GuardStep(s, op).0.pending)
  {
  }

  /** A charge the guard holds and its task will not release is lost on commit. */
  ghost function GuardLeaks(s: State, op: Op, n: Node): nat
    requires IsGuardOp(op) && GuardLegal(s, op)
  {
    var h := s.guards[op.g];
    if op.Commit? && n in h.path && n !in Ancestry(s.tree, h.cgroup) then 1 else 0
  }

  lemma GuardStepSlack(s: State, op: Op, n: Node)
    requires Inv(s) && PathsCover(s.tree, s.guards) && IsGuardOp(op) && GuardLegal(s, op)
    ensures Slack(GuardStep(s, op).0, n) == Slack(s, n) + GuardLeaks(s, op, n)
  {
    if op.Publish? { PublishSlack(s, op.g, n); }
    else if op.Commit? { CommitSlack(s, op.g, n); }
    else if op.Drop? { DropSlack(s, op.g, n); }
    else if op.DropMember? { DropMemberSlack(s, op.g, n); }
    else { assert PathOk(s.tree, s.guards[op.g]); ReleaseSlack(s, op.g, n); }
  }

  lemma GuardStepCovered(s: State, op: Op)
    requires Inv(s) && Covered(s) && IsGuardOp(op) && GuardLegal(s, op)
    ensures Covered(GuardStep(s, op).0)
  {
    GuardStepPaths(s, op);
    GuardStepOwners(s, op);
    forall n: Node ensures Slack(GuardStep(s, op).0, n) >= 0 { GuardStepSlack(s, op, n); }
  }

  lemma MigrateFrame(s: State, p: ProcessId, target: Node)
    ensures MigrateStep(s, p, target).0.tree == s.tree && MigrateStep(s, p, target).0.guards == s.guards
  {
  }

  lemma ExitFrame(s: State, p: ProcessId, t: ProcessId, exit: ExitKind)
    ensures ExitStep(s, p, t, exit).0.tree == s.tree && ExitStep(s, p, t, exit).0.guards == s.guards
  {
  }

  lemma TaskStepFrame(s: State, op: Op)
    requires IsTaskOp(op) && TaskLegal(s, op)
    ensures TaskStep(s, op).0.tree == s.tree && TaskStep(s, op).0.guards == s.guards
  {
    if op.Migrate? { MigrateFrame(s, op.process, op.target); }
    else if op.Exit? { ExitFrame(s, op.process, op.task, op.exit); }
  }

  lemma TaskStepOwners(s: State, op: Op)
    requires PendingOwned(s.tasks, s.pending) && IsTaskOp(op) && TaskLegal(s, op)
    ensures PendingOwned(TaskStep(s, op).0.tasks, TaskStep(s, op).0.pending)
  {
  }

  lemma TaskStepSlack(s: State, op: Op, n: Node)
    requires PendingOwned(s.tasks, s.pending) && IsTaskOp(op) && TaskLegal(s, op)
    ensures Slack(TaskStep(s, op).0, n) == Slack(s, n)
  {
    if op.Exit? { ExitSlack(s, op.process, op.task, op.exit, n); }
    else if op.Rename? { RenameSlack(s, op.process, op.task, op.newTask, n); }
    else if op.Reap? { SlackSame(s, ReapStep(s, op.process).0, n); }
    else if Moves(s, op.process, op.target) { MoveSlack(s, op.process, op.target, n); }
    else { StaySlack(s, op.process, op.target, n); }
  }

  lemma TaskStepCovered(s: State, op: Op)
    requires Covered(s) && IsTaskOp(op) && TaskLegal(s, op)
    ensures Covered(TaskStep(s, op).0)
  {
    TaskStepFrame(s, op);
    TaskStepOwners(s, op);
    forall n: Node ensures Slack(TaskStep(s, op).0, n) >= 0 { TaskStepSlack(s, op, n); }
  }

  lemma RemovalSlack(s: State, op: Op, n: Node)
    requires IsRemoval(op)
    ensures Slack(RemovalStep(s, op).0, n) == Slack(s, n)
  {
    RemovalFrame(s, op);
    SlackSame(s, RemovalStep(s, op).0, n);
  }

  lemma RemovalCovered(s: State, op: Op)
    requires Covered(s) && IsRemoval(op) && RemovalLegal(s, op)
    ensures Covered(RemovalStep(s, op).0)
  {
    RemovalFrame(s, op);
    forall n: Node ensures Slack(RemovalStep(s, op).0, n) >= 0 { RemovalSlack(s, op, n); }
  }

  /** What committed tasks charged above a node is lost when it is freed. */
  ghost function TreeLeaks(s: State, op: Op, n: Node): nat {
    if op.Reclaim? then |CutOff(s, op.node, n)| else 0
  }

  lemma TreeStepSlack(s: State, op: Op, n: Node)
    requires Inv(s) && IsTreeOp(op) && TreeLegal(s, op)
    ensures Slack(TreeStep(s, op).0, n) ==
      if op.CreateChild? && n == op.node then 0 else Slack(s, n) + TreeLeaks(s, op, n)
  {
    if op.CreateChild? { CreateSlack(s, op.under, op.node, n); }
    else if op.Reclaim? { ReclaimSlack(s, op.node, n); }
    else { SlackSame(s, TreeStep(s, op).0, n); }
  }

  lemma TreeStepCovered(s: State, op: Op)
    requires Inv(s) && Covered(s) && IsTreeOp(op) && TreeLegal(s, op)
    ensures Covered(TreeStep(s, op).0)
  {
    if op.CreateChild? { CreateKeepsPaths(s, op.under, op.node); }
    else if op.Reclaim? { ReclaimKeepsPaths(s, op.node); }
    forall n: Node ensures Slack(TreeStep(s, op).0, n) >= 0 { TreeStepSlack(s, op, n); }
  }

  lemma StepCovered(s: State, op: Op)
    requires Inv(s) && Covered(s) && Legal(s, op)
    ensures Covered(Step(s, op).0)
  {
    if IsGuardOp(op) { GuardStepCovered(s, op); }
    else if IsTaskOp(op) { TaskStepCovered(s, op); }
    else if IsForkOp(op) { ForkStepCovered(s, op); }
    else if IsRemoval(op) { RemovalCovered(s, op); }
    else { TreeStepCovered(s, op); }
  }

  /** What every reachable state is. */
  ghost predicate Healthy(s: State) {
    Inv(s) && Covered(s)
  }

  lemma StepStaysHealthy(s: State, op: Op)
    ensures Healthy(s) && Legal(s, op) ==> Healthy(Step(s, op).0)
  {
    if Healthy(s) && Legal(s, op) {
      StepKeepsInv(s, op);
      StepCovered(s, op);
    }
  }

  lemma GuardStepStaysHealthy(s: State, op: Op)
    requires Healthy(s) && IsGuardOp(op) && GuardLegal(s, op)
    ensures Healthy(GuardStep(s, op).0)
  {
    GuardStepKeepsInv(s, op);
    GuardStepCovered(s, op);
  }

  // ---- Whole runs ----

  lemma {:induction false} RunCovered(s: State, ops: seq<Op>)
    requires Inv(s) && Covered(s) && LegalRun(s, ops)
    ensures Inv(After(s, ops)) && Covered(After(s, ops))
    decreases |ops|
  {
    if ops != [] {
      StepKeepsInv(s, ops[0]);
      StepCovered(s, ops[0]);
      RunCovered(Step(s, ops[0]).0, ops[1..]);
    }
  }

  lemma InitiallyCovered()
    ensures Covered(INITIAL)
  {
    forall n: Node ensures Slack(INITIAL, n) >= 0 {}
  }

  /** After any legal run, careful or not, and at every node, live or freed: the counter is at
      least the committed tasks whose walk passes it plus the guards that owe it. So it never
      goes below zero. */
  lemma CountersCoverClaims(ops: seq<Op>, n: Node)
    requires LegalRun(INITIAL, ops)
    ensures
      var s := After(INITIAL, ops);
      At(s.pids, n).current >= |Claimants(s, n)| + |Owing(s.guards, n)|
  {
    InitiallyCovered();
    RunCovered(INITIAL, ops);
    assert Slack(After(INITIAL, ops), n) >= 0;
  }

  /** What a step takes off the counter of `n`. */
  ghost function TakenOff(s: State, op: Op, n: Node): nat
    requires op.DropRelease? ==> op.g in s.guards
  {
    if op.Exit? then ExitTakesOff(s, op.process, op.task, op.exit, n)
    else if op.Migrate? then MoveTakesOff(s, op.process, op.target, n)
    else if op.DropRelease? then ReleaseTakesOff(s.guards[op.g], n)
    else 0
  }

  ghost function ExitTakesOff(s: State, p: ProcessId, t: ProcessId, exit: ExitKind, n: Node): nat {
    if ExitTakes(s, p, t, exit) && n in Ancestry(s.tree, s.procs[p].node) then 1 else 0
  }

  ghost function MoveTakesOff(s: State, p: ProcessId, target: Node, n: Node): nat {
    if !Moves(s, p, target) then 0
    else if n in Ancestry(s.tree, s.procs[p].node) && n !in Ancestry(s.tree, target) then |TasksOf(s, p)|
    else 0
  }

  ghost function ReleaseTakesOff(h: Guard, n: Node): nat {
    if h.phase.Releasing? && h.phase.next < |h.path| && n == h.path[h.phase.next] then 1 else 0
  }

  lemma ExitIsClaimed(s: State, p: ProcessId, t: ProcessId, exit: ExitKind, n: Node)
    requires Covered(s) && t !in s.pending && ExitTakes(s, p, t, exit) && n in Ancestry(s.tree, s.procs[p].node)
    ensures At(s.pids, n).current >= 1
  {
    assert t in Claimants(s, n);
    assert Slack(s, n) >= 0;
  }

  lemma MoveIsClaimed(s: State, p: ProcessId, target: Node, n: Node)
    requires Covered(s) && Moves(s, p, target) && n in Ancestry(s.tree, s.procs[p].node)
    ensures At(s.pids, n).current >= |TasksOf(s, p)|
  {
    MoversAreSettled(s, p);
    assert TasksOf(s, p) <= Claimants(s, n);
    assert Claimants(s, n) == TasksOf(s, p) + (Claimants(s, n) - TasksOf(s, p));
    assert Slack(s, n) >= 0;
  }

  lemma ReleaseIsOwed(s: State, g: GuardId)
    requires Covered(s) && g in s.guards && s.guards[g].phase.Releasing? && s.guards[g].phase.next < |s.guards[g].path|
    ensures At(s.pids, s.guards[g].path[s.guards[g].phase.next]).current >= 1
  {
    var h := s.guards[g];
    var n := h.path[h.phase.next];
    assert h.path[h.phase.next..][0] == n;
    assert g in Owing(s.guards, n);
    assert Slack(s, n) >= 0;
  }

  lemma TakenOffIsThere(s: State, op: Op, n: Node)
    requires Covered(s) && (op.Exit? ==> op.task !in s.pending) && (op.DropRelease? ==> op.g in s.guards)
    ensures At(s.pids, n).current >= TakenOff(s, op, n)
  {
    assert Slack(s, n) >= 0;
    if TakenOff(s, op, n) > 0 {
      if op.Exit? { ExitIsClaimed(s, op.process, op.task, op.exit, n); }
      else if op.Migrate? { MoveIsClaimed(s, op.process, op.target, n); }
      else { ReleaseIsOwed(s, op.g); }
    }
  }

  /** No release underflows: whatever exit, migration or a guard's drop takes off a counter on any
      legal run is there to be taken. */
  lemma ReleasesNeverUnderflow(ops: seq<Op>, op: Op, n: Node)
    requires LegalRun(INITIAL, ops) && Legal(After(INITIAL, ops), op)
    ensures
      var s := After(INITIAL, ops);
      At(s.pids, n).current >= TakenOff(s, op, n)
  {
    InitiallyCovered();
    RunCovered(INITIAL, ops);
    TakenOffIsThere(After(INITIAL, ops), op, n);
  }
}
