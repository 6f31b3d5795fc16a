/** Exact accounting: on every legal run each counter is the claims on it plus the charges lost so
    far, and these are lost at two kinds of steps only. */
module LostCharges {
  import opened CgroupTree
  import opened Membership
  import opened MembershipInvariant
  import opened Conservation
  import opened Claims

  /** Charges at `n` that nobody will release after this step, though somebody would have before. */
  ghost function Leaks(s: State, op: Op, n: Node): nat
    requires Legal(s, op)
  {
    if IsGuardOp(op) then GuardLeaks(s, op, n) else if IsTreeOp(op) then TreeLeaks(s, op, n) else 0
  }

  ghost function Lost(s: State, ops: seq<Op>, n: Node): nat
    requires LegalRun(s, ops)
    decreases |ops|
  {
    if ops == [] then 0 else Leaks(s, ops[0], n) + Lost(Step(s, ops[0]).0, ops[1..], n)
  }

  /** Nothing is charged at a node that does not exist yet. */
  ghost predicate Unborn(s: State) {
    forall n: Node :: !IsNode(s.tree, n) ==> At(s.pids, n).current == 0
  }

  lemma UnbornHasNoSlack(s: State, n: Node)
    requires Inv(s) && Unborn(s) && !IsNode(s.tree, n)
    ensures Slack(s, n) == 0
  {
    FreshNodeUnclaimed(s, n);
  }

  lemma TreeSlack(s: State, op: Op, n: Node)
    requires Inv(s) && Unborn(s) && IsTreeOp(op) && TreeLegal(s, op)
    ensures Slack(TreeStep(s, op).0, n) == Slack(s, n) + TreeLeaks(s, op, n)
  {
    TreeStepSlack(s, op, n);
    if op.CreateChild? && n == op.node { UnbornHasNoSlack(s, n); }
  }

  lemma StepSlack(s: State, op: Op, n: Node)
    requires Inv(s) && Covered(s) && Unborn(s) && Legal(s, op)
    ensures Slack(Step(s, op).0, n) == Slack(s, n) + Leaks(s, op, n)
  {
    if IsGuardOp(op) { GuardStepSlack(s, op, n); }
    else if IsTaskOp(op) { TaskStepSlack(s, op, n); }
    else if IsForkOp(op) { ForkStepSlack(s, op, n); }
    else if IsRemoval(op) { RemovalSlack(s, op, n); }
    else { TreeSlack(s, op, n); }
  }

  lemma OnlyNodesOnWalk(tree: Tree, c: Node, n: Node)
    requires IsNode(tree, c) && n in Ancestry(tree, c)
    ensures IsNode(tree, n)
  {
    var i :| 0 <= i < |Ancestry(tree, c)| && Ancestry(tree, c)[i] == n;
    AncestryAt(tree, c, i);
  }

  lemma OnlyNodesLose(s: State, op: Op, n: Node)
    requires Inv(s) && Legal(s, op) && Leaks(s, op, n) > 0
    ensures IsNode(s.tree, n)
  {
    if op.Commit? {
      assert PathOk(s.tree, s.guards[op.g]);
      AncestorsAreNodes(s.tree, s.guards[op.g].cgroup, n);
    } else {
      var t :| t in CutOff(s, op.node, n);
      OnlyNodesOnWalk(s.tree, op.node, n);
    }
  }

  lemma ForkKeepsTree(s: State, op: Op)
    requires IsForkOp(op)
    ensures ForkStep(s, op).0.tree == s.tree
  {
  }

  lemma GuardKeepsTree(s: State, op: Op)
    requires IsGuardOp(op) && GuardLegal(s, op)
    ensures GuardStep(s, op).0.tree == s.tree
  {
  }

  lemma NodesStay(s: State, op: Op, n: Node)
    requires Legal(s, op) && IsNode(s.tree, n)
    ensures IsNode(Step(s, op).0.tree, n)
  {
    if IsForkOp(op) { ForkKeepsTree(s, op); }
    else if IsGuardOp(op) { GuardKeepsTree(s, op); }
    else if IsTaskOp(op) { TaskStepFrame(s, op); }
    else if IsRemoval(op) { RemovalFrame(s, op); }
  }

  lemma StepKeepsUnborn(s: State, op: Op)
    requires Inv(s) && Covered(s) && Unborn(s) && Legal(s, op)
    ensures Unborn(Step(s, op).0)
  {
    var s' := Step(s, op).0;
    StepKeepsInv(s, op);
    forall n: Node | !IsNode(s'.tree, n) ensures At(s'.pids, n).current == 0 {
      if IsNode(s.tree, n) { NodesStay(s, op, n); }
      StepSlack(s, op, n);
      if Leaks(s, op, n) > 0 { OnlyNodesLose(s, op, n); }
      UnbornHasNoSlack(s, n);
      FreshNodeUnclaimed(s', n);
    }
  }

  lemma {:induction false} RunSlack(s: State, ops: seq<Op>, n: Node)
    requires Inv(s) && Covered(s) && Unborn(s) && LegalRun(s, ops)
    ensures Slack(After(s, ops), n) == Slack(s, n) + Lost(s, ops, n)
    decreases |ops|
  {
    if ops != [] {
      StepSlack(s, ops[0], n);
      StepKeepsInv(s, ops[0]);
      StepCovered(s, ops[0]);
      StepKeepsUnborn(s, ops[0]);
      RunSlack(Step(s, ops[0]).0, ops[1..], n);
    }
  }

  /** After any legal run and at every node the counter is the committed tasks whose walk passes it,
      plus the guards that owe it, plus what was lost on the way. */
  lemma EveryChargeIsAccountedFor(ops: seq<Op>, n: Node)
    requires LegalRun(INITIAL, ops)
    ensures
      var s := After(INITIAL, ops);
      At(s.pids, n).current == |Claimants(s, n)| + |Owing(s.guards, n)| + Lost(INITIAL, ops, n)
  {
    InitiallyCovered();
    RunSlack(INITIAL, ops, n);
    assert Claimants(INITIAL, n) == {} && Owing(INITIAL.guards, n) == {};
  }

  // ---- What a step does to a counter ----

  /** A fork of a new task at `target` is not refused. */
  ghost predicate Admits(s: State, target: Node, t: ProcessId) {
    t !in s.pending && t !in s.tasks && forall n :: n in Ancestry(s.tree, target) ==> !Refuses(At(s.pids, n))
  }

  /** What a step adds to the counter of `n`. */
  ghost function PutOn(s: State, op: Op, n: Node): nat {
    if op.Attach? then AttachPutsOn(s, op.pid, n)
    else if op.BeginProcessAt? then ForkPutsOn(s, op.target, op.task, n)
    else if op.BeginTask? then
      if op.process !in s.procs || s.procs[op.process].Exited? then 0
      else ForkPutsOn(s, s.procs[op.process].node, op.task, n)
    else if op.Migrate? then MovePutsOn(s, op.process, op.target, n)
    else 0
  }

  ghost function AttachPutsOn(s: State, pid: ProcessId, n: Node): nat {
    if pid !in s.pending && pid !in s.tasks && (ROOT, pid) !in s.members && n in Ancestry(s.tree, ROOT) then 1 else 0
  }

  ghost function ForkPutsOn(s: State, target: Node, t: ProcessId, n: Node): nat {
    if Admits(s, target, t) && n in Ancestry(s.tree, target) then 1 else 0
  }

  ghost function MovePutsOn(s: State, p: ProcessId, target: Node, n: Node): nat {
    if !Moves(s, p, target) then 0
    else if n in Ancestry(s.tree, target) && n !in Ancestry(s.tree, s.procs[p].node) then |TasksOf(s, p)|
    else 0
  }

  lemma BeginCounts(s: State, g: GuardId, target: Node, process: ProcessId, t: ProcessId, kind: ChildKind, n: Node)
    ensures At(BeginAt(s, g, target, process, t, kind).0.pids, n).current ==
      At(s.pids, n).current + ForkPutsOn(s, target, t, n)
  {
    var path := Ancestry(s.tree, target);
    var i := FirstRefusal(s.pids, path);
    if BeginAt(s, g, target, process, t, kind).1.Ok? {
      BegunCurrent(s, g, target, process, t, kind, n);
      assert forall x :: x in path ==> exists k :: 0 <= k < i && path[k] == x;
    } else {
      RefusedCurrent(s, g, target, process, t, kind, n);
      assert i < |path| ==> path[i] in path;
    }
  }

  lemma ForkStepCounts(s: State, op: Op, n: Node)
    requires IsForkOp(op)
    ensures At(ForkStep(s, op).0.pids, n).current == At(s.pids, n).current + PutOn(s, op, n)
  {
    if op.Attach? {
      if AttachStep(s, op.pid).1.Ok? { AttachCurrent(s, op.pid, n); } else { AttachRefusedCurrent(s, op.pid, n); }
    } else if op.BeginProcessAt? {
      BeginCounts(s, op.g, op.target, op.task, op.task, Process, n);
    } else if op.process in s.procs && s.procs[op.process].Active? {
      BeginCounts(s, op.g, s.procs[op.process].node, op.process, op.task, op.kind, n);
    }
  }

  lemma TaskStepCounts(s: State, op: Op, n: Node)
    requires IsTaskOp(op) && TaskLegal(s, op)
    ensures At(TaskStep(s, op).0.pids, n).current == At(s.pids, n).current + PutOn(s, op, n) - TakenOff(s, op, n)
  {
    if op.Migrate? {
      if Moves(s, op.process, op.target) { MoveCurrent(s, op.process, op.target, n); }
      else { NoMoveCurrent(s, op.process, op.target, n); }
    } else if op.Exit? {
      if ExitTakes(s, op.process, op.task, op.exit) { ExitCurrent(s, op.process, op.task, op.exit, n); }
    }
  }

  lemma GuardStepCounts(s: State, op: Op, n: Node)
    requires IsGuardOp(op) && GuardLegal(s, op)
    ensures At(GuardStep(s, op).0.pids, n).current == At(s.pids, n).current - TakenOff(s, op, n)
  {
    if op.DropRelease? {
      var h := s.guards[op.g];
      if h.phase.Releasing? && h.phase.next < |h.path| { CurrentAfterUncharge(s.pids, {h.path[h.phase.next]}, 1, n); }
    }
  }

  lemma TreeStepCounts(s: State, op: Op, n: Node)
    requires Unborn(s) && IsTreeOp(op) && TreeLegal(s, op)
    ensures At(TreeStep(s, op).0.pids, n).current == At(s.pids, n).current
  {
  }

  lemma RemovalCounts(s: State, op: Op, n: Node)
    requires IsRemoval(op)
    ensures At(RemovalStep(s, op).0.pids, n).current == At(s.pids, n).current
  {
    RemovalFrame(s, op);
  }

  /** The counter after a step is the one before, plus what the step puts on, minus what it takes
      off; so `TakenOff` is all that any uncharge of the step subtracts. */
  lemma StepCounts(s: State, op: Op, n: Node)
    requires Unborn(s) && Legal(s, op)
    ensures At(Step(s, op).0.pids, n).current == At(s.pids, n).current + PutOn(s, op, n) - TakenOff(s, op, n)
  {
    if IsGuardOp(op) { GuardStepCounts(s, op, n); }
    else if IsTaskOp(op) { TaskStepCounts(s, op, n); }
    else if IsForkOp(op) { ForkStepCounts(s, op, n); }
    else if IsRemoval(op) { RemovalCounts(s, op, n); }
    else { TreeStepCounts(s, op, n); }
  }

  lemma {:induction false} RunKeepsUnborn(s: State, ops: seq<Op>)
    requires Inv(s) && Covered(s) && Unborn(s) && LegalRun(s, ops)
    ensures Unborn(After(s, ops))
    decreases |ops|
  {
    if ops != [] {
      StepKeepsInv(s, ops[0]);
      StepCovered(s, ops[0]);
      StepKeepsUnborn(s, ops[0]);
      RunKeepsUnborn(Step(s, ops[0]).0, ops[1..]);
    }
  }

  /** At every step of every legal run a counter moves by what is charged and released, and what
      is released is there. */
  lemma CountersFollowSteps(ops: seq<Op>, op: Op, n: Node)
    requires LegalRun(INITIAL, ops) && Legal(After(INITIAL, ops), op)
    ensures
      var s := After(INITIAL, ops);
      && TakenOff(s, op, n) <= At(s.pids, n).current
      && At(Step(s, op).0.pids, n).current == At(s.pids, n).current + PutOn(s, op, n) - TakenOff(s, op, n)
  {
    InitiallyCovered();
    RunKeepsUnborn(INITIAL, ops);
    ReleasesNeverUnderflow(ops, op, n);
    StepCounts(After(INITIAL, ops), op, n);
  }
}
