/** The membership ledger as it runs: one object whose operations update counters, ledger,
    member sets and guards in place, each proved to take the protocol step it stands for. */
module MembershipLedger {
  import opened CgroupTree
  import opened Membership
  import opened Numbers
  import opened MembershipInvariant

  // ---- Path updates, one node at a time ----

  function Charged(p: Pids, k: nat): Pids {
    p.(current := p.current + k, peak := Max(p.peak, p.current + k))
  }

  function Recorded(t: Tree, pids: PidsMap, nodes: set<Node>): PidsMap {
    pids + map n | n in nodes && HasLiveParent(t, n) :: At(pids, n).(events := At(pids, n).events + 1)
  }

  lemma NextOnPath(path: seq<Node>, i: nat)
    requires Distinct(path) && i < |path|
    ensures path[i] !in Elements(path[..i]) && Elements(path[..i + 1]) == Elements(path[..i]) + {path[i]}
  {
  }

  lemma PathSplit(path: seq<Node>, i: nat)
    requires Distinct(path) && i <= |path|
    ensures Elements(path[..i]) !! Elements(path[i..]) && Elements(path[..i]) <= Elements(path)
    ensures Distinct(path[..i]) && Distinct(path[i..])
  {
  }

  lemma ChargeOneMore(pids: PidsMap, nodes: set<Node>, n: Node, k: nat)
    requires n !in nodes
    ensures At(Charge(pids, nodes, k), n) == At(pids, n)
    ensures Charge(pids, nodes + {n}, k) == Charge(pids, nodes, k)[n := Charged(At(pids, n), k)]
  {
  }

  lemma UnchargeOneMore(pids: PidsMap, nodes: set<Node>, n: Node, k: nat)
    requires n !in nodes
    ensures At(Uncharge(pids, nodes, k), n) == At(pids, n)
    ensures Uncharge(pids, nodes + {n}, k) ==
      Uncharge(pids, nodes, k)[n := At(pids, n).(current := At(pids, n).current - k)]
  {
  }

  lemma RecordThere(t: Tree, pids: PidsMap, nodes: set<Node>, n: Node)
    requires n !in nodes && HasLiveParent(t, n)
    ensures Recorded(t, pids, nodes + {n}) ==
      Recorded(t, pids, nodes)[n := At(pids, n).(events := At(pids, n).events + 1)]
  {
  }

  lemma RecordNothing(t: Tree, pids: PidsMap, nodes: set<Node>, n: Node)
    requires !HasLiveParent(t, n)
    ensures Recorded(t, pids, nodes + {n}) == Recorded(t, pids, nodes)
  {
  }

  function RecordedAt(t: Tree, pids: PidsMap, n: Node): PidsMap {
    if HasLiveParent(t, n) then pids[n := At(pids, n).(events := At(pids, n).events + 1)] else pids
  }

  lemma RecordOneMore(t: Tree, pids: PidsMap, nodes: set<Node>, n: Node)
    requires n !in nodes
    ensures Recorded(t, pids, nodes + {n}) == RecordedAt(t, Recorded(t, pids, nodes), n)
  {
    if HasLiveParent(t, n) { RecordThere(t, pids, nodes, n); } else { RecordNothing(t, pids, nodes, n); }
    assert At(Recorded(t, pids, nodes), n) == At(pids, n);
  }

  /** Undoing the charges below the refusal and counting the event there and above is the
      refused charge. */
  lemma RollbackIsRefusal(t: Tree, pids: PidsMap, below: set<Node>, above: set<Node>)
    requires below !! above && below <= pids.Keys
    ensures Recorded(t, Uncharge(Charge(pids, below, 1), below, 1), above) == Refused(t, pids, below, above)
  {
  }

  lemma WalkStaysInTree(t: Tree, n: Node)
    requires IsNode(t, n)
    ensures forall x :: x in Ancestry(t, n) ==> IsNode(t, x)
    ensures Distinct(Ancestry(t, n))
  {
    AncestryDistinct(t, n);
    forall x | x in Ancestry(t, n) ensures IsNode(t, x) {
      var i :| 0 <= i < |Ancestry(t, n)| && Ancestry(t, n)[i] == x;
      AncestryAt(t, n, i);
    }
  }

  /** Run the remaining release steps of a guard. */
  ghost function Released(s: State, g: GuardId): State
    requires g in s.guards
    decreases if s.guards[g].phase.Releasing? then |s.guards[g].path| - s.guards[g].phase.next else 0
  {
    if s.guards[g].phase.Releasing? && s.guards[g].phase.next < |s.guards[g].path|
      then Released(DropReleaseStep(s, g).0, g) else s
  }

  lemma ReleaseIsUncharge(pids: PidsMap, n: Node)
    ensures Uncharge(pids, {n}, 1) == pids[n := At(pids, n).(current := At(pids, n).current - 1)]
  {
  }

  ghost predicate KeepsKeys(before: PidsMap, after: PidsMap) {
    forall n :: n in before ==> n in after
  }

  function LedgerExit(s: State, p: ProcessId, t: ProcessId, node: Node, exit: ExitKind): (State, Outcome) {
    if t !in s.tasks then (s, Ok)
    else if s.tasks[t] != Task(p, node) then (s, Err(NoSuchProcess))
    else if exit.LastProcessTask? && (HasPending(s, p) || TasksOf(s, p) != {t}) then (s, Err(ResourceBusy))
    else
      (s.(tasks := s.tasks - {t}, members := if exit.LastProcessTask? then s.members - {(node, p)} else s.members,
          pids := Uncharge(s.pids, Elements(Ancestry(s.tree, node)), 1)), Ok)
  }

  class Cgroups {
    var tree: Tree
    var linked: set<Node>
    var pins: map<Node, nat>
    var members: set<(Node, ProcessId)>
    var pids: PidsMap
    var tasks: map<ProcessId, Task>
    var pending: map<ProcessId, ProcessId>
    var procs: map<ProcessId, Owner>
    var guards: map<GuardId, Guard>
    ghost var removing: map<Node, Stage>
    ghost var used: set<ProcessId>

    ghost function View(): State
      reads this
    {
      State(tree, linked, pins, members, pids, tasks, pending, procs, guards, removing, used)
    }

    /** Every node has its counters. */
    ghost predicate Valid()
      reads this
    {
      forall n :: IsNode(tree, n) ==> n in pids
    }

    constructor ()
      ensures Valid() && View() == INITIAL
    {
      tree, linked, pins, members := RawTree(map[], {ROOT}), {}, map[], {};
      pids, tasks, pending, procs, guards := map[ROOT := FRESH_PIDS], map[], map[], map[], map[];
      removing, used := map[], {};
    }

    /** Charge one task along the path; undo everything at the first node that refuses. */
    method ChargePath(path: seq<Node>) returns (r: Outcome)
      requires Distinct(path) && forall n :: n in path ==> n in pids
      modifies this`pids
      ensures FirstRefusal(old(pids), path) == |path| ==> r == Ok && pids == Charge(old(pids), Elements(path), 1)
      ensures
        var i := FirstRefusal(old(pids), path);
        i < |path| ==>
          && r == Err(LimitExceeded)
          && pids == Refused(tree, old(pids), Elements(path[..i]), Elements(path[i..]))
    {
      var i := 0;
      while i < |path|
        invariant i <= FirstRefusal(old(pids), path)
        invariant pids == Charge(old(pids), Elements(path[..i]), 1)
      {
        var charged := TryCharge(path, i, old(pids));
        if !charged {
          assert i == FirstRefusal(old(pids), path);
          RollBack(path, i, old(pids));
          return Err(LimitExceeded);
        }
        i := i + 1;
      }
      assert path[..i] == path;
      r := Ok;
    }

    /** One more task at the next node of a path being charged, unless its limit refuses. */
    method TryCharge(path: seq<Node>, i: nat, ghost before: PidsMap) returns (charged: bool)
      requires Distinct(path) && i < |path| && pids == Charge(before, Elements(path[..i]), 1)
      modifies this`pids
      ensures charged <==> !Refuses(At(before, path[i]))
      ensures pids == if charged then Charge(before, Elements(path[..i + 1]), 1) else old(pids)
    {
      NextOnPath(path, i);
      ChargeOneMore(before, Elements(path[..i]), path[i], 1);
      var p := At(pids, path[i]);
      charged := !Refuses(p);
      if charged {
        pids := pids[path[i] := Charged(p, 1)];
      }
    }

    /** Uncharge what was charged before the refusal and count the event from there up. */
    method RollBack(path: seq<Node>, i: nat, ghost before: PidsMap)
      requires Distinct(path) && i <= |path| && Elements(path) <= before.Keys
      requires pids == Charge(before, Elements(path[..i]), 1)
      modifies this`pids
      ensures pids == Refused(tree, before, Elements(path[..i]), Elements(path[i..]))
    {
      PathSplit(path, i);
      UnchargePath(path[..i], 1);
      RecordMaxEvent(path[i..]);
      RollbackIsRefusal(tree, before, Elements(path[..i]), Elements(path[i..]));
    }

    method ChargePathUnchecked(path: seq<Node>, count: nat)
      requires Distinct(path)
      modifies this`pids
      ensures pids == Charge(old(pids), Elements(path), count) && KeepsKeys(old(pids), pids)
    {
      var i := 0;
      while i < |path|
        invariant i <= |path|
        invariant pids == Charge(old(pids), Elements(path[..i]), count) && KeepsKeys(old(pids), pids)
      {
        NextOnPath(path, i);
        ChargeOneMore(old(pids), Elements(path[..i]), path[i], count);
        pids := pids[path[i] := Charged(At(pids, path[i]), count)];
        i := i + 1;
      }
      assert path[..i] == path;
    }

    method UnchargePath(path: seq<Node>, count: nat)
      requires Distinct(path)
      modifies this`pids
      ensures pids == Uncharge(old(pids), Elements(path), count) && KeepsKeys(old(pids), pids)
    {
      var i := 0;
      while i < |path|
        invariant i <= |path|
        invariant pids == Uncharge(old(pids), Elements(path[..i]), count) && KeepsKeys(old(pids), pids)
      {
        NextOnPath(path, i);
        UnchargeOneMore(old(pids), Elements(path[..i]), path[i], count);
        var p := At(pids, path[i]);
        pids := pids[path[i] := p.(current := p.current - count)];
        i := i + 1;
      }
      assert path[..i] == path;
    }

    method RecordMaxEvent(path: seq<Node>)
      requires Distinct(path)
      modifies this`pids
      ensures pids == Recorded(tree, old(pids), Elements(path))
    {
      var i := 0;
      while i < |path|
        invariant i <= |path|
        invariant pids == Recorded(tree, old(pids), Elements(path[..i]))
      {
        RecordNext(path, i, old(pids));
        i := i + 1;
      }
      assert path[..i] == path;
    }

    method RecordNext(path: seq<Node>, i: nat, ghost before: PidsMap)
      requires Distinct(path) && i < |path| && pids == Recorded(tree, before, Elements(path[..i]))
      modifies this`pids
      ensures pids == Recorded(tree, before, Elements(path[..i + 1]))
    {
      NextOnPath(path, i);
      RecordOneMore(tree, before, Elements(path[..i]), path[i]);
      RecordHere(path[i]);
    }

    method RecordHere(n: Node)
      modifies this`pids
      ensures pids == RecordedAt(tree, old(pids), n)
    {
      if HasLiveParent(tree, n) {
        var p := At(pids, n);
        pids := pids[n := p.(events := p.events + 1)];
      }
    }

    // ---- The first process, and the hierarchy under it ----

    method Attach(pid: ProcessId) returns (r: Outcome)
      requires Valid()
      modifies this
      ensures Valid() && (View(), r) == AttachStep(old(View()), pid)
    {
      if pid in pending || pid in tasks {
        return Err(ResourceBusy);
      }
      var path := Walk(tree, ROOT);
      AncestryDistinct(tree, ROOT);
      ChargePathUnchecked(path, 1);
      if (ROOT, pid) in members {
        UnchargePath(path, 1);
        return Err(ResourceBusy);
      }
      Enroll(pid);
      r := Ok;
    }

    method Enroll(pid: ProcessId)
      modifies this`members, this`tasks, this`procs, this`used
      ensures View() == old(View()).(members := old(members) + {(ROOT, pid)},
        tasks := old(tasks)[pid := Task(pid, ROOT)], procs := old(procs)[pid := Active(ROOT)],
        used := old(used) + {pid})
    {
      members := members + {(ROOT, pid)};
      tasks := tasks[pid := Task(pid, ROOT)];
      procs := procs[pid := Active(ROOT)];
      used := used + {pid};
    }

    /** Refused while the node has children, members or pins; a reservation is not looked at.
        This is the call when nothing comes between its looks. */
    method RemoveChild(n: Node) returns (r: Outcome)
      requires Valid()
      modifies this`linked, this`removing
      ensures Valid() && (View(), r) == RemoveAlone(old(View()), n)
    {
      if exists c :: c in linked && c in tree.parent && tree.parent[c] == n {
        return Err(DirectoryNotEmpty);
      }
      assert removing[n := Childless] - {n} == removing - {n};
      assert removing[n := Childless][n := Memberless] - {n} == removing - {n};
      removing := removing - {n};
      if (exists m :: m in members && m.0 == n) || (n in pins && pins[n] != 0) {
        return Err(ResourceBusy);
      }
      linked := linked - {n};
      r := Ok;
    }

    /** A new node under a live one, listed there and with fresh counters. */
    method CreateChild(under: Node, n: Node)
      requires Valid() && under in tree.alive && !IsNode(tree, n) && under < n
      modifies this`tree, this`linked, this`pids
      ensures Valid() && View() == CreateStep(old(View()), under, n).0
    {
      tree := RawTree(tree.parent[n := under], tree.alive + {n});
      linked := linked + {n};
      pids := pids[n := FRESH_PIDS];
    }

    /** The last owner of a detached node lets go: its children lose their weak parent. */
    method Reclaim(n: Node)
      requires Valid() && n != ROOT && n in tree.alive && Unowned(View(), n)
      modifies this`tree, this`linked
      ensures Valid() && View() == ReclaimStep(old(View()), n).0
    {
      linked := set c | c in linked && !(c in tree.parent && tree.parent[c] == n);
      tree := RawTree(tree.parent, tree.alive - {n});
    }

    method SetMaximum(n: Node, maximum: Limit)
      requires Valid() && n in tree.alive
      modifies this`pids
      ensures Valid() && View() == TreeStep(old(View()), Op.SetMaximum(n, maximum)).0
    {
      pids := pids[n := At(pids, n).(maximum := maximum)];
    }

    method Pin(n: Node)
      requires Valid() && n in tree.alive
      modifies this`pins
      ensures Valid() && View() == TreeStep(old(View()), Op.Pin(n)).0
    {
      pins := pins[n := (if n in pins then pins[n] else 0) + 1];
    }

    /** The pin count never underflows: a pin is dropped once. */
    method Unpin(n: Node)
      requires Valid() && n in pins && pins[n] > 0
      modifies this`pins
      ensures Valid() && View() == TreeStep(old(View()), Op.Unpin(n)).0
    {
      pins := pins[n := pins[n] - 1];
    }

    method Reap(p: ProcessId)
      requires Valid()
      modifies this`procs
      ensures Valid() && View() == ReapStep(old(View()), p).0
    {
      procs := procs - {p};
    }

    // ---- Fork guards ----

    method BeginTaskAt(g: GuardId, target: Node, process: ProcessId, task: ProcessId, kind: ChildKind)
      returns (r: Outcome)
      requires Valid() && IsNode(tree, target)
      modifies this
      ensures Valid() && (View(), r) == BeginAt(old(View()), g, target, process, task, kind)
    {
      if task in pending || task in tasks {
        return Err(ResourceBusy);
      }
      var path := Walk(tree, target);
      WalkStaysInTree(tree, target);
      r := ChargePath(path);
      if r.Ok? {
        var owner := if kind.Process? then task else process;
        HoldReservation(g, Guard(target, task, owner, kind, path, Prepared));
      }
    }

    method HoldReservation(g: GuardId, h: Guard)
      modifies this`pending, this`guards, this`used
      ensures View() == old(View()).(pending := old(pending)[h.task := h.process], guards := old(guards)[g := h],
        used := old(used) + {h.task})
    {
      pending := pending[h.task := h.process];
      guards := guards[g := h];
      used := used + {h.task};
    }

    method BeginTask(g: GuardId, process: ProcessId, task: ProcessId, kind: ChildKind) returns (r: Outcome)
      requires Valid() && (process in procs ==> IsNode(tree, procs[process].node))
      modifies this
      ensures Valid() && (View(), r) == BeginTaskStep(old(View()), g, process, task, kind)
    {
      if process !in procs || procs[process].Exited? {
        return Err(NoSuchProcess);
      }
      r := BeginTaskAt(g, procs[process].node, process, task, kind);
    }

    method Publish(g: GuardId) returns (r: Outcome)
      requires Valid() && g in guards
      modifies this
      ensures Valid() && (View(), r) == PublishStep(old(View()), g)
    {
      var h := guards[g];
      if !h.phase.Prepared? || h.task !in pending || pending[h.task] != h.process || h.task in tasks {
        return Err(ResourceBusy);
      }
      if h.kind.Process? {
        if (h.cgroup, h.task) in members {
          return Err(ResourceBusy);
        }
        members := members + {(h.cgroup, h.task)};
        procs := procs[h.task := Active(h.cgroup)];
      }
      tasks := tasks[h.task := Task(h.process, h.cgroup)];
      guards := guards[g := h.(phase := Published)];
      r := Ok;
    }

    /** The source insists that the guard is published and still owns its pending entry. */
    method Commit(g: GuardId)
      requires Valid() && g in guards && CommitAsserts(View(), g)
      modifies this
      ensures Valid() && View() == CommitStep(old(View()), g).0
    {
      pending := pending - {guards[g].task};
      guards := guards[g := guards[g].(phase := Committed)];
    }

    /** First half of the destructor: ledger entry, then `cgroup.procs` member. */
    method DropRecords(g: GuardId)
      requires Valid() && g in guards && guards[g].Uncommitted()
      modifies this
      ensures Valid() && View() == DropMemberStep(DropStep(old(View()), g).0, g).0
      ensures old(Inv(View())) ==> old(DropAsserts(View(), g))
    {
      GuardAssertionsHold(View(), g);
      TakeRecords(g);
    }

    method TakeRecords(g: GuardId)
      requires Valid() && g in guards && guards[g].Uncommitted()
      modifies this
      ensures Valid() && View() == DropMemberStep(DropStep(old(View()), g).0, g).0
    {
      var h := guards[g];
      pending := pending - {h.task};
      if h.phase.Published? {
        tasks := tasks - {h.task};
        if h.kind.Process? {
          procs := procs - {h.process};
          members := members - {(h.cgroup, h.task)};
          assert guards[g := h.(phase := Unlinking)][g := h.(phase := Releasing(0))] ==
            guards[g := h.(phase := Releasing(0))];
        }
      }
      guards := guards[g := h.(phase := Releasing(0))];
    }

    method ReleaseNext(g: GuardId)
      requires Valid() && g in guards && guards[g].phase.Releasing? && guards[g].phase.next < |guards[g].path|
      modifies this
      ensures Valid() && View() == DropReleaseStep(old(View()), g).0
    {
      var h := guards[g];
      var n := h.path[h.phase.next];
      ReleaseIsUncharge(pids, n);
      pids := pids[n := At(pids, n).(current := At(pids, n).current - 1)];
      guards := guards[g := h.(phase := Releasing(h.phase.next + 1))];
    }

    /** Second half: uncharge one node after another. */
    method ReleasePath(g: GuardId)
      requires Valid() && g in guards && guards[g].phase.Releasing? && guards[g].phase.next <= |guards[g].path|
      modifies this
      ensures Valid() && View() == Released(old(View()), g)
    {
      while guards[g].phase.next < |guards[g].path|
        invariant Valid() && g in View().guards && View().guards[g].phase.Releasing?
        invariant View().guards[g].phase.next <= |View().guards[g].path|
        invariant Released(View(), g) == Released(old(View()), g)
        decreases |guards[g].path| - guards[g].phase.next
      {
        ReleaseNext(g);
      }
    }

    /** The whole destructor. A committed guard's drop changes nothing. */
    method DropGuard(g: GuardId)
      requires Valid() && g in guards && (guards[g].Uncommitted() || guards[g].phase.Committed?)
      modifies this
      ensures Valid()
      ensures View() == Released(DropMemberStep(DropStep(old(View()), g).0, g).0, g)
      ensures old(guards)[g].phase.Committed? ==> View() == old(View())
    {
      if guards[g].Uncommitted() {
        DropRecords(g);
        ReleasePath(g);
      }
    }

    // ---- Migration, exit and rename ----

    /** Point every ledger entry of `p` to `target`. */
    method MoveTasks(p: ProcessId, target: Node, movers: set<ProcessId>)
      requires movers == TasksOf(View(), p)
      modifies this`tasks
      ensures tasks == Moved(old(tasks), p, target)
    {
      var todo := movers;
      while todo != {}
        invariant todo <= movers && tasks.Keys == old(tasks).Keys
        invariant forall t :: t in tasks ==>
          tasks[t] == if t in movers && t !in todo then Task(p, target) else old(tasks)[t]
        decreases |todo|
      {
        var t :| t in todo;
        tasks := tasks[t := Task(p, target)];
        todo := todo - {t};
      }
    }

    /** The parts of the two walks that are not shared. */
    method UniqueWalks(home: Node, target: Node) returns (lost: seq<Node>, gained: seq<Node>)
      ensures Distinct(lost) && Elements(lost) == Elements(Ancestry(tree, home)) - Elements(Ancestry(tree, target))
      ensures Distinct(gained) && Elements(gained) == Elements(Ancestry(tree, target)) - Elements(Ancestry(tree, home))
    {
      var homePath := Walk(tree, home);
      var targetPath := Walk(tree, target);
      var i, j := UniquePaths(homePath, targetPath);
      UniquePathsAreDifferences(tree, home, target, i, j);
      AncestryDistinct(tree, home);
      AncestryDistinct(tree, target);
      lost, gained := homePath[..i], targetPath[..j];
    }

    method Migrate(p: ProcessId, target: Node) returns (r: Outcome)
      requires Valid() && IsNode(tree, target) && (p in procs ==> IsNode(tree, procs[p].node))
      modifies this
      ensures Valid() && (View(), r) == MigrateStep(old(View()), p, target)
    {
      if p !in procs || procs[p].Exited? {
        return Err(NoSuchProcess);
      }
      var home := procs[p].node;
      var forking := FindsPending(p);
      if forking {
        return Err(ResourceBusy);
      }
      if home == target {
        r := if (home, p) in members then Ok else Err(NoSuchProcess);
        return;
      }
      var movers := set t | t in tasks && tasks[t].process == p;
      if movers == {} {
        return Err(NoSuchProcess);
      }
      var scattered := FindsScattered(p, home, movers);
      if scattered {
        return Err(NoSuchProcess);
      }
      r := MoveProcess(p, home, target, movers);
    }

    method FindsPending(p: ProcessId) returns (forking: bool)
      ensures forking <==> HasPending(View(), p)
    {
      forking := exists t :: t in pending && pending[t] == p;
    }

    method FindsScattered(p: ProcessId, home: Node, movers: set<ProcessId>) returns (scattered: bool)
      requires movers == TasksOf(View(), p)
      ensures scattered <==> Scattered(View(), p, home)
    {
      scattered := exists t :: t in movers && tasks[t].cgroup != home;
    }

    /** Take `p` off the list of `home` and put it on that of `target`, or change nothing. */
    method MoveMember(p: ProcessId, home: Node, target: Node) returns (r: Outcome)
      requires home != target
      modifies this`members
      ensures r == if (home, p) !in old(members) then Err(NoSuchProcess)
        else if (target, p) in old(members) then Err(ResourceBusy) else Ok
      ensures members == if r.Ok? then old(members) - {(home, p)} + {(target, p)} else old(members)
    {
      if (home, p) !in members {
        return Err(NoSuchProcess);
      }
      members := members - {(home, p)};
      if (target, p) in members {
        assert (home, p) !in members;
        members := members + {(home, p)};
        return Err(ResourceBusy);
      }
      members := members + {(target, p)};
      r := Ok;
    }

    /** Charge the target's own part, move the member and the ledger entries, release the old part. */
    method MoveProcess(p: ProcessId, home: Node, target: Node, movers: set<ProcessId>) returns (r: Outcome)
      requires movers == TasksOf(View(), p) && home != target
      modifies this
      ensures (View(), r) == Relocate(old(View()), p, home, target)
      ensures KeepsKeys(old(pids), pids) && tree == old(tree)
    {
      var lost, gained := UniqueWalks(home, target);
      ChargePathUnchecked(gained, |movers|);
      r := MoveMember(p, home, target);
      if r.Err? {
        UnchargePath(gained, |movers|);
        return;
      }
      CarryTasks(p, target, movers, lost);
    }

    method CarryTasks(p: ProcessId, target: Node, movers: set<ProcessId>, lost: seq<Node>)
      requires movers == TasksOf(View(), p) && Distinct(lost)
      modifies this`tasks, this`pids, this`procs
      ensures View() == old(View()).(tasks := Moved(old(tasks), p, target),
        pids := Uncharge(old(pids), Elements(lost), |movers|), procs := old(procs)[p := Active(target)])
      ensures KeepsKeys(old(pids), pids)
    {
      MoveTasks(p, target, movers);
      UnchargePath(lost, |movers|);
      procs := procs[p := Active(target)];
    }

    method UnchargeWalk(node: Node)
      modifies this`pids
      ensures pids == Uncharge(old(pids), Elements(Ancestry(tree, node)), 1)
    {
      var path := Walk(tree, node);
      AncestryDistinct(tree, node);
      UnchargePath(path, 1);
    }

    method IsLastTask(p: ProcessId, t: ProcessId) returns (last: bool)
      requires t in tasks && tasks[t].process == p
      ensures last <==> !HasPending(View(), p) && TasksOf(View(), p) == {t}
    {
      OthersRemain(View(), p, t);
      var others := exists u :: u in tasks && u != t && tasks[u].process == p;
      var forking := exists u :: u in pending && pending[u] == p;
      last := !others && !forking;
    }

    method Exit(p: ProcessId, t: ProcessId, exit: ExitKind) returns (r: Outcome)
      requires Valid()
      modifies this
      ensures Valid() && (View(), r) == ExitStep(old(View()), p, t, exit)
      ensures old(Inv(View())) ==> old(ExitAsserts(View(), p))
    {
      ExitAssertionHolds(View(), p);
      r := Leave(p, t, exit);
    }

    method Leave(p: ProcessId, t: ProcessId, exit: ExitKind) returns (r: Outcome)
      requires Valid()
      modifies this
      ensures Valid() && (View(), r) == ExitStep(old(View()), p, t, exit)
    {
      if p !in procs || procs[p].Exited? {
        return Ok;
      }
      var node := procs[p].node;
      r := ExitTask(p, t, node, exit);
      if r.Ok? && exit.LastProcessTask? {
        procs := procs[p := Exited(node)];
      }
    }

    /** The ledger part of an exit. */
    method ExitTask(p: ProcessId, t: ProcessId, node: Node, exit: ExitKind) returns (r: Outcome)
      requires Valid()
      modifies this`tasks, this`members, this`pids
      ensures Valid() && (View(), r) == LedgerExit(old(View()), p, t, node, exit)
    {
      if t !in tasks {
        return Ok;
      }
      if tasks[t] != Task(p, node) {
        return Err(NoSuchProcess);
      }
      if exit.LastProcessTask? {
        var last := IsLastTask(p, t);
        if !last {
          return Err(ResourceBusy);
        }
        members := members - {(node, p)};
      }
      tasks := tasks - {t};
      UnchargeWalk(node);
      r := Ok;
    }

    method Rename(p: ProcessId, t: ProcessId, u: ProcessId) returns (r: Outcome)
      requires Valid()
      modifies this
      ensures Valid() && (View(), r) == RenameStep(old(View()), p, t, u)
    {
      if p !in procs || procs[p].Exited? || t !in tasks || tasks[t] != Task(p, procs[p].node) {
        return Err(NoSuchProcess);
      }
      if t != u && (u in pending || u in tasks) {
        return Err(ResourceBusy);
      }
      var task := tasks[t];
      tasks := (tasks - {t})[u := task];
      used := used + {u};
      r := Ok;
    }
  }

  lemma OthersRemain(s: State, p: ProcessId, t: ProcessId)
    requires t in s.tasks && s.tasks[t].process == p
    ensures TasksOf(s, p) != {t} <==> exists u :: u in s.tasks && u != t && s.tasks[u].process == p
  {
    if exists u :: u in s.tasks && u != t && s.tasks[u].process == p {
      var u :| u in s.tasks && u != t && s.tasks[u].process == p;
      assert u in TasksOf(s, p);
    } else {
      assert TasksOf(s, p) == {t};
    }
  }
}
