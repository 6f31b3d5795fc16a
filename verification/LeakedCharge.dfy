/** A run in which the root keeps a charge for a task that is gone. A fork is prepared in a
    nested cgroup; both cgroups are removed, which members and pins do not prevent; the fork
    is published and committed; the middle node is then freed, so the exit of the task walks
    from the leaf to nowhere. */
module LeakedCharge {
  import opened CgroupTree
  import opened Membership
  import opened MembershipInvariant
  import opened Conservation

  const MIDDLE: Node := 2
  const LEAF: Node := 3
  const TASK: ProcessId := 7

  const PARENTS: map<Node, Node> := map[MIDDLE := ROOT, LEAF := MIDDLE]
  const NODES: set<Node> := {ROOT, MIDDLE, LEAF}
  const IDLE := Pids(0, 0, UNLIMITED, 0)
  const BUSY := Pids(1, 1, UNLIMITED, 0)
  const FULL: PidsMap := map[ROOT := BUSY, MIDDLE := BUSY, LEAF := BUSY]

  function Fork(phase: Phase): Guard {
    Guard(LEAF, TASK, TASK, Process, [LEAF, MIDDLE, ROOT], phase)
  }

  /** The hierarchy root - middle - leaf. */
  function Built(): State {
    State(RawTree(PARENTS, NODES), {MIDDLE, LEAF}, map[], {}, map[ROOT := IDLE, MIDDLE := IDLE, LEAF := IDLE], map[],
      map[], map[], map[], map[], {})
  }

  function Reserved(linked: set<Node>): State {
    Built().(linked := linked, pids := FULL, pending := map[TASK := TASK], guards := map[0 := Fork(Prepared)],
      used := {TASK})
  }

  function Running(alive: set<Node>): State
    requires ROOT in alive && alive <= NODES
  {
    Reserved({}).(tree := RawTree(PARENTS, alive), members := {(LEAF, TASK)}, tasks := map[TASK := Task(TASK, LEAF)],
                  pending := map[], procs := map[TASK := Active(LEAF)], guards := map[0 := Fork(Committed)])
  }

  function Gone(): State {
    Running({ROOT, LEAF}).(members := {}, tasks := map[], procs := map[TASK := Exited(LEAF)],
                           pids := map[ROOT := BUSY, MIDDLE := BUSY, LEAF := Pids(0, 1, UNLIMITED, 0)])
  }

  // ---- The run, piece by piece ----

  const BUILD: seq<Op> := [CreateChild(ROOT, MIDDLE), CreateChild(MIDDLE, LEAF)]

  function Remove(n: Node): seq<Op> { [StartRemove(n), CheckMembers(n), FinishRemove(n)] }

  const RUN: seq<Op> :=
    BUILD + ([BeginProcessAt(0, LEAF, TASK)] + (Remove(LEAF) + (Remove(MIDDLE) +
      ([Publish(0)] + ([Commit(0)] + ([Reclaim(MIDDLE)] + [Exit(TASK, TASK, LastProcessTask)]))))))

  lemma Building()
    ensures Leads(INITIAL, BUILD, Built())
  {
    var s1 := CreateStep(INITIAL, ROOT, MIDDLE).0;
    LeadsByOne(INITIAL, BUILD[0]);
    LeadsByOne(s1, BUILD[1]);
    LeadsOn(INITIAL, [BUILD[0]], s1, [BUILD[1]], Built());
  }

  lemma LeafWalk(alive: set<Node>)
    requires ROOT in alive && alive <= NODES
    ensures Ancestry(RawTree(PARENTS, alive), LEAF) == if MIDDLE in alive then [LEAF, MIDDLE, ROOT] else [LEAF]
  {
  }

  lemma Reserving()
    ensures Leads(Built(), [BeginProcessAt(0, LEAF, TASK)], Reserved({MIDDLE, LEAF}))
  {
    LeafWalk(NODES);
    NobodyRefuses([LEAF, MIDDLE, ROOT]);
    ChargedOnce();
    Granted(Built(), 0, LEAF, TASK, [LEAF, MIDDLE, ROOT]);
    LeadsByOne(Built(), BeginProcessAt(0, LEAF, TASK));
  }

  /** A fork nobody refuses, spelled out. */
  lemma Granted(s: State, g: GuardId, target: Node, t: ProcessId, path: seq<Node>)
    requires path == Ancestry(s.tree, target) && FirstRefusal(s.pids, path) == |path| && t !in s.pending
    requires t !in s.tasks
    ensures BeginAt(s, g, target, t, t, Process).0 ==
      s.(pids := Charge(s.pids, Elements(path), 1), pending := s.pending[t := t],
         guards := s.guards[g := Guard(target, t, t, Process, path, Prepared)], used := s.used + {t})
  {
  }

  lemma NobodyRefuses(path: seq<Node>)
    ensures FirstRefusal(Built().pids, path) == |path|
  {
  }

  lemma ChargedOnce()
    ensures Charge(Built().pids, Elements([LEAF, MIDDLE, ROOT]), 1) == FULL
  {
  }

  lemma LooksAtChildren(s: State, n: Node)
    requires n in s.linked && !HasChildren(s, n) && s.removing == map[]
    ensures Leads(s, [StartRemove(n)], s.(removing := map[n := Childless]))
  {
    LeadsByOne(s, StartRemove(n));
  }

  lemma LooksAtMembers(s: State, n: Node)
    requires !IsPopulated(s, n)
    ensures Leads(s.(removing := map[n := Childless]), [CheckMembers(n)], s.(removing := map[n := Memberless]))
  {
    var looked := s.(removing := map[n := Childless]);
    assert CheckMembersStep(looked, n).0 == s.(removing := map[n := Memberless]);
    LeadsByOne(looked, CheckMembers(n));
  }

  lemma Unlinks(s: State, n: Node)
    requires !IsPinned(s, n) && s.removing == map[]
    ensures Leads(s.(removing := map[n := Memberless]), [FinishRemove(n)], s.(linked := s.linked - {n}))
  {
    assert map[n := Memberless] - {n} == map[];
    LeadsByOne(s.(removing := map[n := Memberless]), FinishRemove(n));
  }

  /** Three looks at a node without linked children, members or pins take it off the list. */
  lemma Removing(s: State, n: Node)
    requires n in s.linked && !HasChildren(s, n) && !IsPopulated(s, n) && !IsPinned(s, n) && s.removing == map[]
    ensures Leads(s, Remove(n), s.(linked := s.linked - {n}))
  {
    LooksAtChildren(s, n);
    LooksAtMembers(s, n);
    Unlinks(s, n);
    Joined(s, s.(removing := map[n := Childless]), s.(removing := map[n := Memberless]),
      s.(linked := s.linked - {n}), n);
  }

  lemma Joined(s: State, s1: State, s2: State, s3: State, n: Node)
    requires Leads(s, [StartRemove(n)], s1) && Leads(s1, [CheckMembers(n)], s2) && Leads(s2, [FinishRemove(n)], s3)
    ensures Leads(s, Remove(n), s3)
  {
    LeadsOn(s1, [CheckMembers(n)], s2, [FinishRemove(n)], s3);
    LeadsOn(s, [StartRemove(n)], s1, [CheckMembers(n)] + [FinishRemove(n)], s3);
    assert Remove(n) == [StartRemove(n)] + ([CheckMembers(n)] + [FinishRemove(n)]);
  }

  lemma RemovingBoth()
    ensures Leads(Reserved({MIDDLE, LEAF}), Remove(LEAF), Reserved({MIDDLE}))
    ensures Leads(Reserved({MIDDLE}), Remove(MIDDLE), Reserved({}))
  {
    assert {MIDDLE} - {MIDDLE} == {} && {MIDDLE, LEAF} - {LEAF} == {MIDDLE};
    Removing(Reserved({MIDDLE, LEAF}), LEAF);
    Removing(Reserved({MIDDLE}), MIDDLE);
  }

  lemma Publishing()
    ensures Leads(Reserved({}), [Publish(0)], PublishStep(Reserved({}), 0).0)
    ensures Leads(PublishStep(Reserved({}), 0).0, [Commit(0)], Running(NODES))
  {
    LeadsByOne(Reserved({}), Publish(0));
    LeadsByOne(PublishStep(Reserved({}), 0).0, Commit(0));
  }

  lemma Freeing()
    ensures Leads(Running(NODES), [Reclaim(MIDDLE)], Running({ROOT, LEAF}))
  {
    LeadsByOne(Running(NODES), Reclaim(MIDDLE));
  }

  lemma ExitingStep()
    ensures ExitStep(Running({ROOT, LEAF}), TASK, TASK, LastProcessTask).0 == Gone()
  {
    var s := Running({ROOT, LEAF});
    LeafWalk({ROOT, LEAF});
    assert Elements([LEAF]) == {LEAF};
    assert TasksOf(s, TASK) == {TASK};
    assert Uncharge(s.pids, {LEAF}, 1) == Gone().pids;
  }

  lemma Exiting()
    ensures Leads(Running({ROOT, LEAF}), [Exit(TASK, TASK, LastProcessTask)], Gone())
  {
    ExitingStep();
    LeadsByOne(Running({ROOT, LEAF}), Exit(TASK, TASK, LastProcessTask));
  }

  lemma Leaving()
    ensures Leads(Reserved({}),
      [Publish(0)] + ([Commit(0)] + ([Reclaim(MIDDLE)] + [Exit(TASK, TASK, LastProcessTask)])), Gone())
  {
    var exit := [Exit(TASK, TASK, LastProcessTask)];
    Exiting();
    Freeing();
    LeadsOn(Running(NODES), [Reclaim(MIDDLE)], Running({ROOT, LEAF}), exit, Gone());
    Publishing();
    var published := PublishStep(Reserved({}), 0).0;
    LeadsOn(published, [Commit(0)], Running(NODES), [Reclaim(MIDDLE)] + exit, Gone());
    LeadsOn(Reserved({}), [Publish(0)], published, [Commit(0)] + ([Reclaim(MIDDLE)] + exit), Gone());
  }

  lemma RunLeads()
    ensures Leads(INITIAL, RUN, Gone())
  {
    var leave := [Publish(0)] + ([Commit(0)] + ([Reclaim(MIDDLE)] + [Exit(TASK, TASK, LastProcessTask)]));
    Leaving();
    RemovingBoth();
    LeadsOn(Reserved({MIDDLE}), Remove(MIDDLE), Reserved({}), leave, Gone());
    LeadsOn(Reserved({MIDDLE, LEAF}), Remove(LEAF), Reserved({MIDDLE}), Remove(MIDDLE) + leave, Gone());
    Reserving();
    LeadsOn(Built(), [BeginProcessAt(0, LEAF, TASK)], Reserved({MIDDLE, LEAF}),
      Remove(LEAF) + (Remove(MIDDLE) + leave), Gone());
    Building();
    LeadsOn(INITIAL, BUILD, Built(), [BeginProcessAt(0, LEAF, TASK)] + (Remove(LEAF) + (Remove(MIDDLE) + leave)),
      Gone());
  }

  /** Legal for every caller, yet at the end no task and no guard is left and the root still
      counts one. */
  lemma RootKeepsCharge()
    ensures LegalRun(INITIAL, RUN)
    ensures
      var s := After(INITIAL, RUN);
      && s.tasks == map[] && s.pending == map[]
      && (forall g :: g in s.guards ==> s.guards[g].phase.Committed?)
      && At(s.pids, ROOT).current == 1
      && !Conserved(s)
  {
    RunLeads();
    NothingExplainsTheCharge();
  }

  lemma NothingExplainsTheCharge()
    ensures !Conserved(Gone())
  {
  }
}
