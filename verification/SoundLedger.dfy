/** The ledger object under legal calls: it starts healthy, every call is a step of the protocol
    and leaves it healthy, and every release finds its charge. */
module SoundLedger {
  import opened CgroupTree
  import opened Membership
  import opened MembershipInvariant
  import opened Claims
  import opened MembershipLedger

  ghost predicate Sound(c: Cgroups)
    reads c
  {
    c.Valid() && Healthy(c.View())
  }

  method Boot() returns (c: Cgroups)
    ensures fresh(c) && Sound(c) && c.View() == INITIAL
  {
    c := new Cgroups();
    InitiallyCovered();
  }

  method Attach(c: Cgroups, pid: ProcessId) returns (r: Outcome)
    requires Sound(c) && Legal(c.View(), Op.Attach(pid))
    modifies c
    ensures Sound(c) && (c.View(), r) == Step(old(c.View()), Op.Attach(pid))
  {
    StepStaysHealthy(c.View(), Op.Attach(pid));
    r := c.Attach(pid);
  }

  method BeginProcessAt(c: Cgroups, g: GuardId, target: Node, t: ProcessId) returns (r: Outcome)
    requires Sound(c) && Legal(c.View(), Op.BeginProcessAt(g, target, t))
    modifies c
    ensures Sound(c) && (c.View(), r) == Step(old(c.View()), Op.BeginProcessAt(g, target, t))
  {
    StepStaysHealthy(c.View(), Op.BeginProcessAt(g, target, t));
    r := c.BeginTaskAt(g, target, t, t, Process);
  }

  method BeginTask(c: Cgroups, g: GuardId, p: ProcessId, t: ProcessId, kind: ChildKind) returns (r: Outcome)
    requires Sound(c) && Legal(c.View(), Op.BeginTask(g, p, t, kind))
    modifies c
    ensures Sound(c) && (c.View(), r) == Step(old(c.View()), Op.BeginTask(g, p, t, kind))
  {
    StepStaysHealthy(c.View(), Op.BeginTask(g, p, t, kind));
    r := c.BeginTask(g, p, t, kind);
  }

  method Publish(c: Cgroups, g: GuardId) returns (r: Outcome)
    requires Sound(c) && Legal(c.View(), Op.Publish(g))
    modifies c
    ensures Sound(c) && (c.View(), r) == Step(old(c.View()), Op.Publish(g))
  {
    StepStaysHealthy(c.View(), Op.Publish(g));
    r := c.Publish(g);
  }

  /** The assertions of commit are met. */
  method Commit(c: Cgroups, g: GuardId)
    requires Sound(c) && Legal(c.View(), Op.Commit(g))
    modifies c
    ensures Sound(c) && c.View() == Step(old(c.View()), Op.Commit(g)).0
  {
    StepStaysHealthy(c.View(), Op.Commit(g));
    GuardAssertionsHold(c.View(), g);
    c.Commit(g);
  }

  method Migrate(c: Cgroups, p: ProcessId, target: Node) returns (r: Outcome)
    requires Sound(c) && Legal(c.View(), Op.Migrate(p, target))
    modifies c
    ensures Sound(c) && (c.View(), r) == Step(old(c.View()), Op.Migrate(p, target))
  {
    StepStaysHealthy(c.View(), Op.Migrate(p, target));
    r := c.Migrate(p, target);
  }

  /** The assertion of a final exit is met. */
  method Exit(c: Cgroups, p: ProcessId, t: ProcessId, exit: ExitKind) returns (r: Outcome)
    requires Sound(c) && Legal(c.View(), Op.Exit(p, t, exit))
    modifies c
    ensures Sound(c) && (c.View(), r) == Step(old(c.View()), Op.Exit(p, t, exit))
    ensures old(ExitAsserts(c.View(), p))
  {
    StepStaysHealthy(c.View(), Op.Exit(p, t, exit));
    ExitAssertionHolds(c.View(), p);
    r := c.Leave(p, t, exit);
  }

  method Rename(c: Cgroups, p: ProcessId, t: ProcessId, u: ProcessId) returns (r: Outcome)
    requires Sound(c) && Legal(c.View(), Op.Rename(p, t, u))
    modifies c
    ensures Sound(c) && (c.View(), r) == Step(old(c.View()), Op.Rename(p, t, u))
  {
    StepStaysHealthy(c.View(), Op.Rename(p, t, u));
    r := c.Rename(p, t, u);
  }

  method Reap(c: Cgroups, p: ProcessId)
    requires Sound(c) && Legal(c.View(), Op.Reap(p))
    modifies c
    ensures Sound(c) && c.View() == Step(old(c.View()), Op.Reap(p)).0
  {
    StepStaysHealthy(c.View(), Op.Reap(p));
    c.Reap(p);
  }

  method CreateChild(c: Cgroups, under: Node, n: Node)
    requires Sound(c) && Legal(c.View(), Op.CreateChild(under, n))
    modifies c
    ensures Sound(c) && c.View() == Step(old(c.View()), Op.CreateChild(under, n)).0
  {
    StepStaysHealthy(c.View(), Op.CreateChild(under, n));
    c.CreateChild(under, n);
  }

  method RemoveChild(c: Cgroups, n: Node) returns (r: Outcome)
    requires Sound(c) && n in c.linked
    modifies c
    ensures Sound(c) && (c.View(), r) == RemoveAlone(old(c.View()), n)
  {
    RemovalStaysHealthy(c.View(), n);
    r := c.RemoveChild(n);
  }

  method Reclaim(c: Cgroups, n: Node)
    requires Sound(c) && Legal(c.View(), Op.Reclaim(n))
    modifies c
    ensures Sound(c) && c.View() == Step(old(c.View()), Op.Reclaim(n)).0
  {
    StepStaysHealthy(c.View(), Op.Reclaim(n));
    c.Reclaim(n);
  }

  method SetMaximum(c: Cgroups, n: Node, maximum: Limit)
    requires Sound(c) && Legal(c.View(), Op.SetMaximum(n, maximum))
    modifies c
    ensures Sound(c) && c.View() == Step(old(c.View()), Op.SetMaximum(n, maximum)).0
  {
    StepStaysHealthy(c.View(), Op.SetMaximum(n, maximum));
    c.SetMaximum(n, maximum);
  }

  method Pin(c: Cgroups, n: Node)
    requires Sound(c) && Legal(c.View(), Op.Pin(n))
    modifies c
    ensures Sound(c) && c.View() == Step(old(c.View()), Op.Pin(n)).0
  {
    StepStaysHealthy(c.View(), Op.Pin(n));
    c.Pin(n);
  }

  method Unpin(c: Cgroups, n: Node)
    requires Sound(c) && Legal(c.View(), Op.Unpin(n))
    modifies c
    ensures Sound(c) && c.View() == Step(old(c.View()), Op.Unpin(n)).0
  {
    StepStaysHealthy(c.View(), Op.Unpin(n));
    c.Unpin(n);
  }

  /** One node of a dropped guard's path: its counter is not zero yet. */
  method ReleaseNext(c: Cgroups, g: GuardId)
    requires Sound(c) && g in c.guards && c.guards[g].phase.Releasing? && c.guards[g].phase.next < |c.guards[g].path|
    modifies c
    ensures Sound(c) && c.View() == DropReleaseStep(old(c.View()), g).0
    ensures old(At(c.pids, c.guards[g].path[c.guards[g].phase.next]).current) >= 1
  {
    ReleaseStaysHealthy(c.View(), g);
    c.ReleaseNext(g);
  }

  /** Ledger and member part of the destructor: its assertions are met. */
  method DropRecords(c: Cgroups, g: GuardId)
    requires Sound(c) && g in c.guards && c.guards[g].Uncommitted()
    modifies c
    ensures Sound(c) && c.View() == DropMemberStep(DropStep(old(c.View()), g).0, g).0
    ensures old(DropAsserts(c.View(), g))
  {
    RecordsStayHealthy(c.View(), g);
    c.TakeRecords(g);
  }

  /** The whole destructor, when nothing comes between its parts: the guard is done for. */
  method DropGuard(c: Cgroups, g: GuardId)
    requires Sound(c) && g in c.guards && c.guards[g].Uncommitted()
    modifies c
    ensures Sound(c) && g in c.guards && c.guards[g].Done()
  {
    DropRecords(c, g);
    ReleaseAll(c, g);
  }

  method ReleaseAll(c: Cgroups, g: GuardId)
    requires Sound(c) && g in c.guards && c.guards[g].phase.Releasing? && c.guards[g].phase.next <= |c.guards[g].path|
    modifies c
    ensures Sound(c) && g in c.guards && c.guards[g].Done()
  {
    while c.guards[g].phase.next < |c.guards[g].path|
      invariant Sound(c) && g in c.guards && c.guards[g].phase.Releasing?
      invariant c.guards[g].phase.next <= |c.guards[g].path|
      decreases |c.guards[g].path| - c.guards[g].phase.next
    {
      ReleaseNext(c, g);
    }
  }

  lemma RemovalStepStaysHealthy(s: State, op: Op)
    requires Healthy(s) && IsRemoval(op) && RemovalLegal(s, op)
    ensures Healthy(RemovalStep(s, op).0)
  {
    RemoveKeepsInv(s, op);
    RemovalCovered(s, op);
  }

  lemma RemovalStaysHealthy(s: State, n: Node)
    requires Healthy(s) && n in s.linked
    ensures Healthy(RemoveAlone(s, n).0)
  {
    var (s1, r1) := StartRemoveStep(s, n);
    RemovalStepStaysHealthy(s, Op.StartRemove(n));
    if r1.Ok? {
      var (s2, r2) := CheckMembersStep(s1, n);
      RemovalStepStaysHealthy(s1, Op.CheckMembers(n));
      if r2.Ok? { RemovalStepStaysHealthy(s2, Op.FinishRemove(n)); }
    }
  }

  lemma ReleaseStaysHealthy(s: State, g: GuardId)
    requires Healthy(s) && g in s.guards && s.guards[g].phase.Releasing? && s.guards[g].phase.next < |s.guards[g].path|
    ensures Healthy(DropReleaseStep(s, g).0)
    ensures At(s.pids, s.guards[g].path[s.guards[g].phase.next]).current >= 1
  {
    GuardStepStaysHealthy(s, Op.DropRelease(g));
    ReleaseIsOwed(s, g);
  }

  lemma DropStaysHealthy(s: State, g: GuardId)
    requires Healthy(s) && g in s.guards
    ensures Healthy(DropStep(s, g).0) && g in DropStep(s, g).0.guards && DropAsserts(s, g)
  {
    GuardStepStaysHealthy(s, Op.Drop(g));
    GuardAssertionsHold(s, g);
  }

  lemma DropMemberStaysHealthy(s: State, g: GuardId)
    requires Healthy(s) && g in s.guards
    ensures Healthy(DropMemberStep(s, g).0)
  {
    GuardStepStaysHealthy(s, Op.DropMember(g));
  }

  lemma RecordsStayHealthy(s: State, g: GuardId)
    requires Healthy(s) && g in s.guards && s.guards[g].Uncommitted()
    ensures Healthy(DropMemberStep(DropStep(s, g).0, g).0) && DropAsserts(s, g)
  {
    DropStaysHealthy(s, g);
    DropMemberStaysHealthy(DropStep(s, g).0, g);
  }
}
