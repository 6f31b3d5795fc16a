/** A run in which the refusing cgroup does not count its own limit event. The leaf may hold no
    task, both cgroups are removed, the middle one is freed while somebody still holds the leaf;
    a fork into the leaf is then refused by the leaf, which has no live parent any more. */
module DetachedRefusal {
  import opened CgroupTree
  import opened Membership
  import opened MembershipInvariant
  import opened Conservation
  import opened LeakedCharge

  const FULL_LEAF := Pids(0, 0, 0, 0)

  function Limited(linked: set<Node>, alive: set<Node>): State
    requires ROOT in alive && alive <= NODES
  {
    Built().(linked := linked, tree := RawTree(PARENTS, alive),
      pids := map[ROOT := IDLE, MIDDLE := IDLE, LEAF := FULL_LEAF])
  }

  const SETTING: seq<Op> :=
    BUILD + ([SetMaximum(LEAF, 0)] + (Remove(LEAF) + (Remove(MIDDLE) + [Reclaim(MIDDLE)])))

  lemma Limiting()
    ensures Leads(Built(), [SetMaximum(LEAF, 0)], Limited({MIDDLE, LEAF}, NODES))
  {
    LeadsByOne(Built(), SetMaximum(LEAF, 0));
  }

  lemma Detaching()
    ensures Leads(Limited({MIDDLE, LEAF}, NODES), Remove(LEAF), Limited({MIDDLE}, NODES))
    ensures Leads(Limited({MIDDLE}, NODES), Remove(MIDDLE), Limited({}, NODES))
  {
    assert {MIDDLE} - {MIDDLE} == {} && {MIDDLE, LEAF} - {LEAF} == {MIDDLE};
    Removing(Limited({MIDDLE, LEAF}, NODES), LEAF);
    Removing(Limited({MIDDLE}, NODES), MIDDLE);
  }

  lemma Letting()
    ensures Leads(Limited({}, NODES), [Reclaim(MIDDLE)], Limited({}, {ROOT, LEAF}))
  {
    assert NODES - {MIDDLE} == {ROOT, LEAF};
    LeadsByOne(Limited({}, NODES), Reclaim(MIDDLE));
  }

  lemma SettingLeads()
    ensures Leads(INITIAL, SETTING, Limited({}, {ROOT, LEAF}))
  {
    var end := Limited({}, {ROOT, LEAF});
    Letting();
    Detaching();
    LeadsOn(Limited({MIDDLE}, NODES), Remove(MIDDLE), Limited({}, NODES), [Reclaim(MIDDLE)], end);
    LeadsOn(Limited({MIDDLE, LEAF}, NODES), Remove(LEAF), Limited({MIDDLE}, NODES),
      Remove(MIDDLE) + [Reclaim(MIDDLE)], end);
    Limiting();
    LeadsOn(Built(), [SetMaximum(LEAF, 0)], Limited({MIDDLE, LEAF}, NODES),
      Remove(LEAF) + (Remove(MIDDLE) + [Reclaim(MIDDLE)]), end);
    Building();
    LeadsOn(INITIAL, BUILD, Built(), [SetMaximum(LEAF, 0)] + (Remove(LEAF) + (Remove(MIDDLE) + [Reclaim(MIDDLE)])),
      end);
  }

  /** A full cgroup whose parent is gone refuses without counting the event. */
  lemma OrphanRefuses(s: State, g: GuardId, orphan: Node, t: ProcessId)
    requires t !in s.pending && t !in s.tasks && !HasLiveParent(s.tree, orphan) && Refuses(At(s.pids, orphan))
    ensures
      var (s', r) := BeginAt(s, g, orphan, t, t, Process);
      r == Err(LimitExceeded) && Refuser(s, orphan, orphan) && At(s'.pids, orphan).events == At(s.pids, orphan).events
  {
    assert FirstRefusal(s.pids, Ancestry(s.tree, orphan)) == 0;
    var r := RefusedForkIsAllOrNothing(s, g, orphan, t, t, Process);
  }

  /** The leaf refuses, and its event counter stays at zero. */
  lemma RefuserCountsNoEvent()
    ensures LegalRun(INITIAL, SETTING) && Legal(After(INITIAL, SETTING), BeginProcessAt(0, LEAF, TASK))
    ensures
      var s := After(INITIAL, SETTING);
      var (s', r) := Step(s, BeginProcessAt(0, LEAF, TASK));
      r == Err(LimitExceeded) && Refuser(s, LEAF, LEAF) && At(s'.pids, LEAF).events == 0
  {
    SettingLeads();
    OrphanRefuses(Limited({}, {ROOT, LEAF}), 0, LEAF, TASK);
  }
}
