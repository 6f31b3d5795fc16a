/** What every step of the membership protocol keeps: ledger, pending forks, fork
    guards, `cgroup.procs` and the per-process owner state agree with each other. */
module MembershipInvariant {
  import opened CgroupTree
  import opened Membership

  type Guards = map<GuardId, Guard>
  type Ledger = map<ProcessId, Task>
  type Pending = map<ProcessId, ProcessId>
  type Members = set<(Node, ProcessId)>
  type Owners = map<ProcessId, Owner>

  ghost predicate PathOk(tree: Tree, h: Guard) {
    && h.path != [] && h.path[0] == h.cgroup
    && Distinct(h.path)
    && IsNode(tree, h.cgroup)
    && Elements(h.path) <= Ancestors(tree, h.cgroup)
    && (h.phase.Releasing? ==> h.phase.next <= |h.path|)
  }

  ghost predicate PathsOk(tree: Tree, guards: Guards) {
    forall g :: g in guards ==> PathOk(tree, guards[g])
  }

  /** An uncommitted fork owns its pending entry, and its ledger entry once published. */
  ghost predicate EntryOk(h: Guard, tasks: Ledger, pending: Pending, used: set<ProcessId>) {
    && h.task in used && h.process in used
    && (h.kind.Process? ==> h.process == h.task)
    && (h.Uncommitted() ==> h.task in pending && pending[h.task] == h.process)
    && (h.phase.Prepared? ==> h.task !in tasks)
    && (h.phase.Published? ==> h.task in tasks && tasks[h.task] == Task(h.process, h.cgroup))
  }

  ghost predicate EntriesOk(guards: Guards, tasks: Ledger, pending: Pending, used: set<ProcessId>) {
    && (forall g :: g in guards ==> EntryOk(guards[g], tasks, pending, used))
    && (forall t :: t in pending ==> t in used && pending[t] in used)
  }

  /** A forked thread stays where its process is; a forked process enters `cgroup.procs`
      by its own guard only. */
  ghost predicate HomeOk(h: Guard, procs: Owners, members: Members) {
    && (h.Uncommitted() && h.kind.Thread? ==> h.process in procs && procs[h.process] == Active(h.cgroup))
    && (h.phase.Prepared? && h.kind.Process? ==> h.process !in procs && forall n: Node :: (n, h.process) !in members)
    && (h.phase.Published? && h.kind.Process? ==> h.process in procs && procs[h.process] == Active(h.cgroup))
    && (h.phase.Unlinking? ==> h.kind.Process? && h.process !in procs)
    && (h.phase.Unlinking? ==> forall n: Node :: (n, h.process) in members <==> n == h.cgroup)
  }

  ghost predicate HomesOk(guards: Guards, procs: Owners, members: Members) {
    forall g :: g in guards ==> HomeOk(guards[g], procs, members)
  }

  /** A process that is still being forked has no other task, pending or in the ledger. */
  ghost predicate SoleTask(h: Guard, tasks: Ledger, pending: Pending) {
    h.Uncommitted() && h.kind.Process? ==>
      && (forall u :: u in tasks && tasks[u].process == h.process ==> u == h.task)
      && (forall u :: u in pending && pending[u] == h.process ==> u == h.task)
  }

  ghost predicate SoleTasks(guards: Guards, tasks: Ledger, pending: Pending) {
    forall g :: g in guards ==> SoleTask(guards[g], tasks, pending)
  }

  ghost predicate GuardsDistinct(guards: Guards) {
    forall g, h :: g in guards && h in guards && g != h ==>
      && (guards[g].Uncommitted() && guards[h].Uncommitted() ==> guards[g].task != guards[h].task)
      && (guards[g].kind.Process? && guards[h].kind.Process? ==> guards[g].process != guards[h].process)
  }

  /** Every ledger task sits where its process is active. */
  ghost predicate LedgerOk(tasks: Ledger, procs: Owners, used: set<ProcessId>) {
    && (forall t :: t in tasks ==>
          t in used && tasks[t].process in procs && procs[tasks[t].process] == Active(tasks[t].cgroup))
    && (forall p :: p in procs ==> p in used)
  }

  /** A process is listed where it is active and, unless it is being rolled back, nowhere else. */
  ghost predicate MembersOk(members: Members, procs: Owners, used: set<ProcessId>) {
    && (forall p :: p in procs && procs[p].Active? ==> (procs[p].node, p) in members)
    && (forall m :: m in members ==> m.1 in used && (m.1 in procs ==> procs[m.1] == Active(m.0)))
  }

  ghost predicate LinkedOk(tree: Tree, linked: set<Node>) {
    forall n :: n in linked ==> n in tree.alive && n in tree.parent && tree.parent[n] in tree.alive
  }

  ghost predicate OwnersAlive(alive: set<Node>, procs: Owners) {
    forall p :: p in procs ==> procs[p].node in alive
  }

  ghost predicate PathsAlive(alive: set<Node>, guards: Guards) {
    forall g :: g in guards && !guards[g].phase.Committed? && !guards[g].Done() ==> Elements(guards[g].path) <= alive
  }

  ghost predicate Inv(s: State) {
    && PathsOk(s.tree, s.guards)
    && GuardsDistinct(s.guards)
    && EntriesOk(s.guards, s.tasks, s.pending, s.used)
    && HomesOk(s.guards, s.procs, s.members)
    && SoleTasks(s.guards, s.tasks, s.pending)
    && LedgerOk(s.tasks, s.procs, s.used)
    && MembersOk(s.members, s.procs, s.used)
    && LinkedOk(s.tree, s.linked)
    && OwnersAlive(s.tree.alive, s.procs)
    && PathsAlive(s.tree.alive, s.guards)
  }

  // ---- Guards: one guard changes phase, or a new one appears ----

  function SetPhase(guards: Guards, g: GuardId, phase: Phase): Guards
    requires g in guards
  {
    guards[g := guards[g].(phase := phase)]
  }

  lemma PhaseKeepsPaths(tree: Tree, guards: Guards, g: GuardId, phase: Phase)
    requires PathsOk(tree, guards) && g in guards && (phase.Releasing? ==> phase.next <= |guards[g].path|)
    ensures PathsOk(tree, SetPhase(guards, g, phase))
  {
  }

  lemma PhaseKeepsAlive(alive: set<Node>, guards: Guards, g: GuardId, phase: Phase)
    requires PathsAlive(alive, guards) && g in guards && !guards[g].phase.Committed? && !guards[g].Done()
    ensures PathsAlive(alive, SetPhase(guards, g, phase))
  {
  }

  lemma PhaseKeepsDistinct(guards: Guards, g: GuardId, phase: Phase)
    requires GuardsDistinct(guards) && g in guards
    requires (guards[g].Uncommitted() || phase.Committed? || phase.Unlinking? || phase.Releasing?)
    ensures GuardsDistinct(SetPhase(guards, g, phase))
  {
  }

  /** A guard outside `Prepared` and `Published` constrains neither ledger nor pending map. */
  lemma PhaseKeepsEntries(guards: Guards, tasks: Ledger, pending: Pending, used: set<ProcessId>, g: GuardId,
        phase: Phase)
    requires EntriesOk(guards, tasks, pending, used) && g in guards && !phase.Prepared? && !phase.Published?
    ensures EntriesOk(SetPhase(guards, g, phase), tasks, pending, used)
  {
  }

  lemma PhaseKeepsHomes(guards: Guards, procs: Owners, members: Members, g: GuardId, phase: Phase)
    requires HomesOk(guards, procs, members) && g in guards && (phase.Committed? || phase.Releasing?)
    ensures HomesOk(SetPhase(guards, g, phase), procs, members)
  {
  }

  lemma PhaseKeepsSole(guards: Guards, tasks: Ledger, pending: Pending, g: GuardId, phase: Phase)
    requires SoleTasks(guards, tasks, pending) && g in guards && !phase.Prepared? && !phase.Published?
    ensures SoleTasks(SetPhase(guards, g, phase), tasks, pending)
  {
  }

  /** Giving up the pending (and ledger) entry of `g` leaves the other guards' entries alone. */
  lemma ForgetEntry(guards: Guards, tasks: Ledger, pending: Pending, used: set<ProcessId>, g: GuardId, phase: Phase,
        keep: bool)
    requires EntriesOk(guards, tasks, pending, used) && GuardsDistinct(guards)
    requires g in guards && guards[g].Uncommitted() && !phase.Prepared? && !phase.Published?
    ensures EntriesOk(SetPhase(guards, g, phase), if keep then tasks else tasks - {guards[g].task},
      pending - {guards[g].task}, used)
  {
  }

  lemma ForgetSole(guards: Guards, tasks: Ledger, pending: Pending, g: GuardId, phase: Phase, keep: bool)
    requires SoleTasks(guards, tasks, pending)
    requires g in guards && !phase.Prepared? && !phase.Published?
    ensures SoleTasks(SetPhase(guards, g, phase), if keep then tasks else tasks - {guards[g].task},
      pending - {guards[g].task})
  {
  }

  // ---- Preservation, step by step ----

  lemma AttachEntries(s: State, pid: ProcessId)
    requires Inv(s) && pid !in s.used
    ensures EntriesOk(s.guards, s.tasks[pid := Task(pid, ROOT)], s.pending, s.used + {pid})
    ensures SoleTasks(s.guards, s.tasks[pid := Task(pid, ROOT)], s.pending)
  {
  }

  lemma AttachLedger(s: State, pid: ProcessId)
    requires Inv(s) && pid !in s.used
    ensures LedgerOk(s.tasks[pid := Task(pid, ROOT)], s.procs[pid := Active(ROOT)], s.used + {pid})
  {
  }

  lemma AttachHomes(s: State, pid: ProcessId)
    requires Inv(s) && pid !in s.used
    ensures HomesOk(s.guards, s.procs[pid := Active(ROOT)], s.members + {(ROOT, pid)})
    ensures MembersOk(s.members + {(ROOT, pid)}, s.procs[pid := Active(ROOT)], s.used + {pid})
    ensures OwnersAlive(s.tree.alive, s.procs[pid := Active(ROOT)])
  {
  }

  lemma AttachKeepsInv(s: State, pid: ProcessId)
    requires Inv(s) && pid !in s.used
    ensures Inv(AttachStep(s, pid).0)
  {
    AttachEntries(s, pid);
    AttachLedger(s, pid);
    AttachHomes(s, pid);
  }

  lemma BeginGuards(s: State, g: GuardId, h: Guard)
    requires Inv(s) && g !in s.guards && h.task !in s.used && h.cgroup in s.tree.alive && h.phase.Prepared?
    requires h.path == Ancestry(s.tree, h.cgroup) && (h.kind.Process? ==> h.process == h.task)
    ensures PathsOk(s.tree, s.guards[g := h])
    ensures PathsAlive(s.tree.alive, s.guards[g := h])
    ensures GuardsDistinct(s.guards[g := h])
  {
    AncestryDistinct(s.tree, h.cgroup);
    AncestryWithin(s.tree, h.cgroup);
  }

  lemma BeginEntries(s: State, g: GuardId, h: Guard)
    requires Inv(s) && g !in s.guards && h.task !in s.used && h.phase.Prepared?
    requires if h.kind.Process? then h.process == h.task else h.process in s.used
    ensures EntriesOk(s.guards[g := h], s.tasks, s.pending[h.task := h.process], s.used + {h.task})
  {
  }

  lemma BeginSoles(s: State, g: GuardId, h: Guard)
    requires Inv(s) && g !in s.guards && h.task !in s.used && h.phase.Prepared?
    requires if h.kind.Process? then h.process == h.task else CanRun(s, h.process)
    ensures SoleTasks(s.guards[g := h], s.tasks, s.pending[h.task := h.process])
  {
    if h.kind.Thread? {
      var u :| u in s.tasks && u !in s.pending && s.tasks[u].process == h.process;
    }
  }

  lemma BeginHomes(s: State, g: GuardId, h: Guard)
    requires Inv(s) && g !in s.guards && h.task !in s.used && h.phase.Prepared?
    requires if h.kind.Process? then h.process == h.task
      else h.process in s.procs && s.procs[h.process] == Active(h.cgroup)
    ensures HomesOk(s.guards[g := h], s.procs, s.members)
    ensures LedgerOk(s.tasks, s.procs, s.used + {h.task})
    ensures MembersOk(s.members, s.procs, s.used + {h.task})
  {
  }

  lemma BegunKeepsInv(s: State, g: GuardId, h: Guard, s': State)
    requires Inv(s) && g !in s.guards && h.task !in s.used && h.cgroup in s.tree.alive && h.phase.Prepared?
    requires h.path == Ancestry(s.tree, h.cgroup)
    requires if h.kind.Process? then h.process == h.task
      else h.process in s.procs && s.procs[h.process] == Active(h.cgroup) && CanRun(s, h.process)
    requires s' == s.(pids := s'.pids, pending := s.pending[h.task := h.process], guards := s.guards[g := h],
                      used := s.used + {h.task})
    ensures Inv(s')
  {
    BeginGuards(s, g, h);
    BeginEntries(s, g, h);
    BeginSoles(s, g, h);
    BeginHomes(s, g, h);
  }

  lemma BeginKeepsInv(s: State, g: GuardId, target: Node, process: ProcessId, t: ProcessId, kind: ChildKind)
    requires Inv(s) && g !in s.guards && t !in s.used && target in s.tree.alive
    requires kind.Thread? ==> process in s.procs && s.procs[process] == Active(target) && CanRun(s, process)
    ensures Inv(BeginAt(s, g, target, process, t, kind).0)
  {
    var h := Guard(target, t, if kind.Process? then t else process, kind, Ancestry(s.tree, target), Prepared);
    if BeginAt(s, g, target, process, t, kind).1.Ok? {
      BegunKeepsInv(s, g, h, BeginAt(s, g, target, process, t, kind).0);
    }
  }

  lemma BeginTaskKeepsInv(s: State, g: GuardId, p: ProcessId, t: ProcessId, kind: ChildKind)
    requires Inv(s) && g !in s.guards && t !in s.used && CanRun(s, p)
    ensures Inv(BeginTaskStep(s, g, p, t, kind).0)
  {
    if p in s.procs && s.procs[p].Active? { BeginKeepsInv(s, g, s.procs[p].node, p, t, kind); }
  }

  lemma PublishEntries(s: State, g: GuardId)
    requires EntriesOk(s.guards, s.tasks, s.pending, s.used) && GuardsDistinct(s.guards)
    requires g in s.guards && s.guards[g].phase.Prepared?
    ensures
      var h := s.guards[g];
      EntriesOk(SetPhase(s.guards, g, Published), s.tasks[h.task := Task(h.process, h.cgroup)], s.pending, s.used)
  {
  }

  lemma PublishSole(s: State, g: GuardId)
    requires EntriesOk(s.guards, s.tasks, s.pending, s.used) && SoleTasks(s.guards, s.tasks, s.pending)
    requires g in s.guards && s.guards[g].phase.Prepared?
    ensures
      var h := s.guards[g];
      SoleTasks(SetPhase(s.guards, g, Published), s.tasks[h.task := Task(h.process, h.cgroup)], s.pending)
  {
  }

  lemma PublishThread(s: State, g: GuardId)
    requires Inv(s) && g in s.guards && s.guards[g].phase.Prepared? && s.guards[g].kind.Thread?
    ensures HomesOk(SetPhase(s.guards, g, Published), s.procs, s.members)
    ensures LedgerOk(s.tasks[s.guards[g].task := Task(s.guards[g].process, s.guards[g].cgroup)], s.procs, s.used)
  {
  }

  lemma PublishProcess(s: State, g: GuardId, procs: Owners, members: Members)
    requires HomesOk(s.guards, s.procs, s.members) && GuardsDistinct(s.guards)
    requires g in s.guards && s.guards[g].phase.Prepared? && s.guards[g].kind.Process?
    requires s.guards[g].process == s.guards[g].task
    requires procs == s.procs[s.guards[g].task := Active(s.guards[g].cgroup)]
    requires members == s.members + {(s.guards[g].cgroup, s.guards[g].task)}
    ensures HomesOk(SetPhase(s.guards, g, Published), procs, members)
  {
  }

  lemma PublishOwner(s: State, g: GuardId, procs: Owners)
    requires LedgerOk(s.tasks, s.procs, s.used) && HomesOk(s.guards, s.procs, s.members)
    requires OwnersAlive(s.tree.alive, s.procs)
    requires g in s.guards && s.guards[g].phase.Prepared? && s.guards[g].kind.Process?
    requires s.guards[g].process == s.guards[g].task && s.guards[g].task in s.used && s.guards[g].cgroup in s.tree.alive
    requires procs == s.procs[s.guards[g].task := Active(s.guards[g].cgroup)]
    ensures LedgerOk(s.tasks[s.guards[g].task := Task(s.guards[g].process, s.guards[g].cgroup)], procs, s.used)
    ensures OwnersAlive(s.tree.alive, procs)
  {
  }

  lemma PublishMembers(s: State, g: GuardId, procs: Owners, members: Members)
    requires Inv(s) && g in s.guards && s.guards[g].phase.Prepared? && s.guards[g].kind.Process?
    requires procs == s.procs[s.guards[g].task := Active(s.guards[g].cgroup)]
    requires members == s.members + {(s.guards[g].cgroup, s.guards[g].task)}
    ensures MembersOk(members, procs, s.used)
  {
  }

  lemma PublishKeepsInv(s: State, g: GuardId)
    requires Inv(s) && g in s.guards
    ensures Inv(PublishStep(s, g).0)
  {
    if PublishStep(s, g).1.Ok? {
      PhaseKeepsPaths(s.tree, s.guards, g, Published);
      PhaseKeepsAlive(s.tree.alive, s.guards, g, Published);
      PhaseKeepsDistinct(s.guards, g, Published);
      PublishEntries(s, g);
      PublishSole(s, g);
      if s.guards[g].kind.Thread? {
        PublishThread(s, g);
      } else {
        assert EntryOk(s.guards[g], s.tasks, s.pending, s.used) && s.guards[g].path[0] in Elements(s.guards[g].path);
        PublishProcess(s, g, PublishStep(s, g).0.procs, PublishStep(s, g).0.members);
        PublishOwner(s, g, PublishStep(s, g).0.procs);
        PublishMembers(s, g, PublishStep(s, g).0.procs, PublishStep(s, g).0.members);
      }
    }
  }

  lemma CommitKeepsInv(s: State, g: GuardId)
    requires Inv(s) && g in s.guards && s.guards[g].phase.Published?
    ensures Inv(CommitStep(s, g).0)
  {
    PhaseKeepsPaths(s.tree, s.guards, g, Committed);
    PhaseKeepsAlive(s.tree.alive, s.guards, g, Committed);
    PhaseKeepsDistinct(s.guards, g, Committed);
    PhaseKeepsHomes(s.guards, s.procs, s.members, g, Committed);
    ForgetEntry(s.guards, s.tasks, s.pending, s.used, g, Committed, true);
    ForgetSole(s.guards, s.tasks, s.pending, g, Committed, true);
  }

  lemma DropProcessHomes(s: State, g: GuardId)
    requires Inv(s) && g in s.guards && s.guards[g].phase.Published? && s.guards[g].kind.Process?
    ensures HomesOk(SetPhase(s.guards, g, Unlinking), s.procs - {s.guards[g].process}, s.members)
  {
  }

  lemma DropLedger(s: State, g: GuardId)
    requires Inv(s) && g in s.guards && s.guards[g].phase.Published?
    ensures LedgerOk(s.tasks - {s.guards[g].task}, s.procs, s.used)
    ensures s.guards[g].kind.Process? ==>
      LedgerOk(s.tasks - {s.guards[g].task}, s.procs - {s.guards[g].process}, s.used)
    ensures MembersOk(s.members, s.procs - {s.guards[g].process}, s.used)
    ensures OwnersAlive(s.tree.alive, s.procs - {s.guards[g].process})
  {
    assert SoleTask(s.guards[g], s.tasks, s.pending);
  }

  lemma DropKeepsInv(s: State, g: GuardId)
    requires Inv(s) && g in s.guards
    ensures Inv(DropStep(s, g).0)
  {
    var h := s.guards[g];
    if h.Uncommitted() {
      var phase := if h.phase.Published? && h.kind.Process? then Unlinking else Releasing(0);
      PhaseKeepsPaths(s.tree, s.guards, g, phase);
      PhaseKeepsAlive(s.tree.alive, s.guards, g, phase);
      PhaseKeepsDistinct(s.guards, g, phase);
      ForgetEntry(s.guards, s.tasks, s.pending, s.used, g, phase, h.phase.Prepared?);
      ForgetSole(s.guards, s.tasks, s.pending, g, phase, h.phase.Prepared?);
      if h.phase.Published? { DropLedger(s, g); }
      if phase.Unlinking? { DropProcessHomes(s, g); } else { PhaseKeepsHomes(s.guards, s.procs, s.members, g, phase); }
    }
  }

  lemma DropMemberHomes(s: State, g: GuardId)
    requires Inv(s) && g in s.guards && s.guards[g].phase.Unlinking?
    ensures HomesOk(SetPhase(s.guards, g, Releasing(0)), s.procs, s.members - {(s.guards[g].cgroup, s.guards[g].task)})
    ensures MembersOk(s.members - {(s.guards[g].cgroup, s.guards[g].task)}, s.procs, s.used)
  {
  }

  lemma DropMemberKeepsInv(s: State, g: GuardId)
    requires Inv(s) && g in s.guards
    ensures Inv(DropMemberStep(s, g).0)
  {
    if s.guards[g].phase.Unlinking? {
      PhaseKeepsPaths(s.tree, s.guards, g, Releasing(0));
      PhaseKeepsAlive(s.tree.alive, s.guards, g, Releasing(0));
      PhaseKeepsDistinct(s.guards, g, Releasing(0));
      PhaseKeepsEntries(s.guards, s.tasks, s.pending, s.used, g, Releasing(0));
      PhaseKeepsSole(s.guards, s.tasks, s.pending, g, Releasing(0));
      DropMemberHomes(s, g);
    }
  }

  /** What the invariant asks of the guards. */
  ghost predicate GuardsOk(s: State, guards: Guards) {
    && PathsOk(s.tree, guards) && PathsAlive(s.tree.alive, guards) && GuardsDistinct(guards)
    && EntriesOk(guards, s.tasks, s.pending, s.used) && HomesOk(guards, s.procs, s.members)
    && SoleTasks(guards, s.tasks, s.pending)
  }

  lemma GuardsKeepInv(s: State, guards: Guards, pids: PidsMap)
    requires Inv(s) && GuardsOk(s, guards)
    ensures Inv(s.(guards := guards, pids := pids))
  {
  }

  /** A guard that has given up its records and moves on keeps what is asked of guards. */
  lemma PhaseKeepsGuards(s: State, g: GuardId, phase: Phase)
    requires Inv(s) && g in s.guards && phase.Releasing? && phase.next <= |s.guards[g].path|
    requires s.guards[g].phase.Releasing? && !s.guards[g].Done()
    ensures GuardsOk(s, SetPhase(s.guards, g, phase))
  {
    PhaseKeepsPaths(s.tree, s.guards, g, phase);
    PhaseKeepsAlive(s.tree.alive, s.guards, g, phase);
    PhaseKeepsDistinct(s.guards, g, phase);
    PhaseKeepsEntries(s.guards, s.tasks, s.pending, s.used, g, phase);
    PhaseKeepsHomes(s.guards, s.procs, s.members, g, phase);
    PhaseKeepsSole(s.guards, s.tasks, s.pending, g, phase);
  }

  lemma ReleaseResult(s: State, g: GuardId)
    requires g in s.guards && s.guards[g].phase.Releasing? && s.guards[g].phase.next < |s.guards[g].path|
    ensures
      var next := s.guards[g].phase.next;
      DropReleaseStep(s, g).0 == s.(guards := SetPhase(s.guards, g, Releasing(next + 1)),
                                    pids := Uncharge(s.pids, {s.guards[g].path[next]}, 1))
  {
  }

  lemma ReleasedKeepsInv(s: State, g: GuardId, s': State)
    requires Inv(s) && g in s.guards && s.guards[g].phase.Releasing? && s.guards[g].phase.next < |s.guards[g].path|
    requires s' == s.(guards := SetPhase(s.guards, g, Releasing(s.guards[g].phase.next + 1)), pids := s'.pids)
    ensures Inv(s')
  {
    PhaseKeepsGuards(s, g, Releasing(s.guards[g].phase.next + 1));
    GuardsKeepInv(s, s'.guards, s'.pids);
  }

  lemma DropReleaseKeepsInv(s: State, g: GuardId)
    requires Inv(s) && g in s.guards
    ensures Inv(DropReleaseStep(s, g).0)
  {
    if s.guards[g].phase.Releasing? && s.guards[g].phase.next < |s.guards[g].path| {
      ReleaseResult(s, g);
      ReleasedKeepsInv(s, g, DropReleaseStep(s, g).0);
    }
  }

  lemma MigrateLedger(s: State, p: ProcessId, target: Node)
    requires Inv(s) && p in s.procs && s.procs[p].Active? && !HasPending(s, p)
    ensures EntriesOk(s.guards, Moved(s.tasks, p, target), s.pending, s.used)
    ensures SoleTasks(s.guards, Moved(s.tasks, p, target), s.pending)
    ensures LedgerOk(Moved(s.tasks, p, target), s.procs[p := Active(target)], s.used)
  {
  }

  lemma NoForkInFlight(s: State, p: ProcessId)
    requires EntriesOk(s.guards, s.tasks, s.pending, s.used) && !HasPending(s, p)
    ensures forall g :: g in s.guards && s.guards[g].Uncommitted() ==> s.guards[g].process != p
  {
  }

  lemma MigrateHomes(s: State, p: ProcessId, target: Node)
    requires HomesOk(s.guards, s.procs, s.members) && p in s.procs
    requires forall g :: g in s.guards && s.guards[g].Uncommitted() ==> s.guards[g].process != p
    ensures HomesOk(s.guards, s.procs[p := Active(target)], s.members - {(s.procs[p].node, p)} + {(target, p)})
  {
  }

  lemma MigrateMembers(s: State, p: ProcessId, target: Node)
    requires MembersOk(s.members, s.procs, s.used) && p in s.procs && p in s.used
    ensures MembersOk(s.members - {(s.procs[p].node, p)} + {(target, p)}, s.procs[p := Active(target)], s.used)
  {
  }

  lemma CountersKeepInv(s: State, s': State)
    requires Inv(s) && s' == s.(pids := s'.pids)
    ensures Inv(s')
  {
  }

  lemma RelocateKeepsInv(s: State, p: ProcessId, target: Node)
    requires Inv(s) && target in s.tree.alive && p in s.procs && s.procs[p].Active? && !HasPending(s, p)
    ensures Inv(Relocate(s, p, s.procs[p].node, target).0)
  {
    var (s', r) := Relocate(s, p, s.procs[p].node, target);
    if r.Err? {
      CountersKeepInv(s, s');
    } else {
      MigrateLedger(s, p, target);
      NoForkInFlight(s, p);
      MigrateHomes(s, p, target);
      MigrateMembers(s, p, target);
      assert OwnersAlive(s.tree.alive, s.procs[p := Active(target)]);
    }
  }

  lemma MigrateKeepsInv(s: State, p: ProcessId, target: Node)
    requires Inv(s) && target in s.tree.alive
    ensures Inv(MigrateStep(s, p, target).0)
  {
    if p in s.procs && s.procs[p].Active? && !HasPending(s, p) { RelocateKeepsInv(s, p, target); }
  }

  lemma ExitLedger(s: State, t: ProcessId)
    requires Inv(s) && t in s.tasks && t !in s.pending
    ensures EntriesOk(s.guards, s.tasks - {t}, s.pending, s.used)
    ensures SoleTasks(s.guards, s.tasks - {t}, s.pending)
    ensures LedgerOk(s.tasks - {t}, s.procs, s.used)
  {
  }

  lemma FinalHomes(s: State, p: ProcessId)
    requires Inv(s) && p in s.procs && s.procs[p].Active? && !HasPending(s, p)
    ensures HomesOk(s.guards, s.procs[p := Exited(s.procs[p].node)], s.members - {(s.procs[p].node, p)})
  {
    NoForkInFlight(s, p);
  }

  lemma FinalOwners(s: State, p: ProcessId, t: ProcessId)
    requires Inv(s) && p in s.procs && s.procs[p].Active? && TasksOf(s, p) == {t}
    ensures MembersOk(s.members - {(s.procs[p].node, p)}, s.procs[p := Exited(s.procs[p].node)], s.used)
    ensures LedgerOk(s.tasks - {t}, s.procs[p := Exited(s.procs[p].node)], s.used)
    ensures OwnersAlive(s.tree.alive, s.procs[p := Exited(s.procs[p].node)])
  {
    forall u | u in s.tasks && u != t ensures s.tasks[u].process != p {
      assert u !in TasksOf(s, p);
    }
  }

  lemma ExitKeepsInv(s: State, p: ProcessId, t: ProcessId, exit: ExitKind)
    requires Inv(s) && t !in s.pending && (exit.LastProcessTask? ==> t in s.tasks)
    ensures Inv(ExitStep(s, p, t, exit).0)
  {
    if t in s.tasks && p in s.procs && s.procs[p].Active? {
      ExitLedger(s, t);
      if exit.LastProcessTask? && !HasPending(s, p) && TasksOf(s, p) == {t} { FinalHomes(s, p); FinalOwners(s, p, t); }
    }
  }

  lemma RenameEntries(s: State, t: ProcessId, u: ProcessId)
    requires Inv(s) && t in s.tasks && t !in s.pending && (t != u ==> u !in s.pending && u !in s.tasks)
    ensures
      var tasks := (s.tasks - {t})[u := s.tasks[t]];
      && EntriesOk(s.guards, tasks, s.pending, s.used + {u}) && SoleTasks(s.guards, tasks, s.pending)
  {
  }

  lemma RenameLedger(s: State, t: ProcessId, u: ProcessId)
    requires Inv(s) && t in s.tasks
    ensures LedgerOk((s.tasks - {t})[u := s.tasks[t]], s.procs, s.used + {u})
    ensures MembersOk(s.members, s.procs, s.used + {u})
  {
  }

  lemma RenameKeepsInv(s: State, p: ProcessId, t: ProcessId, u: ProcessId)
    requires Inv(s) && t !in s.pending
    ensures Inv(RenameStep(s, p, t, u).0)
  {
    if RenameStep(s, p, t, u).1.Ok? {
      RenameEntries(s, t, u);
      RenameLedger(s, t, u);
    }
  }

  /** Growing or trimming the tree touches no guard, task or member. */
  lemma TreeKeepsPaths(tree: Tree, tree': Tree, guards: Guards)
    requires PathsOk(tree, guards)
    requires forall x :: x in tree.parent ==> x in tree'.parent && tree'.parent[x] == tree.parent[x]
    ensures PathsOk(tree', guards)
  {
    forall g | g in guards ensures PathOk(tree', guards[g]) {
      AncestorsStable(tree, tree', guards[g].cgroup);
    }
  }

  lemma ReapKeepsInv(s: State, p: ProcessId)
    requires Inv(s) && p in s.procs && s.procs[p].Exited?
    ensures Inv(ReapStep(s, p).0)
  {
    ReapHomes(s, p);
    ReapOwners(s, p);
  }

  lemma ReapHomes(s: State, p: ProcessId)
    requires HomesOk(s.guards, s.procs, s.members) && p in s.procs && s.procs[p].Exited?
    ensures HomesOk(s.guards, s.procs - {p}, s.members)
  {
  }

  lemma ReapOwners(s: State, p: ProcessId)
    requires LedgerOk(s.tasks, s.procs, s.used) && MembersOk(s.members, s.procs, s.used)
    requires OwnersAlive(s.tree.alive, s.procs) && p in s.procs && s.procs[p].Exited?
    ensures LedgerOk(s.tasks, s.procs - {p}, s.used) && MembersOk(s.members, s.procs - {p}, s.used)
    ensures OwnersAlive(s.tree.alive, s.procs - {p})
  {
  }

  lemma CreateKeepsInv(s: State, under: Node, n: Node)
    requires Inv(s) && under in s.tree.alive && !IsNode(s.tree, n) && under < n
    ensures Inv(CreateStep(s, under, n).0)
  {
    TreeKeepsPaths(s.tree, CreateStep(s, under, n).0.tree, s.guards);
  }

  lemma StartRemoveFrame(s: State, n: Node)
    ensures StartRemoveStep(s, n).0 == s.(removing := StartRemoveStep(s, n).0.removing)
  {
  }

  lemma CheckMembersFrame(s: State, n: Node)
    ensures CheckMembersStep(s, n).0 == s.(removing := CheckMembersStep(s, n).0.removing)
  {
  }

  lemma FinishRemoveFrame(s: State, n: Node)
    ensures
      var s' := FinishRemoveStep(s, n).0;
      s' == s.(removing := s'.removing, linked := s'.linked) && s'.linked <= s.linked
  {
  }

  lemma RemovalFrame(s: State, op: Op)
    requires IsRemoval(op)
    ensures
      var s' := RemovalStep(s, op).0;
      s' == s.(removing := s'.removing, linked := s'.linked) && s'.linked <= s.linked
  {
    if op.StartRemove? { StartRemoveFrame(s, op.node); }
    else if op.CheckMembers? { CheckMembersFrame(s, op.node); }
    else { FinishRemoveFrame(s, op.node); }
  }

  lemma UnlinkKeepsInv(s: State, s': State)
    requires Inv(s) && s' == s.(linked := s'.linked, removing := s'.removing) && s'.linked <= s.linked
    ensures Inv(s')
  {
  }

  lemma RemoveKeepsInv(s: State, op: Op)
    requires Inv(s) && IsRemoval(op) && RemovalLegal(s, op)
    ensures Inv(RemovalStep(s, op).0)
  {
    RemovalFrame(s, op);
    UnlinkKeepsInv(s, RemovalStep(s, op).0);
  }

  lemma ReclaimKeepsAlive(s: State, n: Node)
    requires Inv(s) && n != ROOT && Unowned(s, n)
    ensures PathsAlive(s.tree.alive - {n}, s.guards)
    ensures OwnersAlive(s.tree.alive - {n}, s.procs)
    ensures LinkedOk(ReclaimStep(s, n).0.tree, ReclaimStep(s, n).0.linked)
  {
  }

  lemma ReclaimKeepsInv(s: State, n: Node)
    requires Inv(s) && n != ROOT && Unowned(s, n)
    ensures Inv(ReclaimStep(s, n).0)
  {
    ReclaimKeepsAlive(s, n);
    TreeKeepsPaths(s.tree, ReclaimStep(s, n).0.tree, s.guards);
  }

  lemma GuardStepKeepsInv(s: State, op: Op)
    requires Inv(s) && IsGuardOp(op) && GuardLegal(s, op)
    ensures Inv(GuardStep(s, op).0)
  {
    match op
    case Publish(g) => PublishKeepsInv(s, g);
    case Commit(g) => CommitKeepsInv(s, g);
    case Drop(g) => DropKeepsInv(s, g);
    case DropMember(g) => DropMemberKeepsInv(s, g);
    case DropRelease(g) => DropReleaseKeepsInv(s, g);
  }

  lemma TaskStepKeepsInv(s: State, op: Op)
    requires Inv(s) && IsTaskOp(op) && TaskLegal(s, op)
    ensures Inv(TaskStep(s, op).0)
  {
    match op
    case Migrate(p, target) => MigrateKeepsInv(s, p, target);
    case Exit(p, t, exit) => ExitKeepsInv(s, p, t, exit);
    case Rename(p, t, u) => RenameKeepsInv(s, p, t, u);
    case Reap(p) => ReapKeepsInv(s, p);
  }

  lemma ForkStepKeepsInv(s: State, op: Op)
    requires Inv(s) && IsForkOp(op) && ForkLegal(s, op)
    ensures Inv(ForkStep(s, op).0)
  {
    match op
    case Attach(pid) => AttachKeepsInv(s, pid);
    case BeginProcessAt(g, target, t) => BeginKeepsInv(s, g, target, t, t, Process);
    case BeginTask(g, p, t, kind) => BeginTaskKeepsInv(s, g, p, t, kind);
  }

  lemma TreeStepKeepsInv(s: State, op: Op)
    requires Inv(s) && IsTreeOp(op) && TreeLegal(s, op)
    ensures Inv(TreeStep(s, op).0)
  {
    if op.CreateChild? { CreateKeepsInv(s, op.under, op.node); }
    else if op.Reclaim? { ReclaimKeepsInv(s, op.node); }
  }

  /** Every legal step keeps the invariant. */
  lemma StepKeepsInv(s: State, op: Op)
    requires Inv(s) && Legal(s, op)
    ensures Inv(Step(s, op).0)
  {
    if IsGuardOp(op) { GuardStepKeepsInv(s, op); }
    else if IsTaskOp(op) { TaskStepKeepsInv(s, op); }
    else if IsForkOp(op) { ForkStepKeepsInv(s, op); }
    else if IsRemoval(op) { RemoveKeepsInv(s, op); }
    else { TreeStepKeepsInv(s, op); }
  }

  // ---- Whole runs ----

  /** A run: each step is legal where it is taken. */
  ghost predicate LegalRun(s: State, ops: seq<Op>)
    decreases |ops|
  {
    ops == [] || (Legal(s, ops[0]) && LegalRun(Step(s, ops[0]).0, ops[1..]))
  }

  ghost function After(s: State, ops: seq<Op>): State
    requires LegalRun(s, ops)
    decreases |ops|
  {
    if ops == [] then s else After(Step(s, ops[0]).0, ops[1..])
  }

  lemma {:induction false} RunKeepsInv(s: State, ops: seq<Op>)
    requires Inv(s) && LegalRun(s, ops)
    ensures Inv(After(s, ops))
    decreases |ops|
  {
    if ops != [] {
      StepKeepsInv(s, ops[0]);
      RunKeepsInv(Step(s, ops[0]).0, ops[1..]);
    }
  }

  /** The legal run `ops` leads from `s` to `s'`. */
  ghost predicate Leads(s: State, ops: seq<Op>, s': State) {
    LegalRun(s, ops) && After(s, ops) == s'
  }

  lemma LeadsByOne(s: State, op: Op)
    requires Legal(s, op)
    ensures Leads(s, [op], Step(s, op).0)
  {
  }

  /** The first step of `ops` leads to `next`. */
  ghost predicate Starts(s: State, ops: seq<Op>, next: State) {
    ops != [] && Legal(s, ops[0]) && next == Step(s, ops[0]).0
  }

  lemma LeadsFirst(s: State, ops: seq<Op>, next: State, s': State)
    requires Starts(s, ops, next) && Leads(next, ops[1..], s')
    ensures Leads(s, ops, s')
  {
  }

  lemma StartsAlike(s: State, a: seq<Op>, b: seq<Op>, next: State)
    requires Starts(s, a, next)
    ensures Starts(s, a + b, next) && (a + b)[1..] == a[1..] + b
  {
  }

  lemma LeadsRest(s: State, ops: seq<Op>, s': State) returns (next: State)
    requires Leads(s, ops, s') && ops != []
    ensures Starts(s, ops, next) && Leads(next, ops[1..], s')
  {
    next := Step(s, ops[0]).0;
  }

  lemma {:induction false} LeadsOn(s: State, a: seq<Op>, m: State, b: seq<Op>, s': State)
    requires Leads(s, a, m) && Leads(m, b, s')
    ensures Leads(s, a + b, s')
    decreases |a|
  {
    if a == [] {
      assert a + b == b;
    } else {
      var next := LeadsRest(s, a, m);
      LeadsOn(next, a[1..], m, b, s');
      StartsAlike(s, a, b, next);
      LeadsFirst(s, a + b, next, s');
    }
  }

  /** In every reachable state a ledger task's process is listed in exactly one cgroup: the
      task's own, which is also where the process is active. A pending thread fork names the
      cgroup of its process. */
  lemma LedgerAndMembershipAgree(ops: seq<Op>, t: ProcessId, n: Node)
    requires LegalRun(INITIAL, ops)
    ensures
      var s := After(INITIAL, ops);
      && (t in s.tasks ==>
            && ((n, s.tasks[t].process) in s.members <==> n == s.tasks[t].cgroup)
            && s.tasks[t].process in s.procs
            && s.procs[s.tasks[t].process] == Active(s.tasks[t].cgroup))
      && (forall g :: g in s.guards && s.guards[g].Uncommitted() && s.guards[g].kind.Thread? ==>
            s.guards[g].process in s.procs && s.procs[s.guards[g].process] == Active(s.guards[g].cgroup))
  {
    RunKeepsInv(INITIAL, ops);
    var s := After(INITIAL, ops);
    forall g | g in s.guards ensures HomeOk(s.guards[g], s.procs, s.members) {}
  }

  /** While a fork of `p` is pending, neither migration nor final exit of `p` changes anything. */
  lemma PendingForkPinsProcess(s: State, g: GuardId, target: Node, t: ProcessId)
    requires Inv(s) && g in s.guards && s.guards[g].Uncommitted()
    requires t in s.tasks
    ensures MigrateStep(s, s.guards[g].process, target).1.Err? && MigrateStep(s, s.guards[g].process, target).0 == s
    ensures
      var p := s.guards[g].process;
      p in s.procs && s.procs[p].Active? ==>
        ExitStep(s, p, t, LastProcessTask).1.Err? && ExitStep(s, p, t, LastProcessTask).0 == s
  {
  }

  // ---- What the source asserts ----

  /** On commit: the guard is published and its pending entry names the process. */
  ghost predicate CommitAsserts(s: State, g: GuardId)
    requires g in s.guards
  {
    var h := s.guards[g];
    h.phase.Published? && h.task in s.pending && s.pending[h.task] == h.process
  }

  /** On dropping a published guard: the pending entry names the process, the ledger entry is the
      one published, and a process is a member of the cgroup; and while the member is being taken
      out after the ledger, it is still there. */
  ghost predicate DropAsserts(s: State, g: GuardId)
    requires g in s.guards
  {
    var h := s.guards[g];
    && (h.phase.Published? ==>
          && h.task in s.pending && s.pending[h.task] == h.process
          && h.task in s.tasks && s.tasks[h.task] == Task(h.process, h.cgroup)
          && (h.kind.Process? ==> (h.cgroup, h.task) in s.members))
    && (h.phase.Unlinking? ==> (h.cgroup, h.task) in s.members)
  }

  /** On final exit: an active process is a member where it is active. */
  ghost predicate ExitAsserts(s: State, p: ProcessId) {
    p in s.procs && s.procs[p].Active? ==> (s.procs[p].node, p) in s.members
  }

  lemma GuardAssertionsHold(s: State, g: GuardId)
    requires g in s.guards
    ensures Inv(s) ==> DropAsserts(s, g)
    ensures Inv(s) && s.guards[g].phase.Published? ==> CommitAsserts(s, g)
  {
    if Inv(s) {
      assert EntryOk(s.guards[g], s.tasks, s.pending, s.used) && HomeOk(s.guards[g], s.procs, s.members);
    }
  }

  lemma ExitAssertionHolds(s: State, p: ProcessId)
    ensures Inv(s) ==> ExitAsserts(s, p)
  {
  }

  /** None of the source's assertions can fail on a legal run. */
  lemma AssertionsHold(ops: seq<Op>)
    requires LegalRun(INITIAL, ops)
    ensures
      var s := After(INITIAL, ops);
      && (forall g :: g in s.guards ==> DropAsserts(s, g) && (s.guards[g].phase.Published? ==> CommitAsserts(s, g)))
      && (forall p :: p in s.procs ==> ExitAsserts(s, p))
  {
    RunKeepsInv(INITIAL, ops);
    var s := After(INITIAL, ops);
    forall g | g in s.guards ensures DropAsserts(s, g) && (s.guards[g].phase.Published? ==> CommitAsserts(s, g)) {
      GuardAssertionsHold(s, g);
    }
    forall p | p in s.procs ensures ExitAsserts(s, p) { ExitAssertionHolds(s, p); }
  }

  /** A migration that passes its checks never needs its rollback arms. */
  lemma MigrationNeverRollsBack(s: State, p: ProcessId, target: Node)
    requires Inv(s) && p in s.procs && s.procs[p].Active? && !HasPending(s, p) && TasksOf(s, p) != {}
    ensures MigrateStep(s, p, target).1.Ok?
  {
  }
}
