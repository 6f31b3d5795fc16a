/** Process membership and task accounting of the pids controller, as the atomic
    steps that the hierarchy ledger lock and the per-node atomics allow.

    Everything done under the ledger lock is one step. Dropping a fork guard is
    split where the code releases the lock: the ledger entry goes first, then the
    `cgroup.procs` member, then the charge of one node after the other. Removing a cgroup
    looks at its children, its members and its pins one after the other, and each look is a
    step; that the parent's list stays locked meanwhile is not modelled, which only admits
    more runs. */
module Membership {
  import opened CgroupTree
  import opened Numbers

  type ProcessId = nat
  type GuardId = nat

  datatype Outcome = Ok | Err(error: Error)
  datatype Error = ResourceBusy | LimitExceeded | NoSuchProcess | DirectoryNotEmpty

  datatype ChildKind = Process | Thread
  datatype ExitKind = LastProcessTask | OneThread

  // ---- Per-node counters ----

  const UNLIMITED: nat := U64_MAX

  type Limit = m: nat | m <= UNLIMITED

  datatype Pids = Pids(current: int, peak: int, maximum: Limit, events: int)

  const FRESH_PIDS := Pids(0, 0, UNLIMITED, 0)

  type PidsMap = map<Node, Pids>

  function At(pids: PidsMap, n: Node): Pids {
    if n in pids then pids[n] else FRESH_PIDS
  }

  predicate Refuses(p: Pids) {
    p.current >= p.maximum || p.current == UNLIMITED
  }

  /** Add `k` to every node in `nodes`, raising the high-water marks. */
  function Charge(pids: PidsMap, nodes: set<Node>, k: nat): PidsMap {
    pids + map n | n in nodes ::
      At(pids, n).(current := At(pids, n).current + k, peak := Max(At(pids, n).peak, At(pids, n).current + k))
  }

  function Uncharge(pids: PidsMap, nodes: set<Node>, k: nat): PidsMap {
    pids + map n | n in nodes :: At(pids, n).(current := At(pids, n).current - k)
  }

  /** Index of the first node on `path` whose limit refuses one more task; `|path|` if none does. */
  function FirstRefusal(pids: PidsMap, path: seq<Node>): (i: nat)
    ensures i <= |path|
    ensures forall k :: 0 <= k < i ==> !Refuses(At(pids, path[k]))
    ensures i < |path| ==> Refuses(At(pids, path[i]))
  {
    if path == [] || Refuses(At(pids, path[0])) then 0 else 1 + FirstRefusal(pids, path[1..])
  }

  /** A refused charge: counters are as before, the nodes below the refusal keep a raised
      peak, and the refusing node and its ancestors below the root count one limit event. */
  function Refused(t: Tree, pids: PidsMap, below: set<Node>, above: set<Node>): PidsMap {
    pids
    + (map n | n in below :: At(pids, n).(peak := Max(At(pids, n).peak, At(pids, n).current + 1)))
    + (map n | n in above && HasLiveParent(t, n) :: At(pids, n).(events := At(pids, n).events + 1))
  }

  // ---- State ----

  datatype Task = Task(process: ProcessId, cgroup: Node)

  /** The state owned by one process generation. */
  datatype Owner = Active(node: Node) | Exited(node: Node)

  /** Life of a fork guard. `Unlinking` has given up its ledger entry but not yet its
      `cgroup.procs` member; `Releasing(i)` has uncharged the first `i` nodes of its path. */
  datatype Phase = Prepared | Published | Committed | Unlinking | Releasing(next: nat)

  datatype Guard = Guard(cgroup: Node, task: ProcessId, process: ProcessId, kind: ChildKind, path: seq<Node>,
    phase: Phase)
  {
    predicate Uncommitted() { phase.Prepared? || phase.Published? }

    /** Does this guard, rather than the ledger, account for a charge at `n`? */
    predicate Holds(n: Node) {
      match phase
      case Prepared => n in path
      case Unlinking => n in path
      case Releasing(i) => i <= |path| && n in path[i..]
      case _ => false
    }

    /** Would dropping this guard now release a charge at `n`? */
    predicate Owes(n: Node) { Holds(n) || (phase.Published? && n in path) }

    predicate Done() { phase == Releasing(|path|) }
  }

  /** How far the removal of a cgroup has come. */
  datatype Stage = Childless | Memberless

  datatype State = State(
    tree: Tree,
    linked: set<Node>,                  // nodes present in their parent's `children`
    pins: map<Node, nat>,
    members: set<(Node, ProcessId)>,    // `cgroup.procs` of every node
    pids: PidsMap,
    tasks: map<ProcessId, Task>,        // the ledger
    pending: map<ProcessId, ProcessId>, // task -> process, for uncommitted forks
    procs: map<ProcessId, Owner>,
    guards: map<GuardId, Guard>,
    removing: map<Node, Stage>,         // removals under way
    used: set<ProcessId>)               // generations are never reused

  const INITIAL := State(RawTree(map[], {ROOT}), {}, map[], {}, map[ROOT := FRESH_PIDS], map[], map[], map[], map[],
    map[], {})

  predicate HasPending(s: State, p: ProcessId) {
    exists t :: t in s.pending && s.pending[t] == p
  }

  function TasksOf(s: State, p: ProcessId): set<ProcessId> {
    set t | t in s.tasks && s.tasks[t].process == p
  }

  predicate IsPopulated(s: State, n: Node) {
    exists m :: m in s.members && m.0 == n
  }

  predicate HasChildren(s: State, n: Node) {
    exists c :: c in s.linked && c in s.tree.parent && s.tree.parent[c] == n
  }

  // ---- Steps ----

  datatype Op =
    | Attach(pid: ProcessId)
    | BeginProcessAt(g: GuardId, target: Node, task: ProcessId)
    | BeginTask(g: GuardId, process: ProcessId, task: ProcessId, kind: ChildKind)
    | Publish(g: GuardId)
    | Commit(g: GuardId)
    | Drop(g: GuardId)          // ledger part of the destructor
    | DropMember(g: GuardId)    // member part of the destructor
    | DropRelease(g: GuardId)   // uncharge the next node
    | Migrate(process: ProcessId, target: Node)
    | Exit(process: ProcessId, task: ProcessId, exit: ExitKind)
    | Rename(process: ProcessId, task: ProcessId, newTask: ProcessId)
    | Reap(process: ProcessId)  // the membership of an exited process is dropped
    | CreateChild(under: Node, node: Node)
    | StartRemove(node: Node)   // look at the children
    | CheckMembers(node: Node)
    | FinishRemove(node: Node)  // look at the pins, and unlink
    | Reclaim(node: Node)       // the last owner of a detached node lets go
    | Pin(node: Node)
    | Unpin(node: Node)
    | SetMaximum(node: Node, maximum: Limit)

  function AttachStep(s: State, pid: ProcessId): (State, Outcome) {
    if pid in s.pending || pid in s.tasks then (s, Err(ResourceBusy))
    else
      var path := Elements(Ancestry(s.tree, ROOT));
      if (ROOT, pid) in s.members then
        (s.(pids := Uncharge(Charge(s.pids, path, 1), path, 1)), Err(ResourceBusy))
      else
        (s.(pids := Charge(s.pids, path, 1), members := s.members + {(ROOT, pid)},
            tasks := s.tasks[pid := Task(pid, ROOT)], procs := s.procs[pid := Active(ROOT)],
            used := s.used + {pid}), Ok)
  }

  function BeginAt(s: State, g: GuardId, target: Node, process: ProcessId, task: ProcessId,
        kind: ChildKind): (State, Outcome) {
    if task in s.pending || task in s.tasks then (s, Err(ResourceBusy))
    else
      var path := Ancestry(s.tree, target);
      var i := FirstRefusal(s.pids, path);
      if i < |path| then (s.(pids := Refused(s.tree, s.pids, Elements(path[..i]), Elements(path[i..]))),
        Err(LimitExceeded))
      else
        var owner := if kind.Process? then task else process;
        (s.(pids := Charge(s.pids, Elements(path), 1), pending := s.pending[task := owner],
            guards := s.guards[g := Guard(target, task, owner, kind, path, Prepared)], used := s.used + {task}), Ok)
  }

  function BeginTaskStep(s: State, g: GuardId, process: ProcessId, task: ProcessId, kind: ChildKind): (State, Outcome) {
    if process !in s.procs || s.procs[process].Exited? then (s, Err(NoSuchProcess))
    else BeginAt(s, g, s.procs[process].node, process, task, kind)
  }

  function PublishStep(s: State, g: GuardId): (State, Outcome)
    requires g in s.guards
  {
    var h := s.guards[g];
    if !h.phase.Prepared? then (s, Err(ResourceBusy))
    else if h.task !in s.pending || s.pending[h.task] != h.process || h.task in s.tasks then (s, Err(ResourceBusy))
    else if h.kind.Process? && (h.cgroup, h.task) in s.members then (s, Err(ResourceBusy))
    else
      (s.(members := if h.kind.Process? then s.members + {(h.cgroup, h.task)} else s.members,
          procs := if h.kind.Process? then s.procs[h.task := Active(h.cgroup)] else s.procs,
          tasks := s.tasks[h.task := Task(h.process, h.cgroup)],
          guards := s.guards[g := h.(phase := Published)]), Ok)
  }

  function CommitStep(s: State, g: GuardId): (State, Outcome)
    requires g in s.guards
  {
    (s.(pending := s.pending - {s.guards[g].task}, guards := s.guards[g := s.guards[g].(phase := Committed)]), Ok)
  }

  function DropStep(s: State, g: GuardId): (State, Outcome)
    requires g in s.guards
  {
    var h := s.guards[g];
    if h.phase.Prepared? then
      (s.(pending := s.pending - {h.task}, guards := s.guards[g := h.(phase := Releasing(0))]), Ok)
    else if h.phase.Published? then
      (s.(pending := s.pending - {h.task}, tasks := s.tasks - {h.task},
          procs := if h.kind.Process? then s.procs - {h.process} else s.procs,
          guards := s.guards[g := h.(phase := if h.kind.Process? then Unlinking else Releasing(0))]), Ok)
    else (s, Ok)
  }

  function DropMemberStep(s: State, g: GuardId): (State, Outcome)
    requires g in s.guards
  {
    var h := s.guards[g];
    if h.phase.Unlinking? then
      (s.(members := s.members - {(h.cgroup, h.task)}, guards := s.guards[g := h.(phase := Releasing(0))]), Ok)
    else (s, Ok)
  }

  function DropReleaseStep(s: State, g: GuardId): (State, Outcome)
    requires g in s.guards
  {
    var h := s.guards[g];
    if h.phase.Releasing? && h.phase.next < |h.path| then
      (s.(pids := Uncharge(s.pids, {h.path[h.phase.next]}, 1),
        guards := s.guards[g := h.(phase := Releasing(h.phase.next + 1))]), Ok)
    else (s, Ok)
  }

  function Moved(tasks: map<ProcessId, Task>, p: ProcessId, target: Node): map<ProcessId, Task> {
    map t | t in tasks :: if tasks[t].process == p then Task(p, target) else tasks[t]
  }

  /** Carry the charges and the membership of `p` from `home` to `target`. */
  function Relocate(s: State, p: ProcessId, home: Node, target: Node): (State, Outcome) {
    var k := |TasksOf(s, p)|;
    var gained := Elements(Ancestry(s.tree, target)) - Elements(Ancestry(s.tree, home));
    var lost := Elements(Ancestry(s.tree, home)) - Elements(Ancestry(s.tree, target));
    var charged := Charge(s.pids, gained, k);
    if (home, p) !in s.members then (s.(pids := Uncharge(charged, gained, k)), Err(NoSuchProcess))
    else if (target, p) in s.members then (s.(pids := Uncharge(charged, gained, k)), Err(ResourceBusy))
    else
      (s.(pids := Uncharge(charged, lost, k), members := s.members - {(home, p)} + {(target, p)},
          tasks := Moved(s.tasks, p, target), procs := s.procs[p := Active(target)]), Ok)
  }

  /** Some task of `p` is not where the process is. */
  predicate Scattered(s: State, p: ProcessId, home: Node) {
    exists t :: t in TasksOf(s, p) && s.tasks[t].cgroup != home
  }

  function MigrateStep(s: State, p: ProcessId, target: Node): (State, Outcome) {
    if p !in s.procs || s.procs[p].Exited? then (s, Err(NoSuchProcess))
    else
      var home := s.procs[p].node;
      if HasPending(s, p) then (s, Err(ResourceBusy))
      else if home == target then (s, if (home, p) in s.members then Ok else Err(NoSuchProcess))
      else if TasksOf(s, p) == {} then (s, Err(NoSuchProcess))
      else if Scattered(s, p, home) then (s, Err(NoSuchProcess))
      else Relocate(s, p, home, target)
  }

  function ExitStep(s: State, p: ProcessId, t: ProcessId, exit: ExitKind): (State, Outcome) {
    if p !in s.procs || s.procs[p].Exited? then (s, Ok)
    else
      var node := s.procs[p].node;
      var procs := if exit.LastProcessTask? then s.procs[p := Exited(node)] else s.procs;
      if t !in s.tasks then (s.(procs := procs), Ok)
      else if s.tasks[t] != Task(p, node) then (s, Err(NoSuchProcess))
      else if exit.LastProcessTask? && (HasPending(s, p) || TasksOf(s, p) != {t}) then (s, Err(ResourceBusy))
      else
        (s.(tasks := s.tasks - {t}, procs := procs,
            members := if exit.LastProcessTask? then s.members - {(node, p)} else s.members,
            pids := Uncharge(s.pids, Elements(Ancestry(s.tree, node)), 1)), Ok)
  }

  function RenameStep(s: State, p: ProcessId, t: ProcessId, u: ProcessId): (State, Outcome) {
    if p !in s.procs || s.procs[p].Exited? then (s, Err(NoSuchProcess))
    else if t !in s.tasks || s.tasks[t] != Task(p, s.procs[p].node) then (s, Err(NoSuchProcess))
    else if t != u && (u in s.pending || u in s.tasks) then (s, Err(ResourceBusy))
    else (s.(tasks := (s.tasks - {t})[u := s.tasks[t]], used := s.used + {u}), Ok)
  }

  function ReapStep(s: State, p: ProcessId): (State, Outcome) {
    (s.(procs := s.procs - {p}), Ok)
  }

  function CreateStep(s: State, under: Node, n: Node): (State, Outcome)
    requires IsNode(s.tree, under) && !IsNode(s.tree, n) && under < n
  {
    (s.(tree := RawTree(s.tree.parent[n := under], s.tree.alive + {n}), linked := s.linked + {n},
      pids := s.pids[n := FRESH_PIDS]), Ok)
  }

  function StartRemoveStep(s: State, n: Node): (State, Outcome) {
    if HasChildren(s, n) then (s, Err(DirectoryNotEmpty)) else (s.(removing := s.removing[n := Childless]), Ok)
  }

  function CheckMembersStep(s: State, n: Node): (State, Outcome) {
    if IsPopulated(s, n) then (s.(removing := s.removing - {n}), Err(ResourceBusy))
    else (s.(removing := s.removing[n := Memberless]), Ok)
  }

  predicate IsPinned(s: State, n: Node) {
    n in s.pins && s.pins[n] != 0
  }

  /** A prepared reservation does not keep a node in place, nor does a member or child that came
      after the look at members or children. */
  function FinishRemoveStep(s: State, n: Node): (State, Outcome) {
    if IsPinned(s, n) then (s.(removing := s.removing - {n}), Err(ResourceBusy))
    else (s.(removing := s.removing - {n}, linked := s.linked - {n}), Ok)
  }

  /** A removal that nothing comes between. */
  function RemoveAlone(s: State, n: Node): (State, Outcome) {
    var (s1, r1) := StartRemoveStep(s, n);
    if r1.Err? then (s1, r1)
    else
      var (s2, r2) := CheckMembersStep(s1, n);
      if r2.Err? then (s2, r2) else FinishRemoveStep(s2, n)
  }

  function ReclaimStep(s: State, n: Node): (State, Outcome)
    requires n != ROOT
  {
    (s.(tree := RawTree(s.tree.parent, s.tree.alive - {n}),
        linked := set c | c in s.linked && !(c in s.tree.parent && s.tree.parent[c] == n)), Ok)
  }

  predicate IsForkOp(op: Op) { op.Attach? || op.BeginProcessAt? || op.BeginTask? }
  predicate IsGuardOp(op: Op) { op.Publish? || op.Commit? || op.Drop? || op.DropMember? || op.DropRelease? }
  predicate IsTaskOp(op: Op) { op.Migrate? || op.Exit? || op.Rename? || op.Reap? }
  predicate IsRemoval(op: Op) { op.StartRemove? || op.CheckMembers? || op.FinishRemove? }
  predicate IsTreeOp(op: Op) { op.CreateChild? || op.Reclaim? || op.Pin? || op.Unpin? || op.SetMaximum? }

  function ForkStep(s: State, op: Op): (State, Outcome)
    requires IsForkOp(op)
  {
    if op.Attach? then AttachStep(s, op.pid)
    else if op.BeginProcessAt? then BeginAt(s, op.g, op.target, op.task, op.task, Process)
    else BeginTaskStep(s, op.g, op.process, op.task, op.kind)
  }

  function GuardStep(s: State, op: Op): (State, Outcome)
    requires IsGuardOp(op) && GuardLegal(s, op)
  {
    if op.Publish? then PublishStep(s, op.g)
    else if op.Commit? then CommitStep(s, op.g)
    else if op.Drop? then DropStep(s, op.g)
    else if op.DropMember? then DropMemberStep(s, op.g)
    else DropReleaseStep(s, op.g)
  }

  function TaskStep(s: State, op: Op): (State, Outcome)
    requires IsTaskOp(op)
  {
    if op.Migrate? then MigrateStep(s, op.process, op.target)
    else if op.Exit? then ExitStep(s, op.process, op.task, op.exit)
    else if op.Rename? then RenameStep(s, op.process, op.task, op.newTask)
    else ReapStep(s, op.process)
  }

  function RemovalStep(s: State, op: Op): (State, Outcome)
    requires IsRemoval(op)
  {
    if op.StartRemove? then StartRemoveStep(s, op.node)
    else if op.CheckMembers? then CheckMembersStep(s, op.node)
    else FinishRemoveStep(s, op.node)
  }

  function TreeStep(s: State, op: Op): (State, Outcome)
    requires IsTreeOp(op) && TreeLegal(s, op)
  {
    if op.CreateChild? then CreateStep(s, op.under, op.node)
    else if op.Reclaim? then ReclaimStep(s, op.node)
    else if op.Pin? then (s.(pins := s.pins[op.node := (if op.node in s.pins then s.pins[op.node] else 0) + 1]), Ok)
    else if op.Unpin? then (s.(pins := s.pins[op.node := s.pins[op.node] - 1]), Ok)
    else (s.(pids := s.pids[op.node := At(s.pids, op.node).(maximum := op.maximum)]), Ok)
  }

  function Step(s: State, op: Op): (State, Outcome)
    requires Legal(s, op)
  {
    if IsForkOp(op) then ForkStep(s, op)
    else if IsGuardOp(op) then GuardStep(s, op)
    else if IsTaskOp(op) then TaskStep(s, op)
    else if IsRemoval(op) then RemovalStep(s, op)
    else TreeStep(s, op)
  }

  /** Some committed task of `p` can issue a system call. */
  predicate CanRun(s: State, p: ProcessId) {
    exists t :: t in s.tasks && t !in s.pending && s.tasks[t].process == p
  }

  /** Nobody owns `n`: it is off its parent's list, unpinned and not referenced by a task,
      a guard that still exists, or a process. */
  predicate Unowned(s: State, n: Node) {
    && n !in s.linked
    && (n in s.pins ==> s.pins[n] == 0)
    && (forall t :: t in s.tasks ==> s.tasks[t].cgroup != n)
    && (forall p :: p in s.procs ==> s.procs[p].node != n)
    && (forall g :: g in s.guards && !s.guards[g].phase.Committed? && !s.guards[g].Done() ==> n !in s.guards[g].path)
  }

  /** What the callers owe. Generations are fresh; only a running process forks; a task that
      is not committed yet does not run, so it neither exits nor renames itself; a final exit
      names a task of the ledger; handles passed in keep their node alive. */
  predicate Legal(s: State, op: Op) {
    if IsForkOp(op) then ForkLegal(s, op)
    else if IsGuardOp(op) then GuardLegal(s, op)
    else if IsTaskOp(op) then TaskLegal(s, op)
    else if IsRemoval(op) then RemovalLegal(s, op)
    else TreeLegal(s, op)
  }

  predicate ForkLegal(s: State, op: Op)
    requires IsForkOp(op)
  {
    if op.Attach? then op.pid !in s.used
    else
      && op.g !in s.guards && op.task !in s.used
      && if op.BeginTask? then CanRun(s, op.process) else op.target in s.tree.alive
  }

  predicate GuardLegal(s: State, op: Op)
    requires IsGuardOp(op)
  {
    op.g in s.guards && (op.Commit? ==> s.guards[op.g].phase.Published?)
  }

  predicate TaskLegal(s: State, op: Op)
    requires IsTaskOp(op)
  {
    if op.Migrate? then op.target in s.tree.alive
    else if op.Reap? then op.process in s.procs && s.procs[op.process].Exited?
    else op.task !in s.pending && (op.Exit? && op.exit.LastProcessTask? ==> op.task in s.tasks)
  }

  predicate RemovalLegal(s: State, op: Op)
    requires IsRemoval(op)
  {
    if op.StartRemove? then op.node in s.linked
    else op.node in s.removing && s.removing[op.node] == if op.CheckMembers? then Childless else Memberless
  }

  predicate TreeLegal(s: State, op: Op)
    requires IsTreeOp(op)
  {
    if op.CreateChild? then op.under in s.tree.alive && !IsNode(s.tree, op.node) && op.under < op.node
    else if op.Reclaim? then op.node in s.tree.alive && op.node != ROOT && Unowned(s, op.node)
    else if op.Unpin? then op.node in s.pins && s.pins[op.node] > 0
    else op.node in s.tree.alive
  }
}
