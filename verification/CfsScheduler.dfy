/** The completely fair scheduler as it runs: a queue ordered by (virtual runtime, id) over
    task objects that are updated in place. */
module CfsScheduler {
  import opened CfsFairness
  import opened Options

  class CfsTask {
    const who: nat
    var base: int
    var delta: nat
    var nice: Nice
    var id: int

    constructor (who: nat)
      ensures Val() == Task(who, 0, 0, 0, 0)
    {
      this.who, base, delta, nice, id := who, 0, 0, 0, 0;
    }

    function Val(): Task
      reads this
    {
      Task(who, base, delta, nice, id)
    }
  }

  ghost predicate IsFirst(k: Key, keys: set<Key>) {
    k in keys && forall other :: other in keys ==> !KeyLess(other, k)
  }

  lemma {:induction false} FirstExists(keys: set<Key>)
    requires keys != {}
    ensures exists k :: IsFirst(k, keys)
    decreases |keys|
  {
    var k :| k in keys;
    var rest := keys - {k};
    if rest == {} {
      assert keys == {k};
      assert IsFirst(k, keys);
    } else {
      FirstExists(rest);
      var m :| IsFirst(m, rest);
      assert keys == rest + {k};
      assert IsFirst(if KeyLess(k, m) then k else m, keys);
    }
  }

  method FirstKey(keys: set<Key>) returns (k: Key)
    requires keys != {}
    ensures IsFirst(k, keys)
  {
    FirstExists(keys);
    k :| k in keys && forall other :: other in keys ==> !KeyLess(other, k);
  }

  /** Entries carry the ids of their tasks, no two the same, all handed out already. */
  ghost predicate Filed(queue: map<Key, Task>, pool: int) {
    && (forall k :: k in queue ==> queue[k].id == k.1 < pool)
    && (forall k, m :: k in queue && m in queue && k.1 == m.1 ==> k == m)
  }

  /** Every task is filed under the key it would compute for itself. */
  ghost predicate Agrees(queue: map<Key, Task>) {
    forall k :: k in queue ==> KeyOf(queue[k]) == k
  }

  /** A new entry agrees with its task exactly when the base carries all of its virtual time. */
  lemma FiledAtBase(queue: map<Key, Task>, pool: int, t: Task)
    requires Filed(queue, pool) && t.id == pool
    ensures
      var queue' := queue[(t.base, pool) := t];
      && Filed(queue', pool + 1)
      && (KeyOf(t) in queue' <==> Scaled(t.delta, t.nice) == 0)
      && (Agrees(queue) ==> (Agrees(queue') <==> Scaled(t.delta, t.nice) == 0))
  {
  }

  lemma FiledAtKey(queue: map<Key, Task>, pool: int, t: Task)
    requires Filed(queue, pool) && t.id == pool
    ensures Filed(queue[KeyOf(t) := t], pool + 1)
    ensures Agrees(queue) ==> Agrees(queue[KeyOf(t) := t])
  {
  }

  class CfScheduler {
    var readyQueue: map<Key, CfsTask>
    var minVruntime: Option<int>
    var idPool: int

    /** The queue with the current contents of its tasks. */
    ghost function Queue(): (queue: map<Key, Task>)
      reads this`readyQueue, readyQueue.Values
      ensures queue.Keys == readyQueue.Keys
    {
      map k | k in readyQueue :: readyQueue[k].Val()
    }

    ghost predicate Valid()
      reads this`readyQueue, this`idPool, readyQueue.Values
    {
      Filed(Queue(), idPool)
    }

    /** The cached minimum belongs to the queue as it stands. */
    ghost predicate MinIsExact()
      reads this
    {
      if readyQueue == map[] then minVruntime == None
      else exists k :: IsFirst(k, readyQueue.Keys) && minVruntime == Some(k.0)
    }

    constructor ()
      ensures Valid() && readyQueue == map[] && minVruntime == None && idPool == 0
    {
      readyQueue, minVruntime, idPool := map[], None, 0;
    }

    method RefreshMinimum()
      modifies this`minVruntime
      ensures MinIsExact()
    {
      if readyQueue == map[] {
        minVruntime := None;
      } else {
        var k := FirstKey(readyQueue.Keys);
        minVruntime := Some(k.0);
      }
    }

    /** Where a task that joins the queue starts. */
    function Start(): int
      reads this`minVruntime
    {
      if minVruntime.None? then 0 else minVruntime.value
    }

    method Insert(task: CfsTask, v: int)
      requires Valid() && task !in readyQueue.Values
      modifies this`readyQueue, this`idPool, task`base, task`id
      ensures task.Val() == old(task.Val()).(base := v, id := old(idPool))
      ensures readyQueue == old(readyQueue)[(v, old(idPool)) := task]
      ensures Queue() == old(Queue())[(v, old(idPool)) := task.Val()]
      ensures idPool == old(idPool) + 1
    {
      var taskId := idPool;
      idPool := idPool + 1;
      task.base := v;
      task.id := taskId;
      readyQueue := readyQueue[(v, taskId) := task];
      assert Queue() == old(Queue())[(v, taskId) := task.Val()];
    }

    /** The base is reset to the cached minimum but earned ticks are kept, so the new entry is
        filed under the task's own key exactly when those ticks are worth no virtual time. */
    method AddTask(task: CfsTask)
      requires Valid() && task !in readyQueue.Values
      modifies this, task
      ensures task.Val() == old(task.Val()).(base := old(Start()), id := old(idPool))
      ensures readyQueue == old(readyQueue)[(old(Start()), old(idPool)) := task]
      ensures Queue() == old(Queue())[(old(Start()), old(idPool)) := task.Val()]
      ensures Valid() && idPool == old(idPool) + 1 && MinIsExact()
      ensures KeyOf(task.Val()) in readyQueue <==> Scaled(task.delta, task.nice) == 0
      ensures old(Agrees(Queue())) ==> (Agrees(Queue()) <==> Scaled(task.delta, task.nice) == 0)
    {
      InsertFirst(task, Start());
      FiledAtBase(old(Queue()), old(idPool), task.Val());
    }

    method InsertFirst(task: CfsTask, v: int)
      requires Valid() && task !in readyQueue.Values
      modifies this, task
      ensures task.Val() == old(task.Val()).(base := v, id := old(idPool))
      ensures readyQueue == old(readyQueue)[(v, old(idPool)) := task]
      ensures Queue() == old(Queue())[(v, old(idPool)) := task.Val()]
      ensures idPool == old(idPool) + 1 && MinIsExact()
    {
      Insert(task, v);
      ghost var after := Queue();
      RefreshMinimum();
      assert Queue() == after;
    }

    method RemoveEntry(k: Key)
      requires Valid()
      modifies this`readyQueue, this`minVruntime
      ensures Valid() && MinIsExact()
      ensures readyQueue == old(readyQueue) - {k} && Queue() == old(Queue()) - {k}
    {
      readyQueue := readyQueue - {k};
      RefreshMinimum();
      assert Queue() == old(Queue()) - {k};
    }

    /** Finds the task by the key it computes now; a task filed elsewhere stays queued. */
    method RemoveTask(task: CfsTask) returns (r: Option<CfsTask>)
      requires Valid()
      modifies this`readyQueue, this`minVruntime
      ensures Valid()
      ensures KeyOf(task.Val()) in old(readyQueue) ==>
        && r == Some(old(readyQueue)[KeyOf(task.Val())]) && MinIsExact()
        && readyQueue == old(readyQueue) - {KeyOf(task.Val())}
        && Queue() == old(Queue()) - {KeyOf(task.Val())}
      ensures KeyOf(task.Val()) !in old(readyQueue) ==>
        && r == None && readyQueue == old(readyQueue) && minVruntime == old(minVruntime)
    {
      var k := KeyOf(task.Val());
      if k !in readyQueue {
        return None;
      }
      r := Some(readyQueue[k]);
      RemoveEntry(k);
    }

    /** The task with the least key leaves the queue; the cached minimum is not refreshed. */
    method PickNextTask() returns (r: Option<CfsTask>, ghost k: Key)
      requires Valid()
      modifies this`readyQueue
      ensures Valid()
      ensures old(readyQueue) == map[] ==> r == None && readyQueue == map[]
      ensures old(readyQueue) != map[] ==>
        && IsFirst(k, old(readyQueue).Keys) && r == Some(old(readyQueue)[k])
        && readyQueue == old(readyQueue) - {k} && r.value !in readyQueue.Values
        && Queue() == old(Queue()) - {k}
    {
      if readyQueue == map[] {
        return None, (0, 0);
      }
      var first := FirstKey(readyQueue.Keys);
      k := first;
      r := Some(readyQueue[first]);
      assert old(Queue())[first].id == first.1;
      readyQueue := readyQueue - {first};
      assert Queue() == old(Queue()) - {first};
    }

    /** The least key among the tasks the thief accepts. */
    method PickStealableTask(pred: nat -> bool) returns (r: Option<CfsTask>, ghost k: Key)
      requires Valid()
      modifies this`readyQueue, this`minVruntime
      ensures Valid()
      ensures r.None? ==>
        && readyQueue == old(readyQueue) && minVruntime == old(minVruntime)
        && forall m :: m in readyQueue ==> !pred(readyQueue[m].who)
      ensures r.Some? ==>
        && k in old(readyQueue) && r.value == old(readyQueue)[k] && pred(r.value.who)
        && (forall m :: m in old(readyQueue) && KeyLess(m, k) ==> !pred(old(readyQueue)[m].who))
        && readyQueue == old(readyQueue) - {k} && MinIsExact()
        && Queue() == old(Queue()) - {k}
    {
      var found := FirstAccepted(pred);
      if found.None? {
        return None, (0, 0);
      }
      k := found.value;
      r := Some(readyQueue[found.value]);
      RemoveEntry(found.value);
    }

    /** The least key whose task the thief accepts. */
    method FirstAccepted(pred: nat -> bool) returns (r: Option<Key>)
      ensures r.None? ==> forall m :: m in readyQueue ==> !pred(readyQueue[m].who)
      ensures r.Some? ==> r.value in readyQueue && pred(readyQueue[r.value].who)
      ensures r.Some? ==> forall m :: m in readyQueue && KeyLess(m, r.value) ==> !pred(readyQueue[m].who)
    {
      var candidates := set m | m in readyQueue && pred(readyQueue[m].who);
      assert forall m :: m in readyQueue && pred(readyQueue[m].who) ==> m in candidates;
      if candidates == {} {
        return None;
      }
      var first := FirstKey(candidates);
      r := Some(first);
    }

    method PutPrevTask(prev: CfsTask, preempt: bool)
      requires Valid() && prev !in readyQueue.Values
      modifies this`readyQueue, this`idPool, prev`id
      ensures prev.Val() == old(prev.Val()).(id := old(idPool))
      ensures readyQueue == old(readyQueue)[KeyOf(prev.Val()) := prev]
      ensures Queue() == old(Queue())[KeyOf(prev.Val()) := prev.Val()]
      ensures Valid() && idPool == old(idPool) + 1
    {
      var taskId := idPool;
      idPool := idPool + 1;
      prev.id := taskId;
      readyQueue := readyQueue[(Vruntime(prev.Val()), taskId) := prev];
      assert Queue() == old(Queue())[KeyOf(prev.Val()) := prev.Val()];
      FiledAtKey(old(Queue()), taskId, prev.Val());
    }

    /** One tick for the running task; reschedule when it has passed the cached minimum. */
    method TaskTick(current: CfsTask) returns (reschedule: bool)
      requires Valid() && current !in readyQueue.Values
      modifies current`delta
      ensures Valid() && Queue() == old(Queue()) && current.Val() == Ticked(old(current.Val()))
      ensures reschedule <==> readyQueue != map[] && (minVruntime.None? || Vruntime(current.Val()) > minVruntime.value)
    {
      current.delta := current.delta + 1;
      assert Queue() == old(Queue());
      if readyQueue == map[] {
        return false;
      }
      reschedule := minVruntime.None? || Vruntime(current.Val()) > minVruntime.value;
    }

    /** Works on queued tasks too: the key does not move, so the queue stays in order. */
    method SetPriority(task: CfsTask, prio: int) returns (ok: bool)
      requires Valid()
      modifies task
      ensures Valid() && (old(Agrees(Queue())) ==> Agrees(Queue()))
      ensures ok <==> -20 <= prio <= 19
      ensures if ok then task.Val() == Reprioritized(old(task.Val()), prio) else task.Val() == old(task.Val())
    {
      if prio < -20 || 19 < prio {
        return false;
      }
      PriorityKeepsKey(task.Val(), prio);
      var v := Vruntime(task.Val());
      task.base := v;
      task.delta := 0;
      task.nice := prio;
      ok := true;
    }
  }

  // ---- The driven loop ----

  ghost predicate Held(queue: map<Key, Task>, t: Task) {
    KeyOf(t) in queue && queue[KeyOf(t)] == t
  }

  ghost predicate Listed(c: Closed, k: Key) {
    exists i :: 0 <= i < |c.tasks| && KeyOf(c.tasks[i]) == k
  }

  /** The queue holds exactly the tasks of the closed set. */
  ghost predicate Represents(queue: map<Key, Task>, c: Closed) {
    && CfsFairness.Valid(c)
    && (forall i :: 0 <= i < |c.tasks| ==> Held(queue, c.tasks[i]))
    && (forall k :: k in queue ==> Listed(c, k))
  }

  lemma FirstIsUnique(queue: map<Key, Task>, c: Closed, k: Key)
    requires Represents(queue, c) && IsFirst(k, queue.Keys)
    ensures c.tasks != [] && KeyOf(c.tasks[First(c.tasks)]) == k && queue[k] == c.tasks[First(c.tasks)]
  {
  }

  lemma OthersStayHeld(queue: map<Key, Task>, c: Closed, t: Task, i: nat)
    requires Represents(queue, c) && c.tasks != [] && t.id == c.pool
    requires i < |c.tasks| && i != First(c.tasks)
    ensures Held((queue - {KeyOf(c.tasks[First(c.tasks)])})[KeyOf(t) := t], c.tasks[i])
  {
    var f := First(c.tasks);
    assert Held(queue, c.tasks[i]);
    assert c.tasks[i].id != c.tasks[f].id && c.tasks[i].id < c.pool;
  }

  /** The first task comes back as `t`, under a fresh id. */
  lemma PutBackRepresents(queue: map<Key, Task>, c: Closed, t: Task)
    requires Represents(queue, c) && c.tasks != [] && t.id == c.pool
    ensures Represents((queue - {KeyOf(c.tasks[First(c.tasks)])})[KeyOf(t) := t],
      Closed(c.tasks[First(c.tasks) := t], c.pool + 1))
  {
    var f := First(c.tasks);
    var c' := Closed(c.tasks[f := t], c.pool + 1);
    var queue' := (queue - {KeyOf(c.tasks[f])})[KeyOf(t) := t];
    forall i | 0 <= i < |c'.tasks| ensures Held(queue', c'.tasks[i]) {
      if i != f { OthersStayHeld(queue, c, t, i); }
    }
    forall k | k in queue' ensures Listed(c', k) { OthersStayListed(queue, c, t, k); }
    PutBackKeepsValid(c, t);
  }

  lemma PutBackKeepsValid(c: Closed, t: Task)
    requires CfsFairness.Valid(c) && c.tasks != [] && t.id == c.pool
    ensures CfsFairness.Valid(Closed(c.tasks[First(c.tasks) := t], c.pool + 1))
  {
  }

  lemma OthersStayListed(queue: map<Key, Task>, c: Closed, t: Task, k: Key)
    requires c.tasks != [] && (k in queue ==> Listed(c, k))
    requires k in (queue - {KeyOf(c.tasks[First(c.tasks)])})[KeyOf(t) := t]
    ensures Listed(Closed(c.tasks[First(c.tasks) := t], c.pool + 1), k)
  {
    var f := First(c.tasks);
    var c' := Closed(c.tasks[f := t], c.pool + 1);
    if k == KeyOf(t) {
      assert KeyOf(c'.tasks[f]) == k;
    } else {
      var i :| 0 <= i < |c.tasks| && KeyOf(c.tasks[i]) == k;
      assert KeyOf(c'.tasks[i]) == k;
    }
  }

  lemma PickedRound(queue: map<Key, Task>, c: Closed, k: Key, t: Task)
    requires Represents(queue, c) && IsFirst(k, queue.Keys) && t == Ticked(queue[k]).(id := c.pool)
    ensures c.tasks != [] && Represents((queue - {k})[KeyOf(t) := t], Round(c))
  {
    FirstIsUnique(queue, c, k);
    PutBackRepresents(queue, c, t);
  }

  method TickAndPutBack(s: CfScheduler, current: CfsTask)
    requires s.Valid() && current !in s.readyQueue.Values
    modifies s`readyQueue, s`idPool, current
    ensures s.Valid() && s.idPool == old(s.idPool) + 1
    ensures current.Val() == Ticked(old(current.Val())).(id := old(s.idPool))
    ensures s.Queue() == old(s.Queue())[KeyOf(current.Val()) := current.Val()]
  {
    var _ := s.TaskTick(current);
    s.PutPrevTask(current, false);
  }

  /** Pick, one tick, put back: the object takes exactly one round of the closed model, so the
      spread and waiting bounds proved there hold of the running scheduler. */
  method DriveRound(s: CfScheduler, ghost c: Closed)
    requires s.Valid() && Represents(s.Queue(), c) && c.tasks != [] && s.idPool == c.pool
    modifies s, s.readyQueue.Values
    ensures s.Valid() && Represents(s.Queue(), Round(c)) && s.idPool == Round(c).pool
  {
    assert Held(s.Queue(), c.tasks[0]);
    ghost var before := s.Queue();
    var next, k := s.PickNextTask();
    TickAndPutBack(s, next.value);
    PickedRound(before, c, k, next.value.Val());
  }

  // ---- From an empty scheduler ----

  /** The queue holds a set of fresh tasks, and joining tasks start at zero. */
  ghost predicate HoldsFresh(s: CfScheduler, c: Closed)
    reads s, s.readyQueue.Values
  {
    s.Valid() && Represents(s.Queue(), c) && Fresh(c) && s.idPool == c.pool && s.Start() == 0
  }

  lemma JoinedRepresents(queue: map<Key, Task>, c: Closed, t: Task)
    requires Represents(queue, c) && Fresh(c) && t.base == 0 && t.delta == 0 && t.id == c.pool
    ensures
      var c' := Closed(c.tasks + [t], c.pool + 1);
      Represents(queue[KeyOf(t) := t], c') && Fresh(c')
  {
    var c', queue' := Closed(c.tasks + [t], c.pool + 1), queue[KeyOf(t) := t];
    forall i | 0 <= i < |c'.tasks| ensures Held(queue', c'.tasks[i]) {
      if i < |c.tasks| {
        assert Held(queue, c.tasks[i]);
        assert c.tasks[i].id < c.pool;
      }
    }
    forall k | k in queue' ensures Listed(c', k) {
      if k == KeyOf(t) {
        assert KeyOf(c'.tasks[|c.tasks|]) == k;
      } else {
        assert Listed(c, k);
        var i :| 0 <= i < |c.tasks| && KeyOf(c.tasks[i]) == k;
        assert KeyOf(c'.tasks[i]) == k;
      }
    }
  }

  lemma FreshKeysAreZero(queue: map<Key, Task>, c: Closed)
    requires Represents(queue, c) && Fresh(c)
    ensures AllAtZero(queue)
  {
    forall k | k in queue ensures k.0 == 0 {
      assert Listed(c, k);
      var i :| 0 <= i < |c.tasks| && KeyOf(c.tasks[i]) == k;
      StartsAtZero(c.tasks[i]);
    }
  }

  lemma StartsAtZero(t: Task)
    requires t.base == 0 && t.delta == 0
    ensures KeyOf(t) == (0, t.id)
  {
    ScaledIsFloor(0, t.nice);
  }

  ghost predicate AllAtZero(queue: map<Key, Task>) {
    forall k :: k in queue ==> k.0 == 0
  }

  method AddAtZero(s: CfScheduler, task: CfsTask)
    requires s.Valid() && task !in s.readyQueue.Values && s.Start() == 0 && AllAtZero(s.Queue())
    modifies s, task
    ensures s.Valid() && s.idPool == old(s.idPool) + 1 && s.minVruntime == Some(0)
    ensures task.Val() == old(task.Val()).(base := 0, id := old(s.idPool))
    ensures s.Queue() == old(s.Queue())[(0, old(s.idPool)) := task.Val()]
    ensures s.readyQueue == old(s.readyQueue)[(0, old(s.idPool)) := task]
  {
    ghost var key := (0, s.idPool);
    s.AddTask(task);
    assert key in s.readyQueue;
    MinimumIsZero(s);
  }

  /** A new task joins the others at zero. */
  method AddFresh(s: CfScheduler, task: CfsTask, ghost c: Closed)
    requires HoldsFresh(s, c) && task !in s.readyQueue.Values && task.base == 0 && task.delta == 0
    modifies s, task
    ensures HoldsFresh(s, Closed(c.tasks + [task.Val()], c.pool + 1))
    ensures s.readyQueue == old(s.readyQueue)[(0, c.pool) := task] && s.minVruntime == Some(0)
  {
    ghost var before := s.Queue();
    FreshKeysAreZero(before, c);
    AddAtZero(s, task);
    JoinsAtZero(before, c, task.Val());
  }

  lemma JoinsAtZero(queue: map<Key, Task>, c: Closed, t: Task)
    requires Represents(queue, c) && Fresh(c) && t.base == 0 && t.delta == 0 && t.id == c.pool
    ensures KeyOf(t) == (0, c.pool)
    ensures
      var c', queue' := Closed(c.tasks + [t], c.pool + 1), queue[(0, c.pool) := t];
      Represents(queue', c') && Fresh(c')
  {
    StartsAtZero(t);
    JoinedRepresents(queue, c, t);
  }

  lemma MinimumIsZero(s: CfScheduler)
    requires s.MinIsExact() && s.readyQueue != map[] && AllAtZero(s.Queue())
    ensures s.minVruntime == Some(0)
  {
    var k :| IsFirst(k, s.readyQueue.Keys) && s.minVruntime == Some(k.0);
    assert k in s.Queue();
  }

  method AddNew(s: CfScheduler, who: nat, ghost c: Closed) returns (ghost c': Closed)
    requires HoldsFresh(s, c)
    modifies s
    ensures HoldsFresh(s, c') && |c'.tasks| == |c.tasks| + 1 && s.minVruntime == Some(0)
    ensures fresh(s.readyQueue.Values - old(s.readyQueue.Values))
  {
    var task := new CfsTask(who);
    AddFresh(s, task, c);
    c' := Closed(c.tasks + [task.Val()], c.pool + 1);
  }

  /** A new scheduler filled with new tasks holds a fresh set, so the bounds hold from its start. */
  method Fill(n: nat) returns (s: CfScheduler, ghost c: Closed)
    ensures fresh(s) && fresh(s.readyQueue.Values) && HoldsFresh(s, c) && |c.tasks| == n
    ensures n > 0 ==> s.minVruntime == Some(0)
  {
    s := new CfScheduler();
    c := Closed([], 0);
    for i := 0 to n
      invariant fresh(s) && fresh(s.readyQueue.Values) && HoldsFresh(s, c) && |c.tasks| == i
      invariant i > 0 ==> s.minVruntime == Some(0)
    {
      c := AddNew(s, i, c);
    }
  }

  // ---- Priorities and stints ----

  lemma ChangedRepresents(queue: map<Key, Task>, c: Closed, j: nat, nice: Nice)
    requires Represents(queue, c) && j < |c.tasks|
    ensures
      var t := Reprioritized(c.tasks[j], nice);
      Represents(queue[KeyOf(c.tasks[j]) := t], Next(c, Event.SetPriority(j, nice)))
  {
    var t, c' := Reprioritized(c.tasks[j], nice), Next(c, Event.SetPriority(j, nice));
    var queue' := queue[KeyOf(c.tasks[j]) := t];
    PriorityKeepsKey(c.tasks[j], nice);
    forall i | 0 <= i < |c'.tasks| ensures Held(queue', c'.tasks[i]) {
      assert Held(queue, c.tasks[i]);
      assert i != j ==> c.tasks[i].id != c.tasks[j].id;
    }
    forall k | k in queue' ensures Listed(c', k) {
      assert Held(queue, c.tasks[j]);
      assert Listed(c, k);
      var i :| 0 <= i < |c.tasks| && KeyOf(c.tasks[i]) == k;
      assert KeyOf(c'.tasks[i]) == k;
    }
  }

  /** Changing the priority of a queued task is that event of the closed model. */
  method DriveSetPriority(s: CfScheduler, task: CfsTask, prio: int, ghost c: Closed, ghost j: nat)
    requires s.Valid() && Represents(s.Queue(), c) && j < |c.tasks| && -20 <= prio <= 19
    requires KeyOf(c.tasks[j]) in s.readyQueue && s.readyQueue[KeyOf(c.tasks[j])] == task
    modifies task
    ensures s.Valid() && Represents(s.Queue(), Next(c, Event.SetPriority(j, prio)))
  {
    assert Held(s.Queue(), c.tasks[j]);
    ChangedRepresents(s.Queue(), c, j, prio);
    SetQueuedPriority(s, task, prio, KeyOf(c.tasks[j]));
  }

  method SetQueuedPriority(s: CfScheduler, task: CfsTask, prio: int, ghost k: Key)
    requires s.Valid() && k in s.readyQueue && s.readyQueue[k] == task && -20 <= prio <= 19
    modifies task
    ensures s.Valid() && s.Queue() == old(s.Queue())[k := Reprioritized(old(s.Queue())[k], prio)]
  {
    SoleEntry(s, k);
    var _ := s.SetPriority(task, prio);
    assert s.Queue() == old(s.Queue())[k := task.Val()];
  }

  /** No other entry shares the task. */
  lemma SoleEntry(s: CfScheduler, k: Key)
    requires s.Valid() && k in s.readyQueue
    ensures forall m :: m in s.readyQueue && m != k ==> s.readyQueue[m] != s.readyQueue[k]
  {
    forall m | m in s.readyQueue && m != k ensures s.readyQueue[m] != s.readyQueue[k] {
      assert s.Queue()[m].id == m.1 && s.Queue()[k].id == k.1;
    }
  }

  lemma StintRepresents(queue: map<Key, Task>, c: Closed, k: Key, n: nat, t: Task)
    requires Represents(queue, c) && IsFirst(k, queue.Keys) && t == Advanced(queue[k], n).(id := c.pool)
    ensures c.tasks != [] && queue[k] == c.tasks[First(c.tasks)]
    ensures Represents((queue - {k})[KeyOf(t) := t], Stint(c, n))
  {
    FirstIsUnique(queue, c, k);
    PutBackRepresents(queue, c, t);
  }

  /** Ticks left until the virtual runtime passes `floor`. */
  /** There is a number of ticks after which a task has passed `floor`. */
  lemma TicksRunOut(t: Task, floor: int) returns (limit: int)
    ensures forall n: nat :: Vruntime(Advanced(t, n)) <= floor ==> n < limit
  {
    var w, x := Weight(t.nice), floor + 1 - t.base;
    limit := CeilDiv(x * w, 1024) - t.delta;
    forall n: nat | Vruntime(Advanced(t, n)) <= floor ensures n < limit {
      ScaledIsFloor(t.delta + n, t.nice);
      DivideBy((t.delta + n) * 1024, w, x);
      CeilDivBounds(x * w, 1024, t.delta + n);
    }
  }

  lemma NotYetOneMore(t: Task, floor: int, n: nat)
    requires NotYet(t, floor, n) && Vruntime(Advanced(t, n)) <= floor
    ensures NotYet(t, floor, n + 1)
  {
  }

  /** Tick until a reschedule is asked for, with others waiting behind a cached minimum. */
  method TickUntilAsked(s: CfScheduler, current: CfsTask, ghost floor: int) returns (ghost n: nat)
    requires s.Valid() && current !in s.readyQueue.Values && s.readyQueue != map[] && s.minVruntime == Some(floor)
    modifies current`delta
    ensures s.Valid() && s.Queue() == old(s.Queue())
    ensures current.Val() == Advanced(old(current.Val()), n) && AsksAfter(old(current.Val()), floor, n)
  {
    ghost var start := current.Val();
    ghost var limit := TicksRunOut(start, floor);
    n := 1;
    var asked := TickOnce(s, current, floor);
    while !asked
      invariant s.Valid() && s.Queue() == old(s.Queue()) && n >= 1
      invariant current.Val() == Advanced(start, n) && NotYet(start, floor, n)
      invariant asked <==> Vruntime(current.Val()) > floor
      decreases limit - n
    {
      NotYetOneMore(start, floor, n);
      asked := TickOnce(s, current, floor);
      OneTickMore(start, n);
      n := n + 1;
    }
  }

  lemma OneTickMore(t: Task, n: nat)
    ensures Ticked(Advanced(t, n)) == Advanced(t, n + 1)
  {
  }

  method TickOnce(s: CfScheduler, current: CfsTask, ghost floor: int) returns (asked: bool)
    requires s.Valid() && current !in s.readyQueue.Values && s.readyQueue != map[] && s.minVruntime == Some(floor)
    modifies current`delta
    ensures s.Valid() && s.Queue() == old(s.Queue()) && current.Val() == Ticked(old(current.Val()))
    ensures asked <==> Vruntime(current.Val()) > floor
  {
    asked := s.TaskTick(current);
  }

  /** Pick, run until asked, put back: a stint of the closed model. The cached minimum stays. */
  method DriveStint(s: CfScheduler, ghost c: Closed, ghost floor: int) returns (ghost n: nat)
    requires s.Valid() && Represents(s.Queue(), c) && |c.tasks| >= 2 && s.idPool == c.pool
    requires s.minVruntime == Some(floor)
    modifies s`readyQueue, s`idPool, s.readyQueue.Values
    ensures TurnPossible(c, floor, Runs(n))
    ensures s.Valid() && Represents(s.Queue(), Stint(c, n)) && s.idPool == Stint(c, n).pool
  {
    ghost var before := s.Queue();
    TwoAreQueued(before, c);
    ghost var k, t;
    n, k, t := PickAndRun(s, floor);
    StintRepresents(before, c, k, n, t);
  }

  method PickAndRun(s: CfScheduler, ghost floor: int) returns (ghost n: nat, ghost k: Key, ghost t: Task)
    requires s.Valid() && s.minVruntime == Some(floor) && s.Queue() != map[] && forall k :: s.Queue() - {k} != map[]
    modifies s`readyQueue, s`idPool, s.readyQueue.Values
    ensures s.Valid() && s.idPool == old(s.idPool) + 1 && IsFirst(k, old(s.Queue()).Keys)
    ensures AsksAfter(old(s.Queue())[k], floor, n) && t == Advanced(old(s.Queue())[k], n).(id := old(s.idPool))
    ensures s.Queue() == (old(s.Queue()) - {k})[KeyOf(t) := t]
  {
    var next, first := s.PickNextTask();
    assert next.value.Val() == old(s.Queue())[first];
    assert s.Queue() != map[];
    n := RunAndPutBack(s, next.value, floor);
    k, t := first, next.value.Val();
  }

  method RunAndPutBack(s: CfScheduler, current: CfsTask, ghost floor: int) returns (ghost n: nat)
    requires s.Valid() && current !in s.readyQueue.Values && s.readyQueue != map[] && s.minVruntime == Some(floor)
    modifies s`readyQueue, s`idPool, current
    ensures s.Valid() && s.idPool == old(s.idPool) + 1 && AsksAfter(old(current.Val()), floor, n)
    ensures current.Val() == Advanced(old(current.Val()), n).(id := old(s.idPool))
    ensures s.Queue() == old(s.Queue())[KeyOf(current.Val()) := current.Val()]
  {
    n := TickUntilAsked(s, current, floor);
    s.PutPrevTask(current, false);
  }

  // ---- Priority changes while the task runs ----

  method Perform(s: CfScheduler, current: CfsTask, act: Act) returns (asked: bool)
    requires s.Valid() && current !in s.readyQueue.Values && s.readyQueue != map[] && s.minVruntime.Some?
    modifies current
    ensures s.Valid() && s.Queue() == old(s.Queue()) && current.Val() == Acted(old(current.Val()), act)
    ensures asked <==> act.Beat? && Vruntime(current.Val()) > s.minVruntime.value
  {
    match act {
      case Beat => asked := s.TaskTick(current);
      case Renice(nice) =>
        var _ := s.SetPriority(current, nice);
        asked := false;
        assert s.Queue() == old(s.Queue());
    }
  }

  /** Follow the plan until a tick asks, or to its end. */
  method FollowPlan(s: CfScheduler, current: CfsTask, plan: seq<Act>, ghost floor: int)
    returns (asked: bool, ghost n: nat)
    requires s.Valid() && current !in s.readyQueue.Values && s.readyQueue != map[] && s.minVruntime == Some(floor)
    modifies current
    ensures s.Valid() && s.Queue() == old(s.Queue()) && n <= |plan|
    ensures current.Val() == Ran(old(current.Val()), plan[..n])
    ensures if asked then AsksLast(old(current.Val()), floor, plan[..n])
      else n == |plan| && Silent(old(current.Val()), floor, plan)
  {
    ghost var start := current.Val();
    var i := 0;
    while i < |plan|
      invariant i <= |plan| && s.Valid() && s.Queue() == old(s.Queue())
      invariant current.Val() == Ran(start, plan[..i]) && Silent(start, floor, plan[..i])
    {
      asked := Perform(s, current, plan[i]);
      assert plan[..i + 1][..i] == plan[..i];
      i := i + 1;
      if asked {
        n := i;
        return;
      }
    }
    assert plan[..i] == plan;
    return false, i;
  }

  lemma AsksOn(t: Task, floor: int, a: seq<Act>, b: seq<Act>)
    requires Silent(t, floor, a) && AsksLast(Ran(t, a), floor, b)
    ensures AsksLast(t, floor, a + b)
  {
    RanOn(t, floor, a, b);
    RanOn(t, floor, a, b[..|b| - 1]);
    assert (a + b)[..|a + b| - 1] == a + b[..|b| - 1];
  }

  lemma PlanThenTicks(t: Task, floor: int, plan: seq<Act>, n: nat)
    requires Silent(t, floor, plan) && AsksAfter(Ran(t, plan), floor, n)
    ensures AsksLast(t, floor, plan + Beats(n)) && Ran(t, plan + Beats(n)) == Advanced(Ran(t, plan), n)
  {
    PlainStintAsks(Ran(t, plan), floor, n);
    RanOn(t, floor, plan, Beats(n));
    AsksOn(t, floor, plan, Beats(n));
  }

  /** Whatever priorities the running task is given by the plan, it runs until a tick asks. */
  method RunUntilAsked(s: CfScheduler, current: CfsTask, plan: seq<Act>, ghost floor: int)
    returns (ghost acts: seq<Act>)
    requires s.Valid() && current !in s.readyQueue.Values && s.readyQueue != map[] && s.minVruntime == Some(floor)
    modifies current
    ensures s.Valid() && s.Queue() == old(s.Queue())
    ensures current.Val() == Ran(old(current.Val()), acts) && AsksLast(old(current.Val()), floor, acts)
  {
    ghost var start := current.Val();
    var asked; ghost var n;
    asked, n := FollowPlan(s, current, plan, floor);
    acts := plan[..n];
    if !asked {
      assert plan[..n] == plan;
      ghost var more := TickUntilAsked(s, current, floor);
      PlanThenTicks(start, floor, plan, more);
      acts := plan + Beats(more);
    }
  }

  lemma VariedRepresents(queue: map<Key, Task>, c: Closed, k: Key, acts: seq<Act>, t: Task)
    requires Represents(queue, c) && IsFirst(k, queue.Keys) && t == Ran(queue[k], acts).(id := c.pool)
    ensures c.tasks != [] && queue[k] == c.tasks[First(c.tasks)]
    ensures Represents((queue - {k})[KeyOf(t) := t], VariedStint(c, acts))
  {
    FirstIsUnique(queue, c, k);
    PutBackRepresents(queue, c, t);
  }

  /** Pick, run with changes of priority until asked, put back: such a stint of the closed model. */
  method DriveVariedStint(s: CfScheduler, plan: seq<Act>, ghost c: Closed, ghost floor: int)
    returns (ghost acts: seq<Act>)
    requires s.Valid() && Represents(s.Queue(), c) && |c.tasks| >= 2 && s.idPool == c.pool
    requires s.minVruntime == Some(floor)
    modifies s`readyQueue, s`idPool, s.readyQueue.Values
    ensures TurnPossible(c, floor, Varies(acts))
    ensures s.Valid() && Represents(s.Queue(), VariedStint(c, acts)) && s.idPool == c.pool + 1
  {
    ghost var before := s.Queue();
    TwoAreQueued(before, c);
    var next, first := s.PickNextTask();
    assert next.value.Val() == before[first];
    assert s.Queue() != map[];
    acts := RunUntilAsked(s, next.value, plan, floor);
    s.PutPrevTask(next.value, false);
    VariedRepresents(before, c, first, acts, next.value.Val());
  }

  lemma TwoAreQueued(queue: map<Key, Task>, c: Closed)
    requires Represents(queue, c) && |c.tasks| >= 2
    ensures queue != map[] && forall k :: queue - {k} != map[]
  {
    assert Held(queue, c.tasks[0]) && Held(queue, c.tasks[1]) && c.tasks[0].id != c.tasks[1].id;
    forall k ensures queue - {k} != map[] {
      assert KeyOf(c.tasks[0]) in queue - {k} || KeyOf(c.tasks[1]) in queue - {k};
    }
  }

  /** A new task alone on a new scheduler, picked and run for a tick. */
  method RunOnce() returns (s: CfScheduler, task: CfsTask)
    ensures fresh(s) && fresh(task) && s.Valid() && s.readyQueue == map[] && task.delta == 1 && task.nice == 0
  {
    s := new CfScheduler();
    task := new CfsTask(0);
    s.AddTask(task);
    assert (0, 0) in s.readyQueue;
    var next, k := s.PickNextTask();
    assert s.readyQueue == map[];
    var _ := s.TaskTick(task);
  }

  /** A task that has run and joins again is not found by its own key: it stays queued. */
  method LostAfterRejoining() returns (s: CfScheduler, task: CfsTask, r: Option<CfsTask>)
    ensures r == None && task in s.readyQueue.Values && KeyOf(task.Val()) !in s.readyQueue
  {
    s, task := RunOnce();
    ghost var key := (s.Start(), s.idPool);
    s.AddTask(task);
    assert s.readyQueue[key] == task;
    r := s.RemoveTask(task);
  }
}
