/** Round-robin scheduling with time slices, and how long a queued task can wait. */
module RoundRobin {

  import opened Options

  datatype Task = Task(who: nat, slice: int)

  /** A task that used up its slice, or gave way, goes to the back with a full one. */
  function PutBack(queue: seq<Task>, t: Task, preempt: bool, max: nat): seq<Task> {
    if t.slice > 0 && preempt then [t] + queue else queue + [t.(slice := max)]
  }

  // ---- One processor and its queue ----

  datatype Cpu = Cpu(queue: seq<Task>, current: Option<Task>)

  datatype Event =
    | Arrive(task: Task)
    | Leave(index: nat)     // stolen by another processor, or removed
    | Tick
    | Preempt
    | Yield
    | Block

  /** An idle processor takes the front of the queue. */
  function Dispatch(queue: seq<Task>): Cpu {
    if queue == [] then Cpu([], None) else Cpu(queue[1..], Some(queue[0]))
  }

  function Reschedule(c: Cpu, preempt: bool, max: nat): Cpu
    requires c.current.Some?
  {
    Dispatch(PutBack(c.queue, c.current.value, preempt, max))
  }

  function Ticked(t: Task): Task { t.(slice := t.slice - 1) }

  /** The tick asks for a new choice once the slice is used up, and the caller makes it. */
  function AfterTick(c: Cpu, max: nat): Cpu {
    if c.current.None? then c
    else
      var t := c.current.value;
      var ticked := c.(current := Some(Ticked(t)));
      if t.slice <= 1 then Reschedule(ticked, true, max) else ticked
  }

  predicate Possible(c: Cpu, e: Event, max: nat) {
    match e
    case Arrive(t) => t.slice <= max
    case Leave(i) => i < |c.queue|
    case _ => true
  }

  function Next(c: Cpu, e: Event, max: nat): Cpu
    requires Possible(c, e, max)
  {
    match e
    case Arrive(t) => if c.current.None? then Dispatch(c.queue + [t]) else c.(queue := c.queue + [t])
    case Leave(i) => c.(queue := c.queue[..i] + c.queue[i + 1..])
    case Tick => AfterTick(c, max)
    case Preempt => if c.current.None? then c else Reschedule(c, true, max)
    case Yield => if c.current.None? then c else Reschedule(c, false, max)
    case Block => Dispatch(c.queue)
  }

  // ---- Waiting ----

  ghost predicate Queued(queue: seq<Task>, who: nat) {
    exists i :: 0 <= i < |queue| && queue[i].who == who
  }

  ghost predicate Waiting(c: Cpu, who: nat) {
    c.current.Some? && c.current.value.who != who && Queued(c.queue, who)
  }

  /** A run on which `who` is queued and not running before every event and after the last,
      while others come and go. */
  ghost predicate WaitsThrough(c: Cpu, events: seq<Event>, who: nat, max: nat)
    decreases |events|
  {
    Waiting(c, who) && (events != [] ==>
      && Possible(c, events[0], max)
      && (events[0].Leave? ==> c.queue[events[0].index].who != who)
      && WaitsThrough(Next(c, events[0], max), events[1..], who, max))
  }

  function Ticks(events: seq<Event>): nat {
    if events == [] then 0 else (if events[0].Tick? then 1 else 0) + Ticks(events[1..])
  }

  ghost predicate Bounded(c: Cpu, max: nat) {
    (c.current.Some? ==> c.current.value.slice <= max) && SlicesBounded(c.queue, max)
  }

  ghost predicate SlicesBounded(queue: seq<Task>, max: nat) {
    forall i :: 0 <= i < |queue| ==> queue[i].slice <= max
  }

  /** Ticks a task can run before it is asked to give way. */
  function Cost(t: Task): (n: nat)
    ensures n >= 1
  {
    if t.slice > 1 then t.slice else 1
  }

  /** Ticks the tasks in front of `who` can take. */
  function Ahead(queue: seq<Task>, who: nat): nat {
    if queue == [] || queue[0].who == who then 0 else Cost(queue[0]) + Ahead(queue[1..], who)
  }

  ghost function Remaining(c: Cpu, who: nat): nat {
    (if c.current.Some? then Cost(c.current.value) else 0) + Ahead(c.queue, who)
  }

  lemma {:induction false} AheadOfExtended(queue: seq<Task>, more: seq<Task>, who: nat)
    requires Queued(queue, who)
    ensures Ahead(queue + more, who) == Ahead(queue, who)
  {
    if queue[0].who != who {
      assert Queued(queue[1..], who) by {
        var i :| 0 <= i < |queue| && queue[i].who == who;
        assert queue[1..][i - 1].who == who;
      }
      assert (queue + more)[1..] == queue[1..] + more;
      AheadOfExtended(queue[1..], more, who);
    }
  }

  lemma {:induction false} AheadAfterLeave(queue: seq<Task>, i: nat, who: nat)
    requires i < |queue| && Queued(queue[..i] + queue[i + 1..], who)
    requires queue[i].who != who
    ensures Ahead(queue[..i] + queue[i + 1..], who) <= Ahead(queue, who)
  {
    var rest := queue[..i] + queue[i + 1..];
    if i == 0 {
      assert rest == queue[1..];
    } else if queue[0].who != who {
      var tail := queue[1..];
      assert rest[1..] == tail[..i - 1] + tail[i..];
      assert Queued(rest[1..], who) by {
        var j :| 0 <= j < |rest| && rest[j].who == who;
        assert rest[1..][j - 1].who == who;
      }
      AheadAfterLeave(tail, i - 1, who);
    }
  }

  lemma {:induction false} AheadIsBounded(queue: seq<Task>, k: nat, max: nat)
    requires k < |queue| && max >= 1
    requires forall i :: 0 <= i < |queue| ==> queue[i].slice <= max
    ensures Ahead(queue, queue[k].who) <= k * max
  {
    if k > 0 {
      assert queue[1..][k - 1] == queue[k];
      AheadIsBounded(queue[1..], k - 1, max);
      assert k * max == (k - 1) * max + max;
    }
  }

  /** Passing the processor on pays for the task that leaves it. */
  lemma DispatchPays(queue: seq<Task>, more: seq<Task>, who: nat)
    requires Queued(queue, who) && Waiting(Dispatch(queue + more), who)
    ensures Remaining(Dispatch(queue + more), who) == Ahead(queue, who)
  {
    AheadOfExtended(queue, more, who);
  }

  lemma ReschedulePays(c: Cpu, preempt: bool, max: nat, who: nat)
    requires c.current.Some? && Queued(c.queue, who) && Waiting(Reschedule(c, preempt, max), who)
    ensures Remaining(Reschedule(c, preempt, max), who) <= Remaining(c, who)
    ensures !(c.current.value.slice > 0 && preempt) ==>
      Remaining(Reschedule(c, preempt, max), who) <= Remaining(c, who) - Cost(c.current.value)
  {
    var t := c.current.value;
    if t.slice > 0 && preempt {
      assert ([t] + c.queue)[1..] == c.queue;
    } else {
      DispatchPays(c.queue, [t.(slice := max)], who);
    }
  }

  lemma TickPays(c: Cpu, max: nat, who: nat)
    requires Waiting(c, who) && Waiting(AfterTick(c, max), who)
    ensures Remaining(AfterTick(c, max), who) < Remaining(c, who)
  {
    var t := c.current.value;
    if t.slice <= 1 {
      ReschedulePays(c.(current := Some(Ticked(t))), true, max, who);
    }
  }

  /** No event lengthens the wait, and every tick shortens it. */
  lemma EventPays(c: Cpu, e: Event, max: nat, who: nat)
    requires Possible(c, e, max) && Waiting(c, who) && Waiting(Next(c, e, max), who)
    requires e.Leave? ==> c.queue[e.index].who != who
    ensures Remaining(Next(c, e, max), who) + (if e.Tick? then 1 else 0) <= Remaining(c, who)
  {
    match e {
      case Arrive(t) => AheadOfExtended(c.queue, [t], who);
      case Leave(i) => AheadAfterLeave(c.queue, i, who);
      case Tick => TickPays(c, max, who);
      case Preempt => ReschedulePays(c, true, max, who);
      case Yield => ReschedulePays(c, false, max, who);
      case Block => assert c.queue + [] == c.queue; DispatchPays(c.queue, [], who);
    }
  }

  lemma {:induction false} RunPays(c: Cpu, events: seq<Event>, max: nat, who: nat)
    requires WaitsThrough(c, events, who, max)
    ensures Ticks(events) < Remaining(c, who)
    decreases |events|
  {
    if events != [] {
      EventPays(c, events[0], max, who);
      RunPays(Next(c, events[0], max), events[1..], max, who);
    }
  }

  /** A task at index k has run by tick (k + 1) * max, whatever arrives, leaves, blocks, yields
      or is preempted meanwhile. */
  lemma BoundedWaiting(c: Cpu, k: nat, events: seq<Event>, max: nat)
    requires max >= 1 && Bounded(c, max) && k < |c.queue|
    requires WaitsThrough(c, events, c.queue[k].who, max)
    ensures Ticks(events) < (k + 1) * max
  {
    RunPays(c, events, max, c.queue[k].who);
    AheadIsBounded(c.queue, k, max);
    assert (k + 1) * max == k * max + max;
  }

  lemma DispatchBounded(queue: seq<Task>, max: nat)
    requires SlicesBounded(queue, max)
    ensures Bounded(Dispatch(queue), max)
  {
  }

  lemma RescheduleBounded(c: Cpu, preempt: bool, max: nat)
    requires c.current.Some? && Bounded(c, max)
    ensures Bounded(Reschedule(c, preempt, max), max)
  {
    DispatchBounded(PutBack(c.queue, c.current.value, preempt, max), max);
  }

  lemma TickBounded(c: Cpu, max: nat)
    requires Bounded(c, max)
    ensures Bounded(AfterTick(c, max), max)
  {
    if c.current.Some? {
      var ticked := c.(current := Some(Ticked(c.current.value)));
      assert Bounded(ticked, max);
      RescheduleBounded(ticked, true, max);
    }
  }

  lemma EventKeepsBounded(c: Cpu, e: Event, max: nat)
    requires Possible(c, e, max) && Bounded(c, max)
    ensures Bounded(Next(c, e, max), max)
  {
    match e {
      case Arrive(t) => DispatchBounded(c.queue + [t], max);
      case Leave(i) =>
      case Tick => TickBounded(c, max);
      case Preempt => if c.current.Some? { RescheduleBounded(c, true, max); }
      case Yield => if c.current.Some? { RescheduleBounded(c, false, max); }
      case Block => DispatchBounded(c.queue, max);
    }
  }

  // ---- The scheduler object ----

  class RrTask {
    const who: nat
    var slice: int

    constructor (who: nat, max: nat)
      ensures Val() == Task(who, max)
    {
      this.who, slice := who, max;
    }

    function Val(): Task
      reads this
    {
      Task(who, slice)
    }
  }

  function Vals(tasks: seq<RrTask>): (vals: seq<Task>)
    reads tasks
  {
    seq(|tasks|, i requires 0 <= i < |tasks| reads tasks => tasks[i].Val())
  }

  class RrScheduler {
    const max: nat
    var readyQueue: seq<RrTask>

    constructor (max: nat)
      ensures this.max == max && readyQueue == []
    {
      this.max, readyQueue := max, [];
    }

    ghost function Queue(): seq<Task>
      reads this, readyQueue
    {
      Vals(readyQueue)
    }

    method AddTask(task: RrTask)
      modifies this
      ensures readyQueue == old(readyQueue) + [task] && Queue() == old(Queue()) + [task.Val()]
    {
      readyQueue := readyQueue + [task];
    }

    /** Cuts the task out wherever it is queued. */
    method RemoveTask(task: RrTask) returns (r: Option<RrTask>)
      modifies this
      ensures task in old(readyQueue) ==> r == Some(task) && exists i ::
        && 0 <= i < |old(readyQueue)| && old(readyQueue)[i] == task
        && readyQueue == old(readyQueue)[..i] + old(readyQueue)[i + 1..]
      ensures task !in old(readyQueue) ==> r == None && readyQueue == old(readyQueue)
    {
      for i := 0 to |readyQueue|
        invariant readyQueue == old(readyQueue) && task !in readyQueue[..i]
      {
        if readyQueue[i] == task {
          readyQueue := readyQueue[..i] + readyQueue[i + 1..];
          return Some(task);
        }
      }
      return None;
    }

    method PickNextTask() returns (r: Option<RrTask>)
      modifies this
      ensures Dispatch(old(Queue())) == Cpu(Queue(), if r.None? then None else Some(r.value.Val()))
      ensures r.Some? ==> old(readyQueue) == [r.value] + readyQueue
    {
      if readyQueue == [] {
        return None;
      }
      r := Some(readyQueue[0]);
      readyQueue := readyQueue[1..];
    }

    method PutPrevTask(prev: RrTask, preempt: bool)
      requires prev !in readyQueue
      modifies this, prev
      ensures Queue() == PutBack(old(Queue()), old(prev.Val()), preempt, max)
      ensures multiset(readyQueue) == multiset(old(readyQueue)) + multiset{prev}
    {
      if prev.slice > 0 && preempt {
        readyQueue := [prev] + readyQueue;
      } else {
        prev.slice := max;
        readyQueue := readyQueue + [prev];
      }
    }

    method TaskTick(current: RrTask) returns (reschedule: bool)
      requires current !in readyQueue
      modifies current
      ensures Queue() == old(Queue()) && current.Val() == Ticked(old(current.Val()))
      ensures reschedule <==> current.slice <= 0
    {
      var oldSlice := current.slice;
      current.slice := oldSlice - 1;
      reschedule := oldSlice <= 1;
    }

    /** The first task the thief accepts, the others keeping their order. */
    method PickStealableTask(pred: nat -> bool) returns (r: Option<RrTask>)
      modifies this
      ensures r.None? ==> readyQueue == old(readyQueue) && forall t :: t in readyQueue ==> !pred(t.who)
      ensures r.Some? ==> exists i ::
        && 0 <= i < |old(readyQueue)| && old(readyQueue)[i] == r.value
        && pred(r.value.who) && (forall j :: 0 <= j < i ==> !pred(old(readyQueue)[j].who))
        && readyQueue == old(readyQueue)[..i] + old(readyQueue)[i + 1..]
    {
      var cursor := 0;
      while cursor < |readyQueue|
        invariant 0 <= cursor <= |readyQueue| && readyQueue == old(readyQueue)
        invariant forall j :: 0 <= j < cursor ==> !pred(readyQueue[j].who)
      {
        if pred(readyQueue[cursor].who) {
          r := Some(readyQueue[cursor]);
          readyQueue := readyQueue[..cursor] + readyQueue[cursor + 1..];
          return;
        }
        cursor := cursor + 1;
      }
      return None;
    }
  }

  // ---- The events on the object ----

  ghost function Running(current: Option<RrTask>): Option<Task>
    reads if current.Some? then {current.value} else {}
  {
    if current.None? then None else Some(current.value.Val())
  }

  /** Preemption and yielding on the object: put back and pick. */
  method OnReschedule(s: RrScheduler, current: RrTask, preempt: bool) returns (next: RrTask)
    requires current !in s.readyQueue
    modifies s, current
    ensures Cpu(s.Queue(), Some(next.Val())) ==
      Reschedule(Cpu(old(s.Queue()), Some(old(current.Val()))), preempt, s.max)
  {
    s.PutPrevTask(current, preempt);
    var picked := s.PickNextTask();
    next := picked.value;
  }

  /** A timer interrupt on the object: tick, and put back and pick when asked to. */
  method OnTick(s: RrScheduler, current: RrTask) returns (next: RrTask)
    requires current !in s.readyQueue
    modifies s, current
    ensures Cpu(s.Queue(), Some(next.Val())) == AfterTick(Cpu(old(s.Queue()), Some(old(current.Val()))), s.max)
  {
    var reschedule := s.TaskTick(current);
    if reschedule {
      next := OnReschedule(s, current, true);
    } else {
      next := current;
    }
  }

  /** A task arrives: an idle processor takes the front of the queue at once. */
  method OnArrive(s: RrScheduler, current: Option<RrTask>, task: RrTask) returns (next: Option<RrTask>)
    requires task.slice <= s.max
    modifies s
    ensures Cpu(s.Queue(), Running(next)) ==
      Next(Cpu(old(s.Queue()), Running(current)), Arrive(task.Val()), s.max)
  {
    s.AddTask(task);
    next := current;
    if current.None? {
      next := s.PickNextTask();
    }
  }

  /** The running task blocks. */
  method OnBlock(s: RrScheduler, current: Option<RrTask>) returns (next: Option<RrTask>)
    modifies s
    ensures Cpu(s.Queue(), Running(next)) == Next(Cpu(old(s.Queue()), Running(current)), Block, s.max)
  {
    next := s.PickNextTask();
  }

  /** A thief takes a task it accepts, or finds none. */
  method OnSteal(s: RrScheduler, current: Option<RrTask>, pred: nat -> bool) returns (r: Option<RrTask>)
    modifies s
    ensures r.None? ==> s.Queue() == old(s.Queue())
    ensures r.Some? ==> exists i: nat ::
      && i < |old(s.Queue())| && old(s.Queue())[i] == r.value.Val()
      && Cpu(s.Queue(), Running(current)) == Next(Cpu(old(s.Queue()), Running(current)), Leave(i), s.max)
  {
    var before := s.readyQueue;
    r := s.PickStealableTask(pred);
    if r.Some? {
      ghost var i: nat :| i < |before| && before[i] == r.value && s.readyQueue == before[..i] + before[i + 1..];
      assert s.Queue() == old(s.Queue())[..i] + old(s.Queue())[i + 1..];
      assert old(s.Queue())[i] == r.value.Val();
    }
  }
}
