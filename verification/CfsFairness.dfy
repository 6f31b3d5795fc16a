/** Weighted virtual runtimes and what the picking rule makes of them. */
module CfsFairness {
  import opened Numbers

  // ---- Task arithmetic ----

  const NICE_TO_WEIGHT_POS: seq<nat> := [
    1024, 820, 655, 526, 423, 335, 272, 215, 172, 137, 110, 87, 70, 56, 45, 36, 29, 23, 18, 15]

  const NICE_TO_WEIGHT_NEG: seq<nat> := [
    1024, 1277, 1586, 1991, 2501, 3121, 3906, 4904, 6100, 7620, 9548, 11916, 14949, 18705, 23254,
    29154, 36291, 46273, 56483, 71755, 88761]

  type Nice = n: int | -20 <= n <= 19

  /** `who` stands for the task's identity; `delta` counts ticks since `base` was set. */
  datatype Task = Task(who: nat, base: int, delta: nat, nice: Nice, id: int)

  function Weight(nice: Nice): (w: nat)
    ensures 15 <= w <= 88761
    ensures nice == 0 ==> w == 1024
  {
    if nice >= 0 then NICE_TO_WEIGHT_POS[nice] else NICE_TO_WEIGHT_NEG[-(nice as int)]
  }

  /** Virtual time earned by `delta` ticks. */
  function Scaled(delta: nat, nice: Nice): int {
    if nice == 0 then delta else delta * 1024 / Weight(nice)
  }

  function Vruntime(t: Task): int {
    t.base + Scaled(t.delta, t.nice)
  }

  function Ticked(t: Task): Task { t.(delta := t.delta + 1) }

  function Reprioritized(t: Task, nice: Nice): Task {
    t.(base := Vruntime(t), delta := 0, nice := nice)
  }

  type Key = (int, int)

  predicate KeyLess(a: Key, b: Key) {
    a.0 < b.0 || (a.0 == b.0 && a.1 < b.1)
  }

  function KeyOf(t: Task): Key { (Vruntime(t), t.id) }

  lemma DivideBy(a: nat, w: nat, q: int)
    requires w > 0
    ensures a / w >= q <==> a >= q * w
  {
    var d, r := a / w, a % w;
    assert a == d * w + r;
    if d >= q {
      assert d * w >= q * w;
    } else {
      assert (d + 1) * w <= q * w;
    }
  }

  /** Both branches of the virtual-time formula are one floor division. */
  lemma ScaledIsFloor(delta: nat, nice: Nice)
    ensures Scaled(delta, nice) == delta * 1024 / Weight(nice)
  {
  }

  /** A tick moves virtual time forward by at most 69, the ceiling of 1024 / 15. */
  lemma TickStep(t: Task)
    ensures Vruntime(t) <= Vruntime(Ticked(t)) <= Vruntime(t) + 69
  {
    var w := Weight(t.nice);
    ScaledIsFloor(t.delta, t.nice);
    ScaledIsFloor(t.delta + 1, t.nice);
    var a := t.delta * 1024;
    var q := a / w;
    DivideBy(a + 1024, w, q);
    DivideBy(a, w, q);
    DivideBy(a, w, q + 1);
    DivideBy(a + 1024, w, q + 70);
    assert (q + 70) * w == (q + 1) * w + 69 * w;
  }

  /** Changing the priority leaves the virtual runtime, and so the queue key, alone. */
  lemma PriorityKeepsKey(t: Task, nice: Nice)
    ensures KeyOf(Reprioritized(t, nice)) == KeyOf(t)
  {
  }

  // ---- A closed set of tasks, all queued at the loop boundary ----

  datatype Closed = Closed(tasks: seq<Task>, pool: int)

  ghost predicate Valid(c: Closed) {
    && (forall i :: 0 <= i < |c.tasks| ==> c.tasks[i].id < c.pool)
    && (forall i, j :: 0 <= i < j < |c.tasks| ==> c.tasks[i].id != c.tasks[j].id)
  }

  /** Index of the smallest key. */
  function First(tasks: seq<Task>): (i: nat)
    requires tasks != []
    ensures i < |tasks|
    ensures forall j :: 0 <= j < |tasks| ==> !KeyLess(KeyOf(tasks[j]), KeyOf(tasks[i]))
  {
    if |tasks| == 1 then 0
    else
      var i := First(tasks[..|tasks| - 1]);
      if KeyLess(KeyOf(tasks[|tasks| - 1]), KeyOf(tasks[i])) then |tasks| - 1 else i
  }

  /** Pick the first task, let it tick once, put it back under a fresh id. */
  function Round(c: Closed): Closed
    requires c.tasks != []
  {
    var i := First(c.tasks);
    Closed(c.tasks[i := Ticked(c.tasks[i]).(id := c.pool)], c.pool + 1)
  }

  datatype Event = Once | SetPriority(task: nat, nice: Nice)

  predicate Possible(c: Closed, e: Event) {
    c.tasks != [] && (e.SetPriority? ==> e.task < |c.tasks|)
  }

  function Next(c: Closed, e: Event): Closed
    requires Possible(c, e)
  {
    match e
    case Once => Round(c)
    case SetPriority(j, nice) => c.(tasks := c.tasks[j := Reprioritized(c.tasks[j], nice)])
  }

  ghost predicate IsRun(c: Closed, events: seq<Event>)
    decreases |events|
  {
    events == [] || (Possible(c, events[0]) && IsRun(Next(c, events[0]), events[1..]))
  }

  ghost function After(c: Closed, events: seq<Event>): Closed
    requires IsRun(c, events)
    decreases |events|
  {
    if events == [] then c else After(Next(c, events[0]), events[1..])
  }

  /** Tasks that were fresh when added all start at virtual time zero. */
  ghost predicate Fresh(c: Closed) {
    Valid(c) && forall i :: 0 <= i < |c.tasks| ==> c.tasks[i].base == 0 && c.tasks[i].delta == 0
  }

  // ---- Spread ----

  const SPREAD := 69

  ghost predicate Tight(c: Closed) {
    forall i, j :: 0 <= i < |c.tasks| && 0 <= j < |c.tasks| ==> Vruntime(c.tasks[i]) - Vruntime(c.tasks[j]) <= SPREAD
  }

  lemma RoundKeepsTight(c: Closed)
    requires Valid(c) && Tight(c) && c.tasks != []
    ensures Valid(Round(c)) && Tight(Round(c))
  {
    var i := First(c.tasks);
    TickStep(c.tasks[i]);
    var moved := Ticked(c.tasks[i]).(id := c.pool);
    assert Vruntime(moved) == Vruntime(Ticked(c.tasks[i]));
    forall j | 0 <= j < |c.tasks| ensures Vruntime(c.tasks[i]) <= Vruntime(c.tasks[j]) {
      assert !KeyLess(KeyOf(c.tasks[j]), KeyOf(c.tasks[i]));
    }
  }

  lemma {:induction false} RunKeepsTight(c: Closed, events: seq<Event>)
    requires Valid(c) && Tight(c) && IsRun(c, events)
    ensures Valid(After(c, events)) && Tight(After(c, events))
    decreases |events|
  {
    if events != [] {
      match events[0] {
        case Once => RoundKeepsTight(c);
        case SetPriority(j, nice) => PriorityKeepsKey(c.tasks[j], nice);
      }
      RunKeepsTight(Next(c, events[0]), events[1..]);
    }
  }

  /** In a closed set of fresh tasks virtual runtimes never drift further apart than 69, at any
      loop boundary and whatever the priorities do. */
  lemma SpreadBound(c: Closed, events: seq<Event>, i: nat, j: nat)
    requires Fresh(c) && IsRun(c, events)
    requires i < |After(c, events).tasks| && j < |After(c, events).tasks|
    ensures Vruntime(After(c, events).tasks[i]) - Vruntime(After(c, events).tasks[j]) <= SPREAD
  {
    RunKeepsTight(c, events);
  }

  // ---- Bounded waiting ----

  function CeilDiv(a: int, b: nat): int
    requires b > 0
  {
    -((-a) / b)
  }

  lemma CeilDivBounds(a: int, b: nat, q: int)
    requires b > 0
    ensures CeilDiv(a, b) <= q <==> a <= q * b
  {
    var d, r := (-a) / b, (-a) % b;
    assert -a == d * b + r;
    if -d <= q {
      assert (-q) * b <= d * b;
    } else {
      assert (d + 1) * b <= (-q) * b;
    }
  }

  /** How many more ticks `u` may take before it sorts behind a task with key `goal`. */
  function TicksAhead(u: Task, goal: Key): int {
    if KeyLess(KeyOf(u), goal) then Max(1, CeilDiv((goal.0 - u.base) * Weight(u.nice), 1024) - u.delta) else 0
  }

  /** Picks a task of this nice value can take ahead of any other. */
  function MaxPicks(nice: Nice): int {
    Max(1, CeilDiv(SPREAD * Weight(nice), 1024))
  }

  /** Every pick of `u` brings it one tick closer to sorting behind `goal`. */
  lemma PickCostsATick(u: Task, goal: Key, pool: int)
    requires KeyLess(KeyOf(u), goal) && goal.1 < pool
    ensures 0 <= TicksAhead(Ticked(u).(id := pool), goal) < TicksAhead(u, goal)
  {
    var u' := Ticked(u).(id := pool);
    var w, x := Weight(u.nice), goal.0 - u.base;
    if KeyLess(KeyOf(u'), goal) {
      ScaledIsFloor(u.delta + 1, u.nice);
      DivideBy((u.delta + 1) * 1024, w, x);
      CeilDivBounds(x * w, 1024, u.delta + 1);
    }
  }

  lemma AheadIsBounded(u: Task, goal: Key)
    requires goal.0 - Vruntime(u) <= SPREAD
    ensures TicksAhead(u, goal) <= MaxPicks(u.nice)
  {
    var w, x := Weight(u.nice), goal.0 - u.base;
    ScaledIsFloor(u.delta, u.nice);
    var q := u.delta * 1024 / w;
    DivideBy(u.delta * 1024, w, q);
    var m := CeilDiv(SPREAD * w, 1024);
    CeilDivBounds(SPREAD * w, 1024, m);
    Stretch(x, q, w);
    CeilDivBounds(x * w, 1024, u.delta + m);
  }

  lemma Stretch(x: int, q: int, w: nat)
    requires x <= q + SPREAD
    ensures x * w <= q * w + SPREAD * w
  {
  }

  /** Ticks ahead of `goal` over the first `n` tasks, leaving out the waiting one. */
  ghost function TotalAhead(tasks: seq<Task>, waiting: nat, goal: Key, n: nat): int
    requires n <= |tasks|
  {
    if n == 0 then 0
    else TotalAhead(tasks, waiting, goal, n - 1) + if n - 1 == waiting then 0 else TicksAhead(tasks[n - 1], goal)
  }

  ghost function TotalPicks(tasks: seq<Task>, waiting: nat, n: nat): int
    requires n <= |tasks|
  {
    if n == 0 then 0
    else TotalPicks(tasks, waiting, n - 1) + if n - 1 == waiting then 0 else MaxPicks(tasks[n - 1].nice)
  }

  lemma {:induction false} TotalAfterUpdate(tasks: seq<Task>, waiting: nat, goal: Key, n: nat, i: nat, t: Task)
    requires n <= |tasks| && i < |tasks| && i != waiting
    ensures TotalAhead(tasks[i := t], waiting, goal, n) ==
              TotalAhead(tasks, waiting, goal, n) + if i < n then TicksAhead(t, goal) - TicksAhead(tasks[i], goal)
                else 0
  {
    if n > 0 { TotalAfterUpdate(tasks, waiting, goal, n - 1, i, t); }
  }

  lemma {:induction false} TotalNonNegative(tasks: seq<Task>, waiting: nat, goal: Key, n: nat)
    requires n <= |tasks|
    ensures TotalAhead(tasks, waiting, goal, n) >= 0
  {
    if n > 0 { TotalNonNegative(tasks, waiting, goal, n - 1); }
  }

  lemma {:induction false} TotalIsBounded(c: Closed, waiting: nat, n: nat)
    requires Tight(c) && waiting < |c.tasks| && n <= |c.tasks|
    ensures TotalAhead(c.tasks, waiting, KeyOf(c.tasks[waiting]), n) <= TotalPicks(c.tasks, waiting, n)
  {
    if n > 0 {
      TotalIsBounded(c, waiting, n - 1);
      AheadIsBounded(c.tasks[n - 1], KeyOf(c.tasks[waiting]));
    }
  }

  ghost function Rounds(c: Closed, n: nat): (r: Closed)
    requires c.tasks != []
    ensures |r.tasks| == |c.tasks|
    decreases n
  {
    if n == 0 then c else Rounds(Round(c), n - 1)
  }

  ghost predicate PassedOver(c: Closed, waiting: nat, n: nat)
    requires c.tasks != []
  {
    forall k :: 0 <= k < n ==> First(Rounds(c, k).tasks) != waiting
  }

  lemma PassingOverCosts(c: Closed, waiting: nat)
    requires Valid(c) && waiting < |c.tasks| && First(c.tasks) != waiting
    ensures Round(c).tasks[waiting] == c.tasks[waiting]
    ensures
      var goal := KeyOf(c.tasks[waiting]);
      TotalAhead(Round(c).tasks, waiting, goal, |c.tasks|) < TotalAhead(c.tasks, waiting, goal, |c.tasks|)
  {
    var i, goal := First(c.tasks), KeyOf(c.tasks[waiting]);
    assert c.tasks[i].id != c.tasks[waiting].id;
    assert KeyLess(KeyOf(c.tasks[i]), goal);
    PickCostsATick(c.tasks[i], goal, c.pool);
    TotalAfterUpdate(c.tasks, waiting, goal, |c.tasks|, i, Ticked(c.tasks[i]).(id := c.pool));
  }

  lemma RoundKeepsValid(c: Closed)
    requires Valid(c) && c.tasks != []
    ensures Valid(Round(c))
  {
  }

  lemma {:induction false} WaitIsCovered(c: Closed, waiting: nat, n: nat)
    requires Valid(c) && waiting < |c.tasks| && PassedOver(c, waiting, n)
    ensures n <= TotalAhead(c.tasks, waiting, KeyOf(c.tasks[waiting]), |c.tasks|)
    decreases n
  {
    if n == 0 {
      TotalNonNegative(c.tasks, waiting, KeyOf(c.tasks[waiting]), |c.tasks|);
    } else {
      assert First(Rounds(c, 0).tasks) != waiting;
      PassingOverCosts(c, waiting);
      RoundKeepsValid(c);
      forall k | 0 <= k < n - 1 ensures First(Rounds(Round(c), k).tasks) != waiting {
        assert Rounds(c, k + 1) == Rounds(Round(c), k);
      }
      WaitIsCovered(Round(c), waiting, n - 1);
    }
  }

  /** No starvation: from any state a closed set of fresh tasks can reach, priorities fixed from
      there on, a task is passed over at most as often as the weights of the others allow. */
  lemma NoStarvation(c: Closed, events: seq<Event>, waiting: nat, n: nat)
    requires Fresh(c) && IsRun(c, events) && waiting < |After(c, events).tasks|
    requires PassedOver(After(c, events), waiting, n)
    ensures
      var now := After(c, events);
      n <= TotalPicks(now.tasks, waiting, |now.tasks|)
  {
    var now := After(c, events);
    RunKeepsTight(c, events);
    WaitIsCovered(now, waiting, n);
    TotalIsBounded(now, waiting, |now.tasks|);
  }

  // ---- Running until the tick asks for a reschedule ----

  function Advanced(t: Task, n: nat): Task { t.(delta := t.delta + n) }

  /** `n` is the first tick after which the task's virtual runtime has passed `floor`, the cached
      minimum that a tick compares against. */
  ghost predicate AsksAfter(t: Task, floor: int, n: nat) {
    n >= 1 && Vruntime(Advanced(t, n)) > floor && NotYet(t, floor, n)
  }

  ghost predicate NotYet(t: Task, floor: int, n: nat) {
    forall k :: 1 <= k < n ==> Vruntime(Advanced(t, k)) <= floor
  }

  /** Pick the first task, let it tick `n` times, put it back under a fresh id. */
  function Stint(c: Closed, n: nat): Closed
    requires c.tasks != []
  {
    var i := First(c.tasks);
    Closed(c.tasks[i := Advanced(c.tasks[i], n).(id := c.pool)], c.pool + 1)
  }

  ghost predicate Above(c: Closed, floor: int) {
    forall i :: 0 <= i < |c.tasks| ==> Vruntime(c.tasks[i]) >= floor
  }

  lemma {:induction false} MoreTicksMoreTime(t: Task, n: nat)
    ensures Vruntime(Advanced(t, n)) >= Vruntime(t)
  {
    if n > 0 {
      MoreTicksMoreTime(t, n - 1);
      TickStep(Advanced(t, n - 1));
      assert Ticked(Advanced(t, n - 1)) == Advanced(t, n);
    } else {
      assert Advanced(t, 0) == t;
    }
  }

  /** However stale the cached minimum, a stint ends at most 69 above where it or the minimum was. */
  lemma StintStep(t: Task, floor: int, n: nat)
    requires AsksAfter(t, floor, n)
    ensures Vruntime(t) <= Vruntime(Advanced(t, n)) <= Max(Vruntime(t), floor) + SPREAD
  {
    MoreTicksMoreTime(t, n);
    TickStep(Advanced(t, n - 1));
    assert Ticked(Advanced(t, n - 1)) == Advanced(t, n);
    assert Advanced(t, 0) == t;
    assert n > 1 ==> Vruntime(Advanced(t, n - 1)) <= floor;
  }

  /** A task put back no lower than it was and at most 69 above the lowest or the minimum. */
  lemma PutBackKeepsTight(c: Closed, floor: int, t: Task)
    requires Valid(c) && Tight(c) && Above(c, floor) && c.tasks != [] && t.id == c.pool
    requires
      var v := Vruntime(c.tasks[First(c.tasks)]);
      v <= Vruntime(t) <= Max(v, floor) + SPREAD
    ensures
      var c' := Closed(c.tasks[First(c.tasks) := t], c.pool + 1);
      Valid(c') && Tight(c') && Above(c', floor)
  {
    var i := First(c.tasks);
    forall j | 0 <= j < |c.tasks| ensures Vruntime(c.tasks[i]) <= Vruntime(c.tasks[j]) {
      assert !KeyLess(KeyOf(c.tasks[j]), KeyOf(c.tasks[i]));
    }
  }

  lemma StintKeepsTight(c: Closed, floor: int, n: nat)
    requires Valid(c) && Tight(c) && Above(c, floor) && c.tasks != [] && AsksAfter(c.tasks[First(c.tasks)], floor, n)
    ensures Valid(Stint(c, n)) && Tight(Stint(c, n)) && Above(Stint(c, n), floor)
  {
    var i := First(c.tasks);
    StintStep(c.tasks[i], floor, n);
    PutBackKeepsTight(c, floor, Advanced(c.tasks[i], n).(id := c.pool));
  }

  // ---- Changing the priority of the running task ----

  datatype Act = Beat | Renice(nice: Nice)

  function Acted(t: Task, act: Act): Task {
    match act
    case Beat => Ticked(t)
    case Renice(nice) => Reprioritized(t, nice)
  }

  function Ran(t: Task, acts: seq<Act>): Task {
    if acts == [] then t else Acted(Ran(t, acts[..|acts| - 1]), acts[|acts| - 1])
  }

  /** No tick among `acts` asks for a reschedule. */
  ghost predicate Silent(t: Task, floor: int, acts: seq<Act>) {
    acts == [] ||
    (Silent(t, floor, acts[..|acts| - 1]) && (acts[|acts| - 1].Beat? ==> Vruntime(Ran(t, acts)) <= floor))
  }

  /** The last of `acts` is the first tick that asks. */
  ghost predicate AsksLast(t: Task, floor: int, acts: seq<Act>) {
    && acts != [] && acts[|acts| - 1].Beat? && Vruntime(Ran(t, acts)) > floor
    && Silent(t, floor, acts[..|acts| - 1])
  }

  lemma {:induction false} SilentStaysLow(t: Task, floor: int, acts: seq<Act>)
    requires Silent(t, floor, acts)
    ensures Vruntime(t) <= Vruntime(Ran(t, acts)) <= Max(Vruntime(t), floor)
  {
    if acts != [] {
      var before := Ran(t, acts[..|acts| - 1]);
      SilentStaysLow(t, floor, acts[..|acts| - 1]);
      match acts[|acts| - 1] {
        case Beat => TickStep(before);
        case Renice(nice) => PriorityKeepsKey(before, nice);
      }
    }
  }

  /** Whatever priorities the running task is given along the way, its stint ends at most 69 above
      where it or the cached minimum was. */
  lemma VariedStep(t: Task, floor: int, acts: seq<Act>)
    requires AsksLast(t, floor, acts)
    ensures Vruntime(t) <= Vruntime(Ran(t, acts)) <= Max(Vruntime(t), floor) + SPREAD
  {
    SilentStaysLow(t, floor, acts[..|acts| - 1]);
    TickStep(Ran(t, acts[..|acts| - 1]));
  }

  function Beats(n: nat): seq<Act> {
    seq(n, _ => Beat)
  }

  lemma {:induction false} BeatsAdvance(t: Task, n: nat)
    ensures Ran(t, Beats(n)) == Advanced(t, n)
  {
    if n > 0 {
      assert Beats(n)[..n - 1] == Beats(n - 1);
      BeatsAdvance(t, n - 1);
    }
  }

  /** Plain ticking is the case without changes. */
  lemma PlainStintAsks(t: Task, floor: int, n: nat)
    requires AsksAfter(t, floor, n)
    ensures AsksLast(t, floor, Beats(n)) && Ran(t, Beats(n)) == Advanced(t, n)
  {
    BeatsAdvance(t, n);
    assert Beats(n)[..n - 1] == Beats(n - 1);
    SilentBeats(t, floor, n - 1, n);
  }

  lemma {:induction false} SilentBeats(t: Task, floor: int, k: nat, n: nat)
    requires NotYet(t, floor, n) && k < n
    ensures Silent(t, floor, Beats(k))
  {
    if k > 0 {
      assert Beats(k)[..k - 1] == Beats(k - 1);
      SilentBeats(t, floor, k - 1, n);
      BeatsAdvance(t, k);
    }
  }

  lemma {:induction false} RanOn(t: Task, floor: int, a: seq<Act>, b: seq<Act>)
    ensures Ran(t, a + b) == Ran(Ran(t, a), b)
    ensures Silent(t, floor, a + b) <==> Silent(t, floor, a) && Silent(Ran(t, a), floor, b)
    decreases |b|
  {
    if b == [] {
      assert a + b == a;
    } else {
      assert (a + b)[..|a + b| - 1] == a + b[..|b| - 1];
      RanOn(t, floor, a, b[..|b| - 1]);
    }
  }

  // ---- What setting a priority costs ----

  lemma SplitFloor(a: nat, b: nat, w: nat)
    requires w > 0
    ensures a / w + b / w <= (a + b) / w <= a / w + b / w + 1
    ensures a % w == 0 ==> (a + b) / w == a / w + b / w
  {
    var p, q := a / w, b / w;
    DivideBy(a, w, p);
    DivideBy(a, w, p + 1);
    DivideBy(b, w, q);
    DivideBy(b, w, q + 1);
    DivideBy(a + b, w, p + q);
    DivideBy(a + b, w, p + q + 1);
    DivideBy(a + b, w, p + q + 2);
    Distribute(p, q, w);
    assert a == p * w + a % w;
  }

  lemma Distribute(p: int, q: int, w: int)
    ensures (p + q) * w == p * w + q * w
    ensures (p + 1) * w == p * w + w && (q + 1) * w == q * w + w
    ensures (p + q + 1) * w == p * w + q * w + w && (p + q + 2) * w == p * w + q * w + 2 * w
  {
  }

  lemma FloorIs(x: nat, w: nat, q: int, r: nat)
    requires r < w && x == q * w + r
    ensures x / w == q
  {
    DivideBy(x, w, q);
    DivideBy(x, w, q + 1);
    Distribute(q, 0, w);
  }

  lemma Complement(a: int, w: int, q: int, r: int)
    requires a == q * w + r
    ensures a * (w - 1) == (a - q - 1) * w + (w - r)
  {
    assert (a - q - 1) * w == a * w - q * w - w;
  }

  /** A remainder shows once it has been added up often enough. */
  lemma RemainderShows(a: nat, w: nat, b: nat)
    requires w > 0 && a % w != 0 && b == a * (w - 1)
    ensures (a + b) / w - a / w - b / w == 1
  {
    EuclidOf(a, w);
    Complement(a, w, a / w, a % w);
    FloorIs(b, w, a - a / w - 1, w - a % w);
    WholeOf(a, w, b);
  }

  lemma EuclidOf(a: nat, w: nat)
    requires w > 0
    ensures a == a / w * w + a % w && 0 <= a % w < w
  {
  }

  lemma WholeOf(a: nat, w: nat, b: nat)
    requires w > 0 && b == a * (w - 1)
    ensures (a + b) / w == a
  {
    assert a + b == a * w + 0;
    FloorIs(a + b, w, a, 0);
  }

  /** Virtual time lost after `m` more ticks by setting the task's own priority again now. */
  function Lost(t: Task, m: nat): int {
    Vruntime(Advanced(t, m)) - Vruntime(Advanced(Reprioritized(t, t.nice), m))
  }

  lemma LostIs(t: Task, m: nat)
    ensures
      var w, a := Weight(t.nice), t.delta * 1024;
      Lost(t, m) == (a + m * 1024) / w - a / w - m * 1024 / w
  {
    ScaledIsFloor(t.delta, t.nice);
    ScaledIsFloor(m, t.nice);
    ScaledIsFloor(t.delta + m, t.nice);
    assert (t.delta + m) * 1024 == t.delta * 1024 + m * 1024;
  }

  lemma LostBounds(t: Task, m: nat)
    ensures 0 <= Lost(t, m) <= 1
    ensures t.delta * 1024 % Weight(t.nice) == 0 ==> Lost(t, m) == 0
  {
    LostIs(t, m);
    SplitFloor(t.delta * 1024, m * 1024, Weight(t.nice));
  }

  lemma LossShows(t: Task)
    requires t.delta * 1024 % Weight(t.nice) != 0
    ensures Lost(t, t.delta * (Weight(t.nice) - 1)) == 1
  {
    var w := Weight(t.nice);
    var m: nat := t.delta * (w - 1);
    LostIs(t, m);
    Swap(t.delta, w - 1);
    RemainderShows(t.delta * 1024, w, m * 1024);
  }

  lemma Swap(d: int, w: int)
    ensures d * w * 1024 == d * 1024 * w
  {
  }

  /** Setting a task's own priority again never puts it ahead in virtual time and loses at most one
      unit. It loses nothing, however the task ticks on, if and only if the ticks since the last
      setting come to a whole number of units, and earns nothing if and only if they do not come to
      one. */
  lemma ReniceLosesIff(t: Task)
    ensures forall m: nat :: 0 <= Lost(t, m) <= 1
    ensures (forall m: nat :: Lost(t, m) == 0) <==> t.delta * 1024 % Weight(t.nice) == 0
    ensures Reprioritized(t, t.nice).base == t.base <==> t.delta * 1024 < Weight(t.nice)
  {
    ScaledIsFloor(t.delta, t.nice);
    DivideBy(t.delta * 1024, Weight(t.nice), 0);
    DivideBy(t.delta * 1024, Weight(t.nice), 1);
    forall m: nat { LostBounds(t, m); }
    if t.delta * 1024 % Weight(t.nice) != 0 { LossShows(t); }
  }

  /** `n` rounds of `k` ticks, each round ending with the priority being set again. */
  function Holding(k: nat, nice: Nice, n: nat): seq<Act> {
    if n == 0 then [] else Holding(k, nice, n - 1) + HeldRound(k, nice)
  }

  function HeldRound(k: nat, nice: Nice): seq<Act> {
    Beats(k) + [Renice(nice)]
  }

  /** Ticks are silent exactly when the last one is. */
  lemma {:induction false} SilentBeatsIff(t: Task, floor: int, k: nat)
    ensures Silent(t, floor, Beats(k)) <==> k == 0 || Vruntime(Advanced(t, k)) <= floor
  {
    if k > 0 {
      assert Beats(k)[..k - 1] == Beats(k - 1);
      SilentBeatsIff(t, floor, k - 1);
      BeatsAdvance(t, k);
      TickStep(Advanced(t, k - 1));
      assert Ticked(Advanced(t, k - 1)) == Advanced(t, k);
    }
  }

  lemma OneRound(t: Task, floor: int, k: nat, nice: Nice)
    ensures Ran(t, HeldRound(k, nice)) == Reprioritized(Advanced(t, k), nice)
    ensures Silent(t, floor, HeldRound(k, nice)) <==> k == 0 || Vruntime(Advanced(t, k)) <= floor
  {
    var acts := HeldRound(k, nice);
    assert acts[..|acts| - 1] == Beats(k);
    BeatsAdvance(t, k);
    SilentBeatsIff(t, floor, k);
  }

  /** Virtual time after `n` rounds: the first takes along the ticks from before, each other earns
      what `k` ticks on their own earn. */
  function HeldTime(t: Task, k: nat, nice: Nice, n: nat): int {
    if n == 0 then Vruntime(t) else Vruntime(Advanced(t, k)) + (n - 1) * (k * 1024 / Weight(nice))
  }

  lemma NextRound(t: Task, k: nat, nice: Nice, n: nat)
    requires n > 0
    ensures HeldTime(t, k, nice, n + 1) == HeldTime(t, k, nice, n) + Scaled(k, nice)
  {
    ScaledIsFloor(k, nice);
    var q := k * 1024 / Weight(nice);
    assert n * q == (n - 1) * q + q;
  }

  lemma {:induction false} HeldLeadsTo(t: Task, k: nat, nice: Nice, n: nat)
    requires n > 0
    ensures Ran(t, Holding(k, nice, n)) == t.(base := HeldTime(t, k, nice, n), delta := 0, nice := nice)
  {
    RanOn(t, 0, Holding(k, nice, n - 1), HeldRound(k, nice));
    OneRound(Ran(t, Holding(k, nice, n - 1)), 0, k, nice);
    if n > 1 {
      HeldLeadsTo(t, k, nice, n - 1);
      NextRound(t, k, nice, n - 1);
    }
  }

  lemma RoundReaches(t: Task, k: nat, nice: Nice, n: nat)
    requires n > 0
    ensures Vruntime(Advanced(Ran(t, Holding(k, nice, n - 1)), k)) == HeldTime(t, k, nice, n)
  {
    if n > 1 {
      HeldLeadsTo(t, k, nice, n - 1);
      NextRound(t, k, nice, n - 1);
    }
  }

  lemma TimeGoesOn(t: Task, k: nat, nice: Nice, n: nat)
    ensures HeldTime(t, k, nice, n) <= HeldTime(t, k, nice, n + 1)
  {
    if n > 0 { NextRound(t, k, nice, n); } else { MoreTicksMoreTime(t, k); }
  }

  lemma RoundIsSilent(t: Task, floor: int, k: nat, nice: Nice, n: nat)
    requires n > 0
    ensures Silent(t, floor, Holding(k, nice, n)) <==>
      Silent(t, floor, Holding(k, nice, n - 1)) && (k == 0 || HeldTime(t, k, nice, n) <= floor)
  {
    RanOn(t, floor, Holding(k, nice, n - 1), HeldRound(k, nice));
    OneRound(Ran(t, Holding(k, nice, n - 1)), floor, k, nice);
    RoundReaches(t, k, nice, n);
  }

  /** No tick of the rounds asks exactly when the last one does not. */
  lemma {:induction false} HeldIsSilent(t: Task, floor: int, k: nat, nice: Nice, n: nat)
    ensures Silent(t, floor, Holding(k, nice, n)) <==> n == 0 || k == 0 || HeldTime(t, k, nice, n) <= floor
  {
    if n > 0 {
      HeldIsSilent(t, floor, k, nice, n - 1);
      RoundIsSilent(t, floor, k, nice, n);
      TimeGoesOn(t, k, nice, n - 1);
    }
  }

  lemma TimeStandsStill(t: Task, k: nat, nice: Nice, n: nat)
    requires n > 0 && k * 1024 < Weight(nice)
    ensures HeldTime(t, k, nice, n) == Vruntime(Advanced(t, k))
  {
    FloorIs(k * 1024, Weight(nice), 0, k * 1024);
  }

  lemma {:induction false} TimePasses(t: Task, k: nat, nice: Nice, n: nat)
    requires k * 1024 >= Weight(nice)
    ensures HeldTime(t, k, nice, n + 1) >= HeldTime(t, k, nice, 1) + n
  {
    if n > 0 {
      TimePasses(t, k, nice, n - 1);
      NextRound(t, k, nice, n);
      ScaledIsFloor(k, nice);
      DivideBy(k * 1024, Weight(nice), 1);
    }
  }

  /** Setting a priority drops the fraction of virtual time earned so far. So a running task can be
      made to tick on for ever without its ticks asking for a reschedule, by setting its priority
      every `k` ticks, if and only if those ticks do not earn a unit at that priority and the first
      round, which takes along the ticks from before, does not pass the minimum. This is why the
      waiting bound needs priorities that stay. */
  lemma HeldForEver(t: Task, floor: int, k: nat, nice: Nice)
    ensures (forall n: nat :: Silent(t, floor, Holding(k, nice, n)))
      <==> k == 0 || (k * 1024 < Weight(nice) && Vruntime(Advanced(t, k)) <= floor)
  {
    if k == 0 || (k * 1024 < Weight(nice) && Vruntime(Advanced(t, k)) <= floor) {
      forall n: nat ensures Silent(t, floor, Holding(k, nice, n)) {
        HeldIsSilent(t, floor, k, nice, n);
        if k > 0 && n > 0 { TimeStandsStill(t, k, nice, n); }
      }
    } else {
      var n := if k * 1024 < Weight(nice) then 1 else Max(floor - HeldTime(t, k, nice, 1), 0) + 2;
      HeldIsSilent(t, floor, k, nice, n);
      if k * 1024 >= Weight(nice) { TimePasses(t, k, nice, n - 1); }
      assert !Silent(t, floor, Holding(k, nice, n));
    }
  }

  /** Pick the first task, let it act, put it back under a fresh id. */
  function VariedStint(c: Closed, acts: seq<Act>): Closed
    requires c.tasks != []
  {
    var i := First(c.tasks);
    Closed(c.tasks[i := Ran(c.tasks[i], acts).(id := c.pool)], c.pool + 1)
  }

  lemma VariedKeepsTight(c: Closed, floor: int, acts: seq<Act>)
    requires Valid(c) && Tight(c) && Above(c, floor) && c.tasks != [] && AsksLast(c.tasks[First(c.tasks)], floor, acts)
    ensures Valid(VariedStint(c, acts)) && Tight(VariedStint(c, acts)) && Above(VariedStint(c, acts), floor)
  {
    var i := First(c.tasks);
    VariedStep(c.tasks[i], floor, acts);
    PutBackKeepsTight(c, floor, Ran(c.tasks[i], acts).(id := c.pool));
  }

  /** Stints and priority changes, of queued tasks and of the one that runs, the cached minimum
      staying as it is. */
  datatype Turn = Runs(ticks: nat) | Varies(acts: seq<Act>) | Changes(task: nat, nice: Nice)

  ghost predicate TurnPossible(c: Closed, floor: int, turn: Turn) {
    && c.tasks != []
    && match turn
       case Runs(n) => AsksAfter(c.tasks[First(c.tasks)], floor, n)
       case Varies(acts) => AsksLast(c.tasks[First(c.tasks)], floor, acts)
       case Changes(j, _) => j < |c.tasks|
  }

  function AfterTurn(c: Closed, turn: Turn): Closed
    requires c.tasks != [] && (turn.Changes? ==> turn.task < |c.tasks|)
  {
    match turn
    case Runs(n) => Stint(c, n)
    case Varies(acts) => VariedStint(c, acts)
    case Changes(j, nice) => c.(tasks := c.tasks[j := Reprioritized(c.tasks[j], nice)])
  }

  ghost predicate AreTurns(c: Closed, floor: int, turns: seq<Turn>)
    decreases |turns|
  {
    turns == [] || (TurnPossible(c, floor, turns[0]) && AreTurns(AfterTurn(c, turns[0]), floor, turns[1..]))
  }

  ghost function AfterTurns(c: Closed, floor: int, turns: seq<Turn>): Closed
    requires AreTurns(c, floor, turns)
    decreases |turns|
  {
    if turns == [] then c else AfterTurns(AfterTurn(c, turns[0]), floor, turns[1..])
  }

  lemma ChangeKeepsTight(c: Closed, floor: int, j: nat, nice: Nice)
    requires Valid(c) && Tight(c) && Above(c, floor) && j < |c.tasks|
    ensures
      var c' := AfterTurn(c, Changes(j, nice));
      Valid(c') && Tight(c') && Above(c', floor)
  {
    PriorityKeepsKey(c.tasks[j], nice);
  }

  lemma {:induction false} TurnsKeepTight(c: Closed, floor: int, turns: seq<Turn>)
    requires Valid(c) && Tight(c) && Above(c, floor) && AreTurns(c, floor, turns)
    ensures Valid(AfterTurns(c, floor, turns)) && Tight(AfterTurns(c, floor, turns))
    ensures Above(AfterTurns(c, floor, turns), floor)
    decreases |turns|
  {
    if turns != [] {
      match turns[0] {
        case Runs(n) => StintKeepsTight(c, floor, n);
        case Varies(acts) => VariedKeepsTight(c, floor, acts);
        case Changes(j, nice) => ChangeKeepsTight(c, floor, j, nice);
      }
      TurnsKeepTight(AfterTurn(c, turns[0]), floor, turns[1..]);
    }
  }

  /** The spread bound also holds when each task runs until its tick asks for a reschedule, measured
      against the minimum cached when the fresh tasks were added and never refreshed since. */
  lemma SpreadBoundOfTurns(c: Closed, turns: seq<Turn>, i: nat, j: nat)
    requires Fresh(c) && AreTurns(c, 0, turns)
    requires i < |AfterTurns(c, 0, turns).tasks| && j < |AfterTurns(c, 0, turns).tasks|
    ensures Vruntime(AfterTurns(c, 0, turns).tasks[i]) - Vruntime(AfterTurns(c, 0, turns).tasks[j]) <= SPREAD
  {
    TurnsKeepTight(c, 0, turns);
  }

  /** A stint brings its task at least one tick closer to sorting behind `goal`. */
  lemma StintCostsATick(u: Task, goal: Key, pool: int, n: nat)
    requires n >= 1 && KeyLess(KeyOf(u), goal) && goal.1 < pool
    ensures 0 <= TicksAhead(Advanced(u, n).(id := pool), goal) < TicksAhead(u, goal)
  {
    var u' := Advanced(u, n).(id := pool);
    var w, x := Weight(u.nice), goal.0 - u.base;
    if KeyLess(KeyOf(u'), goal) {
      ScaledIsFloor(u.delta + n, u.nice);
      DivideBy((u.delta + n) * 1024, w, x);
      CeilDivBounds(x * w, 1024, u.delta + n);
    }
  }

  lemma StintPassingOverCosts(c: Closed, waiting: nat, n: nat)
    requires Valid(c) && waiting < |c.tasks| && First(c.tasks) != waiting && n >= 1
    ensures Stint(c, n).tasks[waiting] == c.tasks[waiting]
    ensures
      var goal := KeyOf(c.tasks[waiting]);
      TotalAhead(Stint(c, n).tasks, waiting, goal, |c.tasks|) < TotalAhead(c.tasks, waiting, goal, |c.tasks|)
  {
    var i, goal := First(c.tasks), KeyOf(c.tasks[waiting]);
    assert c.tasks[i].id != c.tasks[waiting].id;
    assert KeyLess(KeyOf(c.tasks[i]), goal);
    StintCostsATick(c.tasks[i], goal, c.pool, n);
    TotalAfterUpdate(c.tasks, waiting, goal, |c.tasks|, i, Advanced(c.tasks[i], n).(id := c.pool));
  }

  /** Stints only, none of them the waiting task's. */
  ghost predicate PassedOverBy(c: Closed, floor: int, waiting: nat, turns: seq<Turn>)
    requires AreTurns(c, floor, turns)
    decreases |turns|
  {
    turns == [] ||
    (turns[0].Runs? && First(c.tasks) != waiting && PassedOverBy(AfterTurn(c, turns[0]), floor, waiting, turns[1..]))
  }

  lemma {:induction false} StintsAreCovered(c: Closed, floor: int, waiting: nat, turns: seq<Turn>)
    requires Valid(c) && waiting < |c.tasks| && AreTurns(c, floor, turns) && PassedOverBy(c, floor, waiting, turns)
    ensures |turns| <= TotalAhead(c.tasks, waiting, KeyOf(c.tasks[waiting]), |c.tasks|)
    decreases |turns|
  {
    if turns == [] {
      TotalNonNegative(c.tasks, waiting, KeyOf(c.tasks[waiting]), |c.tasks|);
    } else {
      StintPassingOverCosts(c, waiting, turns[0].ticks);
      StintsAreCovered(AfterTurn(c, turns[0]), floor, waiting, turns[1..]);
    }
  }

  /** No starvation in that loop either: the same bound on the stints a waiting task sits out. */
  lemma NoStarvationOfTurns(c: Closed, turns: seq<Turn>, waiting: nat, more: seq<Turn>)
    requires Fresh(c) && AreTurns(c, 0, turns) && waiting < |AfterTurns(c, 0, turns).tasks|
    requires AreTurns(AfterTurns(c, 0, turns), 0, more) && PassedOverBy(AfterTurns(c, 0, turns), 0, waiting, more)
    ensures
      var now := AfterTurns(c, 0, turns);
      |more| <= TotalPicks(now.tasks, waiting, |now.tasks|)
  {
    var now := AfterTurns(c, 0, turns);
    TurnsKeepTight(c, 0, turns);
    StintsAreCovered(now, 0, waiting, more);
    TotalIsBounded(now, waiting, |now.tasks|);
  }
}
