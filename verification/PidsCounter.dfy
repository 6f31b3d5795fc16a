/** One node's counters as atomics, under any interleaving of charging, releasing and
    organizational threads. A checked charge is a compare-exchange loop: load `current`, load
    `maximum`, exchange, then raise `peak`; every load and update is a step of its own. */
module PidsCounter {
  import opened Numbers

  type ThreadId = nat

  /** `Idle` is also the head of the retry loop. */
  datatype Pc = Idle | Loaded(seen: int) | Checked(seen: int) | Raising(value: int)

  datatype Cell = Cell(current: int, peak: int, maximum: int, pcs: map<ThreadId, Pc>)

  datatype Step =
    | LoadCurrent(t: ThreadId)
    | LoadMaximum(t: ThreadId)              // and decide
    | Exchange(t: ThreadId)
    | RaisePeak(t: ThreadId)
    | Add(t: ThreadId, count: nat)          // unchecked charge
    | Subtract(count: nat)                  // uncharge
    | SetMaximum(maximum: nat)

  function At(c: Cell, t: ThreadId): Pc {
    if t in c.pcs then c.pcs[t] else Idle
  }

  predicate Enabled(c: Cell, step: Step) {
    match step
    case LoadCurrent(t) => At(c, t).Idle?
    case LoadMaximum(t) => At(c, t).Loaded?
    case Exchange(t) => At(c, t).Checked?
    case RaisePeak(t) => At(c, t).Raising?
    case Add(t, _) => At(c, t).Idle?
    case Subtract(k) => k <= c.current
    case SetMaximum(_) => true
  }

  function Apply(c: Cell, step: Step): Cell
    requires Enabled(c, step)
  {
    match step
    case LoadCurrent(t) => c.(pcs := c.pcs[t := Loaded(c.current)])
    case LoadMaximum(t) =>
      var seen := At(c, t).seen;
      c.(pcs := c.pcs[t := if seen >= c.maximum || seen == U64_MAX then Idle else Checked(seen)])
    case Exchange(t) =>
      var seen := At(c, t).seen;
      if c.current == seen then c.(current := seen + 1, pcs := c.pcs[t := Raising(seen + 1)])
        else c.(pcs := c.pcs[t := Idle])
    case RaisePeak(t) => c.(peak := Max(c.peak, At(c, t).value), pcs := c.pcs[t := Idle])
    case Add(t, k) => c.(current := c.current + k, pcs := c.pcs[t := Raising(c.current + k)])
    case Subtract(k) => c.(current := c.current - k)
    case SetMaximum(m) => c.(maximum := m)
  }

  ghost predicate IsRun(c: Cell, steps: seq<Step>)
    decreases |steps|
  {
    steps == [] || (Enabled(c, steps[0]) && IsRun(Apply(c, steps[0]), steps[1..]))
  }

  ghost function After(c: Cell, steps: seq<Step>): Cell
    requires IsRun(c, steps)
    decreases |steps|
  {
    if steps == [] then c else After(Apply(c, steps[0]), steps[1..])
  }

  // ---- The high-water mark ----

  /** The largest value `current` takes anywhere in the run, its ends included. */
  ghost function Highest(c: Cell, steps: seq<Step>): int
    requires IsRun(c, steps)
    decreases |steps|
  {
    if steps == [] then c.current else Max(c.current, Highest(Apply(c, steps[0]), steps[1..]))
  }

  ghost predicate NoChargeInFlight(c: Cell) {
    forall t: ThreadId :: !At(c, t).Raising?
  }

  /** `high` is recorded in `peak` already or is about to be by some thread. */
  ghost predicate Tracks(c: Cell, high: int) {
    && c.current <= high && c.peak <= high
    && (forall t: ThreadId :: At(c, t).Raising? ==> At(c, t).value <= high)
    && (c.peak == high || exists t: ThreadId :: At(c, t) == Raising(high))
  }

  predicate MovesThread(step: Step, u: ThreadId) {
    !step.Subtract? && !step.SetMaximum? && step.t == u
  }

  lemma OthersStay(c: Cell, step: Step, u: ThreadId)
    requires Enabled(c, step)
    ensures MovesThread(step, u) || At(Apply(c, step), u) == At(c, u)
  {
  }

  lemma StepTracks(c: Cell, step: Step, high: int)
    requires Enabled(c, step) && Tracks(c, high)
    ensures Tracks(Apply(c, step), Max(high, Apply(c, step).current))
  {
    var c' := Apply(c, step);
    var high' := Max(high, c'.current);
    forall u: ThreadId ensures At(c', u).Raising? ==> At(c', u).value <= high' { OthersStay(c, step, u); }
    if c.peak != high {
      var u: ThreadId :| At(c, u) == Raising(high);
      OthersStay(c, step, u);
      assert (step.RaisePeak? && step.t == u) || At(c', u) == Raising(high);
    }
    if (step.Exchange? || step.Add?) && c'.current > high {
      assert At(c', step.t) == Raising(high');
    }
  }

  lemma {:induction false} RunTracks(c: Cell, steps: seq<Step>, high: int)
    requires IsRun(c, steps) && Tracks(c, high)
    ensures Tracks(After(c, steps), Max(high, Highest(c, steps)))
    decreases |steps|
  {
    if steps != [] {
      StepTracks(c, steps[0], high);
      RunTracks(Apply(c, steps[0]), steps[1..], Max(high, Apply(c, steps[0]).current));
      HighestCoversStart(Apply(c, steps[0]), steps[1..]);
    }
  }

  lemma HighestCoversStart(c: Cell, steps: seq<Step>)
    requires IsRun(c, steps)
    ensures Highest(c, steps) >= c.current
  {
  }

  /** Whatever charges, releases and limit changes interleave, `peak` is the exact historical
      maximum of `current` whenever no charge is half done. */
  lemma PeakIsHistoricalMaximum(c: Cell, steps: seq<Step>)
    requires IsRun(c, steps) && c.current <= c.peak && NoChargeInFlight(c)
    requires NoChargeInFlight(After(c, steps))
    ensures After(c, steps).peak == Max(c.peak, Highest(c, steps))
  {
    RunTracks(c, steps, c.peak);
    assert forall t: ThreadId :: !At(After(c, steps), t).Raising?;
  }

  // ---- The limit ----

  /** Checked charges and releases only; the limit stays as configured. */
  ghost predicate OnlyChecked(steps: seq<Step>) {
    forall i :: 0 <= i < |steps| ==> !steps[i].Add? && !steps[i].SetMaximum?
  }

  /** A thread about to exchange has seen room for one more. */
  ghost predicate Bounded(c: Cell, bound: int) {
    && c.maximum <= bound && c.current <= bound
    && forall t: ThreadId :: At(c, t).Checked? ==> At(c, t).seen < c.maximum
  }

  lemma StepBounded(c: Cell, step: Step, bound: int)
    requires Enabled(c, step) && Bounded(c, bound) && !step.Add? && !step.SetMaximum?
    ensures Bounded(Apply(c, step), bound) && Apply(c, step).maximum == c.maximum
  {
    var c' := Apply(c, step);
    forall u: ThreadId ensures At(c', u).Checked? ==> At(c', u).seen < c'.maximum { OthersStay(c, step, u); }
  }

  /** No interleaving of checked charges exceeds the limit (or what was there before). */
  lemma {:induction false} LimitHolds(c: Cell, steps: seq<Step>)
    requires IsRun(c, steps) && OnlyChecked(steps)
    requires forall t: ThreadId :: At(c, t).Idle?
    ensures After(c, steps).current <= Max(c.maximum, c.current)
  {
    RunBounded(c, steps, Max(c.maximum, c.current));
  }

  lemma {:induction false} RunBounded(c: Cell, steps: seq<Step>, bound: int)
    requires IsRun(c, steps) && OnlyChecked(steps) && Bounded(c, bound)
    ensures Bounded(After(c, steps), bound)
    decreases |steps|
  {
    if steps != [] {
      StepBounded(c, steps[0], bound);
      assert OnlyChecked(steps[1..]);
      RunBounded(Apply(c, steps[0]), steps[1..], bound);
    }
  }

  /** Successful exchanges in the run. */
  ghost function Granted(c: Cell, steps: seq<Step>): nat
    requires IsRun(c, steps)
    decreases |steps|
  {
    if steps == [] then 0
    else
      var won := steps[0].Exchange? && c.current == At(c, steps[0].t).seen;
      (if won then 1 else 0) + Granted(Apply(c, steps[0]), steps[1..])
  }

  ghost function ReleasedIn(steps: seq<Step>): nat {
    if steps == [] then 0 else (if steps[0].Subtract? then steps[0].count else 0) + ReleasedIn(steps[1..])
  }

  lemma {:induction false} GrantsAreCounted(c: Cell, steps: seq<Step>)
    requires IsRun(c, steps) && OnlyChecked(steps)
    ensures After(c, steps).current == c.current + Granted(c, steps) - ReleasedIn(steps)
    decreases |steps|
  {
    if steps != [] {
      assert OnlyChecked(steps[1..]);
      GrantsAreCounted(Apply(c, steps[0]), steps[1..]);
    }
  }

  /** From an empty node, concurrent forks win at most as many charges as the limit and the
      releases allow: no race hands out one too many. */
  lemma NoOvershoot(c: Cell, steps: seq<Step>)
    requires IsRun(c, steps) && OnlyChecked(steps) && c.current == 0 && c.maximum >= 0
    requires forall t: ThreadId :: At(c, t).Idle?
    ensures Granted(c, steps) <= c.maximum + ReleasedIn(steps)
  {
    LimitHolds(c, steps);
    GrantsAreCounted(c, steps);
  }
}
