/** Choosing the first processor of a new task. */
module Placement {

  import opened Options

  type Demand = n: nat | n < 0x1_0000_0000_0000_0000
  type Capacity = n: nat | n < 0x1_0000

  datatype Candidate = Candidate(cpu: nat, demand: Demand, capacity: Capacity)

  datatype Ordering = Less | Equal | Greater {
    function Then(other: Ordering): Ordering { if this == Equal then other else this }
  }

  function CompareInt(a: int, b: int): Ordering {
    if a < b then Less else if a == b then Equal else Greater
  }

  function CompareBool(a: bool, b: bool): Ordering {
    if a == b then Equal else if b then Less else Greater
  }

  function Divisor(c: Candidate): nat { if c.capacity == 0 then 1 else c.capacity }

  /** Ratios are compared by cross multiplication. */
  function Compare(a: Candidate, b: Candidate, preferred: Option<nat>): Ordering {
    CompareBool(a.capacity == 0, b.capacity == 0)
      .Then(CompareInt(a.demand * Divisor(b), b.demand * Divisor(a)))
      .Then(CompareInt(b.capacity, a.capacity))
      .Then(CompareBool(Some(a.cpu) != preferred, Some(b.cpu) != preferred))
      .Then(CompareInt(a.cpu, b.cpu))
  }

  /** The earlier of two equal candidates is kept. */
  function MinBy(candidates: seq<Candidate>, preferred: Option<nat>): (m: Candidate)
    requires candidates != []
    ensures m in candidates
  {
    var last := candidates[|candidates| - 1];
    if |candidates| == 1 then last
    else
      var best := MinBy(candidates[..|candidates| - 1], preferred);
      if Compare(best, last, preferred) == Greater then last else best
  }

  function SelectInitialCpu(candidates: seq<Candidate>, preferred: Option<nat>): Option<nat> {
    if candidates == [] then None else Some(MinBy(candidates, preferred).cpu)
  }

  // ---- What the comparator means ----

  function Ratio(c: Candidate): real { c.demand as real / Divisor(c) as real }

  /** Usable processors first, then the lower load per unit of capacity, the larger capacity,
      the preferred processor, the lower index. */
  predicate Better(a: Candidate, b: Candidate, preferred: Option<nat>) {
    || (a.capacity != 0 && b.capacity == 0)
    || ((a.capacity == 0 <==> b.capacity == 0) &&
        (|| Ratio(a) < Ratio(b)
         || (Ratio(a) == Ratio(b) &&
             (|| a.capacity > b.capacity
              || (a.capacity == b.capacity &&
                  (|| (Some(a.cpu) == preferred && Some(b.cpu) != preferred)
                   || ((Some(a.cpu) == preferred <==> Some(b.cpu) == preferred) && a.cpu < b.cpu)))))))
  }

  lemma QuotientOrder(n: real, d: real, m: real, e: real)
    requires d > 0.0 && e > 0.0
    ensures n * e < m * d <==> n / d < m / e
    ensures n * e == m * d <==> n / d == m / e
  {
  }

  lemma CrossMultiplication(a: Candidate, b: Candidate)
    ensures a.demand * Divisor(b) < b.demand * Divisor(a) <==> Ratio(a) < Ratio(b)
    ensures a.demand * Divisor(b) == b.demand * Divisor(a) <==> Ratio(a) == Ratio(b)
  {
    QuotientOrder(a.demand as real, Divisor(a) as real, b.demand as real, Divisor(b) as real);
    CastProduct(a.demand, Divisor(b));
    CastProduct(b.demand, Divisor(a));
  }

  lemma CastProduct(x: int, y: int)
    ensures (x * y) as real == x as real * y as real
  {
  }

  lemma EqualRatios(a: Candidate, b: Candidate)
    requires Divisor(a) == Divisor(b) && Ratio(a) == Ratio(b)
    ensures a.demand == b.demand
  {
  }

  /** The products fit the 128-bit integers they are computed in, at any saturation. */
  lemma ProductsFit(a: Candidate, b: Candidate)
    ensures a.demand * Divisor(b) < 0x1_0000_0000_0000_0000_0000_0000_0000_0000
  {
  }

  /** The comparator is the strict total order of preference, equal only on equal candidates. */
  lemma CompareIsPreference(a: Candidate, b: Candidate, preferred: Option<nat>)
    ensures Compare(a, b, preferred) == Less <==> Better(a, b, preferred)
    ensures Compare(a, b, preferred) == Greater <==> Better(b, a, preferred)
    ensures Compare(a, b, preferred) == Equal <==> a == b
  {
    CrossMultiplication(a, b);
    CrossMultiplication(b, a);
    if a.capacity == b.capacity && Ratio(a) == Ratio(b) {
      EqualRatios(a, b);
    }
  }

  predicate NoWorse(a: Candidate, b: Candidate, preferred: Option<nat>) {
    Compare(a, b, preferred) != Greater
  }

  lemma NoWorseIsTotal(a: Candidate, b: Candidate, preferred: Option<nat>)
    ensures NoWorse(a, b, preferred) || NoWorse(b, a, preferred)
    ensures NoWorse(a, b, preferred) && NoWorse(b, a, preferred) <==> a == b
  {
  }

  lemma NoWorseIsTransitive(a: Candidate, b: Candidate, c: Candidate, preferred: Option<nat>)
    requires NoWorse(a, b, preferred) && NoWorse(b, c, preferred)
    ensures NoWorse(a, c, preferred)
  {
    CompareIsPreference(a, b, preferred);
    CompareIsPreference(b, c, preferred);
    CompareIsPreference(a, c, preferred);
  }

  lemma {:induction false} MinIsBest(candidates: seq<Candidate>, preferred: Option<nat>, c: Candidate)
    requires c in candidates
    ensures NoWorse(MinBy(candidates, preferred), c, preferred)
  {
    var n := |candidates| - 1;
    var last := candidates[n];
    NoWorseIsTotal(last, last, preferred);
    if n > 0 {
      var best := MinBy(candidates[..n], preferred);
      NoWorseIsTotal(best, last, preferred);
      if c != last {
        assert c in candidates[..n];
        MinIsBest(candidates[..n], preferred, c);
        if !NoWorse(best, last, preferred) {
          NoWorseIsTransitive(last, best, c, preferred);
        }
      }
    }
  }

  /** The choice depends on which candidates there are, not on the order they come in. */
  lemma SelectionIgnoresOrder(xs: seq<Candidate>, ys: seq<Candidate>, preferred: Option<nat>)
    requires forall c :: c in xs <==> c in ys
    ensures SelectInitialCpu(xs, preferred) == SelectInitialCpu(ys, preferred)
  {
    assert xs != [] ==> xs[0] in ys;
    assert ys != [] ==> ys[0] in xs;
    if xs != [] {
      var m, n := MinBy(xs, preferred), MinBy(ys, preferred);
      MinIsBest(xs, preferred, n);
      MinIsBest(ys, preferred, m);
      NoWorseIsTotal(m, n, preferred);
    }
  }

  /** The chosen processor is a candidate no other candidate is better than; none is chosen
      only when there are none. */
  lemma SelectionIsBest(candidates: seq<Candidate>, preferred: Option<nat>)
    ensures SelectInitialCpu(candidates, preferred).None? <==> candidates == []
    ensures candidates != [] ==> exists m ::
      && m in candidates && SelectInitialCpu(candidates, preferred) == Some(m.cpu)
      && forall c :: c in candidates ==> !Better(c, m, preferred)
  {
    if candidates != [] {
      var m := MinBy(candidates, preferred);
      forall c | c in candidates ensures !Better(c, m, preferred) {
        MinIsBest(candidates, preferred, c);
        CompareIsPreference(m, c, preferred);
      }
    }
  }
}
