/** Loadable segments: sorting, the overlap check, the page span and address translation. */
module ElfSegments {
  import opened Numbers
  import opened Options

  const WORD_LIMIT := U64_MAX + 1
  const PAGE := 4096

  datatype Segment = Segment(fileOffset: nat, virtualAddress: nat, physicalAddress: nat,
                             fileSize: nat, memorySize: nat, flags: nat) {
    function End(): nat { physicalAddress + memorySize }

    /** Its addresses are machine words and it occupies some memory. */
    predicate Solid() { physicalAddress < WORD_LIMIT && memorySize > 0 }

    predicate Executable() { flags % 2 == 1 }

    predicate Maps(value: nat) { virtualAddress <= value < virtualAddress + memorySize }
  }

  // ---- Sorting by physical address ----

  /** After every segment with the same or a lower address. */
  function Insert(s: seq<Segment>, x: Segment): seq<Segment> {
    if s != [] && x.physicalAddress < s[|s| - 1].physicalAddress then Insert(s[..|s| - 1], x) + [s[|s| - 1]]
    else s + [x]
  }

  function SortByAddress(s: seq<Segment>): seq<Segment> {
    if s == [] then [] else Insert(SortByAddress(s[..|s| - 1]), s[|s| - 1])
  }

  ghost predicate Sorted(s: seq<Segment>) {
    forall i, j :: 0 <= i < j < |s| ==> s[i].physicalAddress <= s[j].physicalAddress
  }

  lemma {:induction false} InsertAdds(s: seq<Segment>, x: Segment)
    ensures multiset(Insert(s, x)) == multiset(s) + multiset{x}
    ensures forall y :: y in Insert(s, x) <==> y in s || y == x
    decreases |s|
  {
    if s != [] && x.physicalAddress < s[|s| - 1].physicalAddress {
      assert s == s[..|s| - 1] + [s[|s| - 1]];
      InsertAdds(s[..|s| - 1], x);
    }
  }

  lemma {:induction false} InsertSorts(s: seq<Segment>, x: Segment)
    requires Sorted(s)
    ensures Sorted(Insert(s, x))
    decreases |s|
  {
    if s != [] && x.physicalAddress < s[|s| - 1].physicalAddress {
      var front, last := s[..|s| - 1], s[|s| - 1];
      InsertSorts(front, x);
      InsertAdds(front, x);
      forall y | y in Insert(front, x) ensures y.physicalAddress <= last.physicalAddress {
        if y in front {
          var i :| 0 <= i < |front| && front[i] == y;
        }
      }
    }
  }

  lemma {:induction false} SortSorts(s: seq<Segment>)
    ensures Sorted(SortByAddress(s)) && multiset(SortByAddress(s)) == multiset(s)
    decreases |s|
  {
    if s != [] {
      var front, last := s[..|s| - 1], s[|s| - 1];
      assert s == front + [last];
      SortSorts(front);
      InsertSorts(SortByAddress(front), last);
      InsertAdds(SortByAddress(front), last);
    }
  }

  lemma SortKeepsElements(s: seq<Segment>)
    ensures |SortByAddress(s)| == |s| && forall x :: x in SortByAddress(s) <==> x in s
  {
    SortSorts(s);
    assert |multiset(SortByAddress(s))| == |multiset(s)|;
    forall x ensures x in SortByAddress(s) <==> x in s {
      assert x in multiset(SortByAddress(s)) <==> x in multiset(s);
    }
  }

  // ---- Disjointness ----

  predicate Disjoint(a: Segment, b: Segment) {
    a.End() <= b.physicalAddress || b.End() <= a.physicalAddress
  }

  ghost predicate PairwiseDisjoint(s: seq<Segment>) {
    forall i, j :: 0 <= i < j < |s| ==> Disjoint(s[i], s[j])
  }

  ghost predicate ApartFrom(s: seq<Segment>, x: Segment) {
    forall y :: y in s ==> Disjoint(y, x)
  }

  lemma PairwiseExtend(s: seq<Segment>, x: Segment)
    ensures PairwiseDisjoint(s + [x]) <==> PairwiseDisjoint(s) && ApartFrom(s, x)
  {
    var t := s + [x];
    if PairwiseDisjoint(t) {
      forall i, j | 0 <= i < j < |s| ensures Disjoint(s[i], s[j]) {
        assert Disjoint(t[i], t[j]);
      }
      forall y | y in s ensures Disjoint(y, x) {
        var i :| 0 <= i < |s| && s[i] == y;
        assert Disjoint(t[i], t[|s|]);
      }
    }
  }

  /** Where a segment is inserted makes no difference to disjointness. */
  lemma {:induction false} InsertKeepsDisjoint(s: seq<Segment>, x: Segment)
    ensures PairwiseDisjoint(Insert(s, x)) <==> PairwiseDisjoint(s) && ApartFrom(s, x)
    decreases |s|
  {
    if s != [] && x.physicalAddress < s[|s| - 1].physicalAddress {
      var front, last := s[..|s| - 1], s[|s| - 1];
      assert s == front + [last];
      InsertKeepsDisjoint(front, x);
      InsertAdds(front, x);
      PairwiseExtend(Insert(front, x), last);
      PairwiseExtend(front, last);
      assert ApartFrom(Insert(front, x), last) <==> ApartFrom(front, last) && Disjoint(x, last);
      assert ApartFrom(s, x) <==> ApartFrom(front, x) && Disjoint(last, x);
    } else {
      PairwiseExtend(s, x);
    }
  }

  lemma {:induction false} SortKeepsDisjoint(s: seq<Segment>)
    ensures PairwiseDisjoint(SortByAddress(s)) <==> PairwiseDisjoint(s)
    decreases |s|
  {
    if s != [] {
      var front, last := s[..|s| - 1], s[|s| - 1];
      assert s == front + [last];
      SortKeepsDisjoint(front);
      SortKeepsElements(front);
      InsertKeepsDisjoint(SortByAddress(front), last);
      PairwiseExtend(front, last);
    }
  }

  /** The check made on neighbours, with the addition checked for overflow. */
  predicate RangesOverlap(start: nat, size: nat, next: nat) {
    start + size >= WORD_LIMIT || start + size > next
  }

  ghost predicate NeighboursOverlap(s: seq<Segment>) {
    exists i :: 0 < i < |s| && RangesOverlap(s[i - 1].physicalAddress, s[i - 1].memorySize, s[i].physicalAddress)
  }

  lemma {:induction false} NeighboursSuffice(s: seq<Segment>, i: nat, j: nat)
    requires i < j < |s| && Sorted(s) && !NeighboursOverlap(s) && forall x :: x in s ==> x.Solid()
    ensures s[i].End() <= s[j].physicalAddress
    decreases j
  {
    assert !RangesOverlap(s[j - 1].physicalAddress, s[j - 1].memorySize, s[j].physicalAddress);
    if i < j - 1 { NeighboursSuffice(s, i, j - 1); }
  }

  /** Comparing neighbours of the sorted list decides disjointness of every pair. */
  lemma NeighboursDecide(s: seq<Segment>)
    requires Sorted(s) && forall x :: x in s ==> x.Solid()
    ensures !NeighboursOverlap(s) <==> PairwiseDisjoint(s)
  {
    if !NeighboursOverlap(s) {
      forall i, j | 0 <= i < j < |s| ensures Disjoint(s[i], s[j]) {
        NeighboursSuffice(s, i, j);
      }
    }
    if PairwiseDisjoint(s) {
      forall i | 0 < i < |s|
        ensures !RangesOverlap(s[i - 1].physicalAddress, s[i - 1].memorySize, s[i].physicalAddress)
      {
        assert Disjoint(s[i - 1], s[i]) && s[i - 1] in s && s[i] in s;
      }
    }
  }

  /** The windows of the sorted list, one after another. */
  method AnyNeighboursOverlap(s: seq<Segment>) returns (found: bool)
    ensures found <==> NeighboursOverlap(s)
  {
    var i := 1;
    while i < |s|
      invariant i >= 1
      invariant forall k :: 0 < k < i && k < |s| ==>
        !RangesOverlap(s[k - 1].physicalAddress, s[k - 1].memorySize, s[k].physicalAddress)
    {
      if RangesOverlap(s[i - 1].physicalAddress, s[i - 1].memorySize, s[i].physicalAddress) {
        return true;
      }
      i := i + 1;
    }
    return false;
  }

  // ---- The page span ----

  function AlignDown(value: nat): nat { value - value % PAGE }

  function AlignUp(value: nat): Option<nat> {
    if value + PAGE - 1 >= WORD_LIMIT then None else Some(AlignDown(value + PAGE - 1))
  }

  /** The nearest page boundaries on either side. */
  lemma AlignmentIsTight(value: nat)
    ensures AlignDown(value) % PAGE == 0 && AlignDown(value) <= value < AlignDown(value) + PAGE
    ensures AlignUp(value).Some? ==>
      && AlignUp(value).value % PAGE == 0
      && AlignUp(value).value - PAGE < value <= AlignUp(value).value
  {
  }

  /** Lowest address, and highest end unless some end overflows. */
  method Bounds(s: seq<Segment>) returns (first: nat, lastEnd: Option<nat>)
    requires s != []
    ensures (forall x :: x in s ==> first <= x.physicalAddress) && exists x :: x in s && first == x.physicalAddress
    ensures lastEnd.None? <==> exists x :: x in s && x.End() >= WORD_LIMIT
    ensures lastEnd.Some? ==> forall x :: x in s ==> x.End() <= lastEnd.value
    ensures lastEnd.Some? ==> exists x :: x in s && lastEnd.value == x.End()
  {
    first := s[0].physicalAddress;
    assert s[0] in s;
    for i := 1 to |s|
      invariant forall k :: 0 <= k < i ==> first <= s[k].physicalAddress
      invariant exists x :: x in s && first == x.physicalAddress
    {
      if s[i].physicalAddress < first {
        first := s[i].physicalAddress;
        assert s[i] in s;
      }
    }
    var last := 0;
    for i := 0 to |s|
      invariant forall k :: 0 <= k < i ==> s[k].End() <= last && s[k].End() < WORD_LIMIT
      invariant (i == 0 && last == 0) || exists x :: x in s && last == x.End()
    {
      var end := s[i].End();
      assert s[i] in s;
      if end >= WORD_LIMIT {
        return first, None;
      }
      if end > last {
        last := end;
      }
    }
    lastEnd := Some(last);
  }

  // ---- Virtual to physical ----

  /** The first executable segment that maps the address. */
  function ExecutablePhysical(value: nat, s: seq<Segment>): Option<nat> {
    if s == [] then None
    else
      var x := s[0];
      if x.Executable() && x.Maps(value) && x.physicalAddress + (value - x.virtualAddress) < WORD_LIMIT then
        Some(x.physicalAddress + (value - x.virtualAddress))
      else ExecutablePhysical(value, s[1..])
  }

  ghost predicate Resolves(x: Segment, value: nat, address: nat) {
    && x.Executable() && x.physicalAddress <= address < x.End()
    && address - x.physicalAddress == value - x.virtualAddress
  }

  /** A resolved address lies in an executable segment, at the offset it has virtually; nothing
      is resolved only when no executable segment maps the address. */
  lemma {:induction false} ResolutionIsExecutable(value: nat, s: seq<Segment>)
    requires forall x :: x in s ==> x.End() < WORD_LIMIT
    ensures ExecutablePhysical(value, s).None? <==> forall x :: x in s ==> !(x.Executable() && x.Maps(value))
    ensures ExecutablePhysical(value, s).Some? ==>
      exists x :: x in s && Resolves(x, value, ExecutablePhysical(value, s).value)
    decreases |s|
  {
    if s != [] {
      assert s[0] in s;
      assert forall x :: x in s <==> x == s[0] || x in s[1..];
      ResolutionIsExecutable(value, s[1..]);
      if ExecutablePhysical(value, s).Some? {
        if s[0].Executable() && s[0].Maps(value) {
          assert Resolves(s[0], value, ExecutablePhysical(value, s).value);
        } else {
          var x :| x in s[1..] && Resolves(x, value, ExecutablePhysical(value, s).value);
          assert x in s;
        }
      }
    }
  }
}
