/** The readiness queue: registrations, and wake and close passes over them. */
module PollQueue {

  import opened Options

  /** `waker` names who is woken; `interests` is a set of event bits. */
  datatype Entry = Entry(id: nat, waker: nat, interests: set<nat>, exclusive: bool)

  predicate Matches(e: Entry, ready: set<nat>) {
    e.interests * ready != {}
  }

  /** Whether a pass with this boundary and this many exclusive wakes left takes the entry. */
  predicate Selects(e: Entry, ready: set<nat>, boundary: nat, budget: nat) {
    e.id < boundary && Matches(e, ready) && (!e.exclusive || budget != 0)
  }

  function Spent(e: Entry, budget: nat): nat {
    if e.exclusive && budget > 0 then budget - 1 else budget
  }

  // ---- One pass over the queue, as a filter ----

  function Taken(entries: seq<Entry>, ready: set<nat>, boundary: nat, budget: nat): seq<Entry> {
    if entries == [] then []
    else if Selects(entries[0], ready, boundary, budget) then
      [entries[0]] + Taken(entries[1..], ready, boundary, Spent(entries[0], budget))
    else Taken(entries[1..], ready, boundary, budget)
  }

  function Kept(entries: seq<Entry>, ready: set<nat>, boundary: nat, budget: nat): seq<Entry> {
    if entries == [] then []
    else if Selects(entries[0], ready, boundary, budget) then
      Kept(entries[1..], ready, boundary, Spent(entries[0], budget))
    else [entries[0]] + Kept(entries[1..], ready, boundary, budget)
  }

  function Ids(entries: seq<Entry>): set<nat> {
    set i | 0 <= i < |entries| :: entries[i].id
  }

  function Without(entries: seq<Entry>, i: nat): seq<Entry>
    requires i < |entries|
  {
    entries[..i] + entries[i + 1..]
  }

  ghost predicate NoneBefore(entries: seq<Entry>, ready: set<nat>, boundary: nat, budget: nat, n: nat)
    requires n <= |entries|
  {
    forall j :: 0 <= j < n ==> !Selects(entries[j], ready, boundary, budget)
  }

  /** Taking the first selected entry and starting over is one step of the pass. */
  lemma {:induction false} TakeFirst(entries: seq<Entry>, ready: set<nat>, boundary: nat, budget: nat, i: nat)
    requires i < |entries| && NoneBefore(entries, ready, boundary, budget, i)
    requires Selects(entries[i], ready, boundary, budget)
    ensures
      var budget' := Spent(entries[i], budget);
      && Taken(entries, ready, boundary, budget) == [entries[i]] + Taken(Without(entries, i), ready, boundary, budget')
      && Kept(entries, ready, boundary, budget) == Kept(Without(entries, i), ready, boundary, budget')
    decreases i
  {
    var tail := entries[1..];
    if i == 0 {
      assert Without(entries, 0) == tail;
    } else {
      assert Without(entries, i)[1..] == Without(tail, i - 1);
      assert tail[i - 1] == entries[i];
      TakeFirst(tail, ready, boundary, budget, i - 1);
    }
  }

  lemma {:induction false} NothingToTake(entries: seq<Entry>, ready: set<nat>, boundary: nat, budget: nat)
    requires NoneBefore(entries, ready, boundary, budget, |entries|)
    ensures Taken(entries, ready, boundary, budget) == [] && Kept(entries, ready, boundary, budget) == entries
    decreases |entries|
  {
    if entries != [] {
      NothingToTake(entries[1..], ready, boundary, budget);
    }
  }

  /** After `taken` the rest of the pass, from `entries` on, completes the pass over `before`. */
  ghost predicate MidPass(before: seq<Entry>, all: nat, taken: seq<Entry>, entries: seq<Entry>, ready: set<nat>,
        boundary: nat, budget: nat) {
    && taken + Taken(entries, ready, boundary, budget) == Taken(before, ready, boundary, all)
    && Kept(entries, ready, boundary, budget) == Kept(before, ready, boundary, all)
  }

  lemma PassStep(before: seq<Entry>, all: nat, taken: seq<Entry>, entries: seq<Entry>, ready: set<nat>,
        boundary: nat, budget: nat, i: nat)
    requires MidPass(before, all, taken, entries, ready, boundary, budget)
    requires i < |entries| && NoneBefore(entries, ready, boundary, budget, i)
    requires Selects(entries[i], ready, boundary, budget)
    ensures MidPass(before, all, taken + [entries[i]], Without(entries, i), ready, boundary, Spent(entries[i], budget))
  {
    TakeFirst(entries, ready, boundary, budget, i);
    var rest := Taken(Without(entries, i), ready, boundary, Spent(entries[i], budget));
    assert taken + ([entries[i]] + rest) == (taken + [entries[i]]) + rest;
  }

  // ---- What the pass comes to ----

  function Shared(entries: seq<Entry>, ready: set<nat>, boundary: nat): seq<Entry> {
    if entries == [] then []
    else (if entries[0].id < boundary && Matches(entries[0], ready) && !entries[0].exclusive then [entries[0]] else [])
         + Shared(entries[1..], ready, boundary)
  }

  function Exclusive(entries: seq<Entry>, ready: set<nat>, boundary: nat): seq<Entry> {
    if entries == [] then []
    else (if entries[0].id < boundary && Matches(entries[0], ready) && entries[0].exclusive then [entries[0]] else [])
         + Exclusive(entries[1..], ready, boundary)
  }

  function Prefix(entries: seq<Entry>, n: nat): seq<Entry> {
    if n <= |entries| then entries[..n] else entries
  }

  lemma {:induction false} PassTakesShared(entries: seq<Entry>, ready: set<nat>, boundary: nat, budget: nat)
    ensures Shared(Taken(entries, ready, boundary, budget), ready, boundary) == Shared(entries, ready, boundary)
    decreases |entries|
  {
    if entries != [] {
      var e, tail := entries[0], entries[1..];
      if Selects(e, ready, boundary, budget) {
        PassTakesShared(tail, ready, boundary, Spent(e, budget));
        assert Taken(entries, ready, boundary, budget)[1..] == Taken(tail, ready, boundary, Spent(e, budget));
      } else {
        PassTakesShared(tail, ready, boundary, budget);
      }
    }
  }

  lemma {:induction false} PassTakesExclusive(entries: seq<Entry>, ready: set<nat>, boundary: nat, budget: nat)
    ensures Exclusive(Taken(entries, ready, boundary, budget), ready, boundary) ==
      Prefix(Exclusive(entries, ready, boundary), budget)
    decreases |entries|
  {
    if entries != [] {
      var e, tail := entries[0], entries[1..];
      var rest := Exclusive(tail, ready, boundary);
      if Selects(e, ready, boundary, budget) {
        PassTakesExclusive(tail, ready, boundary, Spent(e, budget));
        assert Taken(entries, ready, boundary, budget)[1..] == Taken(tail, ready, boundary, Spent(e, budget));
        if e.exclusive {
          assert Prefix([e] + rest, budget) == [e] + Prefix(rest, budget - 1);
        }
      } else {
        PassTakesExclusive(tail, ready, boundary, budget);
      }
    }
  }

  lemma {:induction false} PassTakesOnlyMatches(entries: seq<Entry>, ready: set<nat>, boundary: nat, budget: nat)
    ensures
      var taken := Taken(entries, ready, boundary, budget);
      |taken| == |Shared(taken, ready, boundary)| + |Exclusive(taken, ready, boundary)|
    decreases |entries|
  {
    if entries != [] {
      var e, tail := entries[0], entries[1..];
      if Selects(e, ready, boundary, budget) {
        PassTakesOnlyMatches(tail, ready, boundary, Spent(e, budget));
        assert Taken(entries, ready, boundary, budget)[1..] == Taken(tail, ready, boundary, Spent(e, budget));
      } else {
        PassTakesOnlyMatches(tail, ready, boundary, budget);
      }
    }
  }

  /** All matching shared entries, the oldest matching exclusive ones the budget pays for, and
      nothing else. */
  lemma PassTakes(entries: seq<Entry>, ready: set<nat>, boundary: nat, budget: nat)
    ensures
      var taken := Taken(entries, ready, boundary, budget);
      && Shared(taken, ready, boundary) == Shared(entries, ready, boundary)
      && Exclusive(taken, ready, boundary) == Prefix(Exclusive(entries, ready, boundary), budget)
      && |taken| == |Shared(taken, ready, boundary)| + |Exclusive(taken, ready, boundary)|
  {
    PassTakesShared(entries, ready, boundary, budget);
    PassTakesExclusive(entries, ready, boundary, budget);
    PassTakesOnlyMatches(entries, ready, boundary, budget);
  }

  /** `part` is what is left of `whole` after striking some entries out. */
  ghost predicate Subsequence(part: seq<Entry>, whole: seq<Entry>)
    decreases |whole|
  {
    if part == [] then true
    else if whole == [] then false
    else (part[0] == whole[0] && Subsequence(part[1..], whole[1..])) || Subsequence(part, whole[1..])
  }

  /** Every entry is either taken or kept, and both lists are in queue order. */
  lemma {:induction false} PassSplits(entries: seq<Entry>, ready: set<nat>, boundary: nat, budget: nat)
    ensures
      var taken, kept := Taken(entries, ready, boundary, budget), Kept(entries, ready, boundary, budget);
      && multiset(taken) + multiset(kept) == multiset(entries)
      && Subsequence(taken, entries) && Subsequence(kept, entries)
    decreases |entries|
  {
    if entries != [] {
      var e, tail := entries[0], entries[1..];
      assert entries == [e] + tail;
      var budget' := if Selects(e, ready, boundary, budget) then Spent(e, budget) else budget;
      PassSplits(tail, ready, boundary, budget');
      var taken, kept := Taken(entries, ready, boundary, budget), Kept(entries, ready, boundary, budget);
      if Selects(e, ready, boundary, budget) {
        assert taken[1..] == Taken(tail, ready, boundary, budget');
      } else {
        assert kept[1..] == Kept(tail, ready, boundary, budget');
      }
    }
  }

  ghost predicate Ascending(entries: seq<Entry>) {
    forall i, j :: 0 <= i < j < |entries| ==> entries[i].id < entries[j].id
  }

  // ---- The queue object ----

  class PollState {
    var entries: seq<Entry>
    var nextId: nat
    var closed: bool
    var notified: set<nat>      // the registrations whose flag is set
    var woken: seq<nat>         // wakers called so far

    ghost predicate Valid()
      reads this
    {
      && Ascending(entries)
      && (forall i :: 0 <= i < |entries| ==> entries[i].id < nextId && entries[i].id !in notified)
      && (forall id :: id in notified ==> id < nextId)
    }

    constructor ()
      ensures Valid() && entries == [] && nextId == 0 && !closed && woken == []
    {
      entries, nextId, closed, notified, woken := [], 0, false, {}, [];
    }

    method Register(waker: nat, interests: set<nat>, exclusive: bool) returns (r: Option<nat>)
      requires Valid()
      modifies this`entries, this`nextId
      ensures Valid()
      ensures r.None? <==> closed || interests == {}
      ensures r.None? ==> entries == old(entries) && nextId == old(nextId)
      ensures r.Some? ==> r.value == old(nextId) && nextId == old(nextId) + 1
      ensures r.Some? ==> entries == old(entries) + [Entry(r.value, waker, interests, exclusive)]
    {
      if closed || interests == {} {
        return None;
      }
      var id := nextId;
      nextId := nextId + 1;
      entries := entries + [Entry(id, waker, interests, exclusive)];
      return Some(id);
    }

    /** Strikes out the entry with this id, if it is still queued, and no other. */
    method Unregister(id: nat)
      requires Valid()
      modifies this`entries
      ensures Valid() && id !in Ids(entries)
      ensures id !in old(Ids(entries)) ==> entries == old(entries)
      ensures id in old(Ids(entries)) ==>
        exists i :: 0 <= i < |old(entries)| && old(entries)[i].id == id && entries == Without(old(entries), i)
    {
      for index := 0 to |entries|
        invariant entries == old(entries)
        invariant forall j :: 0 <= j < index ==> entries[j].id != id
      {
        if entries[index].id == id {
          entries := Without(entries, index);
          return;
        }
      }
    }

    /** Position of the first entry the pass selects, or the length of the queue. */
    method Position(ready: set<nat>, boundary: nat, budget: nat) returns (index: nat)
      ensures index <= |entries| && NoneBefore(entries, ready, boundary, budget, index)
      ensures index < |entries| ==> Selects(entries[index], ready, boundary, budget)
    {
      index := 0;
      while index < |entries| && !Selects(entries[index], ready, boundary, budget)
        invariant index <= |entries| && NoneBefore(entries, ready, boundary, budget, index)
      {
        index := index + 1;
      }
    }

    method PositionBefore(boundary: nat) returns (index: nat)
      ensures index <= |entries| && forall j :: 0 <= j < index ==> entries[j].id >= boundary
      ensures index < |entries| ==> entries[index].id < boundary
    {
      index := 0;
      while index < |entries| && entries[index].id >= boundary
        invariant index <= |entries| && forall j :: 0 <= j < index ==> entries[j].id >= boundary
      {
        index := index + 1;
      }
    }

    /** What the flags and wakers look like once `taken` has been dealt with. */
    ghost predicate Served(notified0: set<nat>, woken0: seq<nat>, taken: seq<Entry>)
      reads this
    {
      notified == notified0 + Ids(taken) && woken == woken0 + Wakers(taken)
    }

    /** Under the lock the entry leaves the queue with its flag set; its waker is called after. */
    method TakeAndWake(index: nat, ghost notified0: set<nat>, ghost woken0: seq<nat>, ghost taken: seq<Entry>)
      returns (e: Entry)
      requires Valid() && index < |entries| && Served(notified0, woken0, taken)
      modifies this`entries, this`notified, this`woken
      ensures Valid() && e == old(entries)[index] && entries == Without(old(entries), index)
      ensures Served(notified0, woken0, taken + [e])
    {
      e := entries[index];
      notified := notified + {e.id};
      entries := Without(entries, index);
      woken := woken + [e.waker];
      WakersExtend(taken, e);
    }

    /** Takes one entry after another, each time from the front of the queue. Left alone, the
        passes add up to a single filter of the queue it found. */
    method WakeWith(ready: set<nat>, exclusiveBudget: nat) returns (woke: nat)
      requires Valid()
      modifies this`entries, this`notified, this`woken
      ensures Valid()
      ensures
        var taken := Taken(old(entries), ready, nextId, exclusiveBudget);
        && entries == Kept(old(entries), ready, nextId, exclusiveBudget)
        && woken == old(woken) + Wakers(taken)
        && notified == old(notified) + Ids(taken)
        && woke == |taken|
    {
      var boundary := nextId;
      var budget := exclusiveBudget;
      ghost var taken: seq<Entry> := [];
      woke := 0;
      while true
        invariant Valid() && woke == |taken|
        invariant MidPass(old(entries), exclusiveBudget, taken, entries, ready, boundary, budget)
        invariant Served(old(notified), old(woken), taken)
        decreases |entries|
      {
        var index := Position(ready, boundary, budget);
        if index == |entries| {
          NothingToTake(entries, ready, boundary, budget);
          assert taken + [] == taken;
          return;
        }
        PassStep(old(entries), exclusiveBudget, taken, entries, ready, boundary, budget, index);
        var entry := TakeAndWake(index, old(notified), old(woken), taken);
        if entry.exclusive {
          budget := budget - 1;
        }
        woke := woke + 1;
        taken := taken + [entry];
      }
    }

    /** The front goes: what was taken and what is left still make up the whole queue. */
    method TakeFront(index: nat, ghost all: seq<Entry>, ghost notified0: set<nat>, ghost woken0: seq<nat>,
          ghost taken: seq<Entry>) returns (ghost e: Entry)
      requires Valid() && index == 0 && entries != [] && taken + entries == all && Served(notified0, woken0, taken)
      modifies this`entries, this`notified, this`woken
      ensures Valid() && |entries| < |old(entries)|
      ensures taken + [e] + entries == all && Served(notified0, woken0, taken + [e])
    {
      ShiftFirst(taken, entries);
      var front := TakeAndWake(index, notified0, woken0, taken);
      e := front;
    }

    /** Everything queued is below a boundary taken now. */
    method FrontBefore(boundary: nat) returns (index: nat)
      requires Valid() && boundary == nextId
      ensures index == 0
    {
      index := PositionBefore(boundary);
      assert entries != [] ==> entries[0].id < boundary;
    }

    method TakeAll(boundary: nat)
      requires Valid() && boundary == nextId
      modifies this`entries, this`notified, this`woken
      ensures Valid() && entries == [] && Served(old(notified), old(woken), old(entries))
    {
      ghost var taken: seq<Entry> := [];
      while true
        invariant Valid() && taken + entries == old(entries) && Served(old(notified), old(woken), taken)
        decreases |entries|
      {
        var index := FrontBefore(boundary);
        if index == |entries| {
          assert taken == old(entries);
          return;
        }
        ghost var e := TakeFront(index, old(entries), old(notified), old(woken), taken);
        taken := taken + [e];
      }
    }

    /** Left alone, close wakes every queued entry in order and leaves nothing. */
    method Close()
      requires Valid()
      modifies this`entries, this`notified, this`woken, this`closed
      ensures Valid() && closed && entries == []
      ensures woken == old(woken) + Wakers(old(entries)) && notified == old(notified) + Ids(old(entries))
    {
      closed := true;
      TakeAll(nextId);
    }
  }

  lemma ShiftFirst(taken: seq<Entry>, entries: seq<Entry>)
    requires entries != []
    ensures (taken + [entries[0]]) + Without(entries, 0) == taken + entries
  {
  }

  function Wakers(entries: seq<Entry>): seq<nat> {
    seq(|entries|, i requires 0 <= i < |entries| => entries[i].waker)
  }

  lemma WakersExtend(entries: seq<Entry>, e: Entry)
    ensures Wakers(entries + [e]) == Wakers(entries) + [e.waker]
    ensures Ids(entries + [e]) == Ids(entries) + {e.id}
  {
    var more := entries + [e];
    assert more[|entries|] == e;
    forall id | id in Ids(entries) + {e.id} ensures id in Ids(more) {
      if id in Ids(entries) {
        var i :| 0 <= i < |entries| && entries[i].id == id;
        assert more[i].id == id;
      }
    }
  }
}
