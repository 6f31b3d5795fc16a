/** The queue object takes the steps of the interleaved protocol: registering and cancelling are one
    step each, and an undisturbed wake or close is a run of takes and waker calls. */
module PollSteps {
  import opened Options
  import opened PollQueue
  import opened PollProtocol

  /** The object holds the queue of the protocol state. */
  ghost predicate Mirrors(q: PollState, s: State)
    reads q
  {
    q.entries == s.entries && q.nextId == s.nextId && q.closed == s.closed && q.notified == s.notified
  }

  method OnRegister(q: PollState, waker: nat, interests: set<nat>, exclusive: bool, ghost s: State)
    returns (r: Option<nat>)
    requires q.Valid() && Mirrors(q, s)
    modifies q
    ensures q.Valid() && Mirrors(q, Next(s, Step.Register(waker, interests, exclusive)))
    ensures
      var s' := Next(s, Step.Register(waker, interests, exclusive));
      if r.Some? then s'.leases == s.leases + {r.value} else s' == s
  {
    r := q.Register(waker, interests, exclusive);
  }

  method OnCancel(q: PollState, id: nat, ghost s: State)
    requires q.Valid() && Mirrors(q, s) && Legal(s, Cancel(id))
    modifies q
    ensures q.Valid() && Mirrors(q, Next(s, Cancel(id)))
  {
    StrikeOnce(q.entries, id);
    q.Unregister(id);
  }

  /** Ids are distinct, so any way of striking out the entry is the same. */
  lemma StrikeOnce(entries: seq<Entry>, id: nat)
    requires Ascending(entries)
    ensures forall i :: 0 <= i < |entries| && entries[i].id == id ==> Strike(entries, id) == Without(entries, i)
    ensures id !in Ids(entries) ==> Strike(entries, id) == entries
  {
    StrikeIsWithout(entries, id);
    forall i | 0 <= i < |entries| && entries[i].id == id ensures Strike(entries, id) == Without(entries, i) {
      assert entries[i].id in Ids(entries);
      var j :| 0 <= j < |entries| && entries[j].id == id && Strike(entries, id) == Without(entries, j);
    }
  }

  // ---- A pass left alone ----

  ghost function Calls(taken: seq<Entry>): multiset<nat> {
    if taken == [] then multiset{} else multiset{taken[0].id} + Calls(taken[1..])
  }

  /** What a wake pass leaves behind that nothing comes between. */
  ghost function Passed(s: State, t: nat): State
    requires t in s.passes
  {
    var p := s.passes[t];
    var taken := Taken(s.entries, p.ready, p.boundary, p.budget);
    s.(entries := Kept(s.entries, p.ready, p.boundary, p.budget), notified := s.notified + Ids(taken),
       passes := s.passes - {t}, delivered := s.delivered + Calls(taken))
  }

  /** Taking one entry and calling its waker. */
  ghost function Served(s: State, t: nat): State
    requires Legal(s, Take(t)) && FirstPick(s.entries, s.passes[t]) < |s.entries|
  {
    Next(Next(s, Take(t)), Deliver(t))
  }

  /** The entry whose waker a step calls. */
  ghost function CalledBy(s: State, step: Step): seq<Entry>
    requires Legal(s, step)
  {
    if step.Deliver? then [s.passes[step.pass].inflight.value] else []
  }

  /** The entries whose wakers a run calls, in order. */
  ghost function Called(s: State, steps: seq<Step>): seq<Entry>
    requires IsRun(s, steps)
    decreases |steps|
  {
    if steps == [] then [] else CalledBy(s, steps[0]) + Called(Next(s, steps[0]), steps[1..])
  }

  lemma RunOn(s: State, step: Step, steps: seq<Step>)
    requires Legal(s, step) && IsRun(Next(s, step), steps)
    ensures IsRun(s, [step] + steps) && After(s, [step] + steps) == After(Next(s, step), steps)
    ensures Called(s, [step] + steps) == CalledBy(s, step) + Called(Next(s, step), steps)
  {
    assert ([step] + steps)[1..] == steps;
  }

  lemma ServedIs(s: State, t: nat)
    requires Legal(s, Take(t)) && FirstPick(s.entries, s.passes[t]) < |s.entries|
    ensures
      var i := FirstPick(s.entries, s.passes[t]);
      var e := s.entries[i];
      Served(s, t) == s.(entries := Without(s.entries, i), notified := s.notified + {e.id},
                         passes := s.passes[t := Took(s.passes[t], e).(inflight := None)],
                         delivered := s.delivered + multiset{e.id})
  {
    var e := s.entries[FirstPick(s.entries, s.passes[t])];
    assert s.passes[t := Took(s.passes[t], e)][t := Took(s.passes[t], e).(inflight := None)] ==
      s.passes[t := Took(s.passes[t], e).(inflight := None)];
  }

  lemma ServedPasses(s: State, t: nat)
    requires Legal(s, Take(t)) && !s.passes[t].closing && FirstPick(s.entries, s.passes[t]) < |s.entries|
    ensures t in Served(s, t).passes && Passed(Served(s, t), t) == Passed(s, t)
  {
    var p := s.passes[t];
    var i := FirstPick(s.entries, p);
    var e := s.entries[i];
    ServedIs(s, t);
    TakeFirst(s.entries, p.ready, p.boundary, p.budget, i);
    OneMore(e, Taken(Without(s.entries, i), p.ready, p.boundary, Spent(e, p.budget)), s.notified, s.delivered);
    assert Served(s, t).passes - {t} == s.passes - {t};
  }

  lemma OneMore(e: Entry, rest: seq<Entry>, notified: set<nat>, delivered: multiset<nat>)
    ensures notified + Ids([e] + rest) == notified + {e.id} + Ids(rest)
    ensures delivered + Calls([e] + rest) == delivered + multiset{e.id} + Calls(rest)
  {
    IdsFirst(e, rest);
    assert ([e] + rest)[1..] == rest;
  }

  lemma IdsFirst(e: Entry, rest: seq<Entry>)
    ensures Ids([e] + rest) == {e.id} + Ids(rest)
  {
    forall x | x in Ids(rest) ensures x in Ids([e] + rest) {
      var i :| 0 <= i < |rest| && rest[i].id == x;
      assert ([e] + rest)[i + 1].id == x;
    }
    assert ([e] + rest)[0].id == e.id;
  }

  /** Serving an entry and then going on. */
  lemma ServeThenRun(s: State, t: nat, rest: seq<Step>) returns (steps: seq<Step>)
    requires Legal(s, Take(t)) && FirstPick(s.entries, s.passes[t]) < |s.entries|
    requires IsRun(Served(s, t), rest)
    ensures IsRun(s, steps) && After(s, steps) == After(Served(s, t), rest)
    ensures Called(s, steps) == [s.entries[FirstPick(s.entries, s.passes[t])]] + Called(Served(s, t), rest)
  {
    RunOn(Next(s, Take(t)), Deliver(t), rest);
    RunOn(s, Take(t), [Deliver(t)] + rest);
    steps := [Take(t)] + ([Deliver(t)] + rest);
  }

  lemma LastTake(s: State, t: nat)
    requires Legal(s, Take(t))
    ensures IsRun(s, [Take(t)]) && After(s, [Take(t)]) == Next(s, Take(t)) && Called(s, [Take(t)]) == []
  {
    RunOn(s, Take(t), []);
  }

  lemma {:induction false} PassRuns(s: State, t: nat) returns (steps: seq<Step>)
    requires Legal(s, Take(t)) && !s.passes[t].closing
    ensures IsRun(s, steps) && After(s, steps) == Passed(s, t)
    ensures Called(s, steps) == Taken(s.entries, s.passes[t].ready, s.passes[t].boundary, s.passes[t].budget)
    decreases |s.entries|
  {
    var p := s.passes[t];
    var i := FirstPick(s.entries, p);
    if i == |s.entries| {
      NothingToTake(s.entries, p.ready, p.boundary, p.budget);
      steps := [Take(t)];
      LastTake(s, t);
    } else {
      TakeFirst(s.entries, p.ready, p.boundary, p.budget, i);
      ServedPasses(s, t);
      var rest := PassRuns(Served(s, t), t);
      steps := ServeThenRun(s, t, rest);
    }
  }

  lemma WakeRuns(s: State, t: nat, ready: set<nat>, budget: nat) returns (steps: seq<Step>)
    requires t !in s.passes
    ensures IsRun(s, steps)
    ensures
      var s', taken := After(s, steps), Taken(s.entries, ready, s.nextId, budget);
      && s'.entries == Kept(s.entries, ready, s.nextId, budget) && s'.notified == s.notified + Ids(taken)
      && s'.nextId == s.nextId && s'.closed == s.closed && s'.passes == s.passes && Called(s, steps) == taken
  {
    var begin := BeginWake(t, ready, budget);
    var rest := PassRuns(Next(s, begin), t);
    RunOn(s, begin, rest);
    steps := [begin] + rest;
    assert Next(s, begin).passes - {t} == s.passes;
  }

  /** A wake call that nothing comes between is a run of the protocol, pass `t` from begin to end, and
      the wakers the object calls are those the run delivers, in its order. */
  method OnWake(q: PollState, ready: set<nat>, budget: nat, ghost s: State, ghost t: nat)
    returns (woke: nat, ghost steps: seq<Step>)
    requires q.Valid() && Mirrors(q, s) && t !in s.passes
    modifies q
    ensures q.Valid() && IsRun(s, steps) && Mirrors(q, After(s, steps)) && After(s, steps).passes == s.passes
    ensures q.woken == old(q.woken) + Wakers(Called(s, steps))
  {
    steps := WakeRuns(s, t, ready, budget);
    woke := q.WakeWith(ready, budget);
  }

  // ---- Close ----

  ghost predicate AllBelow(entries: seq<Entry>, boundary: nat) {
    forall i :: 0 <= i < |entries| ==> entries[i].id < boundary
  }

  ghost function Drained(s: State, t: nat): State
    requires t in s.passes
  {
    s.(entries := [], notified := s.notified + Ids(s.entries), passes := s.passes - {t},
       delivered := s.delivered + Calls(s.entries), drained := true)
  }

  lemma CloseTakesFront(entries: seq<Entry>, p: Pass)
    requires p.closing && entries != [] && AllBelow(entries, p.boundary)
    ensures FirstPick(entries, p) == 0
  {
    assert Picks(p, entries[0]);
  }

  /** What is left after the front entry has been served. */
  ghost function Shortened(s: State, t: nat): State
    requires t in s.passes && s.entries != []
  {
    s.(entries := s.entries[1..], notified := s.notified + {s.entries[0].id},
       passes := s.passes[t := Took(s.passes[t], s.entries[0]).(inflight := None)],
       delivered := s.delivered + multiset{s.entries[0].id})
  }

  lemma ServedShortens(s: State, t: nat)
    requires Legal(s, Take(t)) && s.entries != [] && FirstPick(s.entries, s.passes[t]) == 0
    ensures Served(s, t) == Shortened(s, t)
  {
    ServedIs(s, t);
    assert Without(s.entries, 0) == s.entries[1..];
  }

  lemma ShortenedDrains(s: State, t: nat)
    requires t in s.passes && s.entries != []
    ensures Drained(Shortened(s, t), t) == Drained(s, t)
  {
    var e, rest := s.entries[0], s.entries[1..];
    assert [e] + rest == s.entries;
    OneMore(e, rest, s.notified, s.delivered);
    assert Shortened(s, t).passes - {t} == s.passes - {t};
  }

  lemma {:induction false} CloseRuns(s: State, t: nat) returns (steps: seq<Step>)
    requires Legal(s, Take(t)) && s.passes[t].closing && AllBelow(s.entries, s.passes[t].boundary)
    ensures IsRun(s, steps) && After(s, steps) == Drained(s, t) && Called(s, steps) == s.entries
    decreases |s.entries|
  {
    if s.entries == [] {
      steps := [Take(t)];
      LastTake(s, t);
    } else {
      CloseTakesFront(s.entries, s.passes[t]);
      ShortenedCloses(s, t);
      var rest := CloseRuns(Shortened(s, t), t);
      ShortenedDrains(s, t);
      steps := ServeThenRun(s, t, rest);
      FrontAndRest(s.entries);
    }
  }

  lemma ShortenedCloses(s: State, t: nat)
    requires Legal(s, Take(t)) && s.passes[t].closing && AllBelow(s.entries, s.passes[t].boundary)
    requires s.entries != [] && FirstPick(s.entries, s.passes[t]) == 0
    ensures
      var s' := Shortened(s, t);
      && Served(s, t) == s' && Legal(s', Take(t)) && s'.passes[t].closing && s'.entries == s.entries[1..]
      && AllBelow(s'.entries, s'.passes[t].boundary)
  {
    ServedShortens(s, t);
  }

  lemma FrontAndRest(entries: seq<Entry>)
    requires entries != []
    ensures [entries[0]] + entries[1..] == entries
  {
  }

  /** So is a close call. */
  method OnClose(q: PollState, ghost s: State, ghost t: nat) returns (ghost steps: seq<Step>)
    requires q.Valid() && Mirrors(q, s) && t !in s.passes
    modifies q
    ensures q.Valid() && IsRun(s, steps) && Mirrors(q, After(s, steps)) && After(s, steps).passes == s.passes
    ensures q.woken == old(q.woken) + Wakers(Called(s, steps))
  {
    ghost var begun := Next(s, BeginClose(t));
    ghost var rest := CloseRuns(begun, t);
    RunOn(s, BeginClose(t), rest);
    steps := [BeginClose(t)] + rest;
    assert begun.passes - {t} == s.passes;
    q.Close();
  }
}
