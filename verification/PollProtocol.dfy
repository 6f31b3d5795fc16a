/** Registration, cancellation, wake and close passes interleaved at the queue lock: a pass lets
    go of the lock before it calls each waker. */
module PollProtocol {
  import opened Options
  import opened PollQueue

  /** One wake or close call in progress. `inflight` has been taken and not yet called; `log` is
      all the pass has taken; `seen` is how many entries it found below its boundary. */
  datatype Pass = Pass(closing: bool, ready: set<nat>, boundary: nat, budget: nat,
                       inflight: Option<Entry>, log: seq<Entry>, seen: nat)

  /** `leases` are the registrations not yet dropped; `delivered` counts waker calls by
      registration; `drained` records that some close call has returned. */
  datatype State = State(entries: seq<Entry>, nextId: nat, closed: bool, notified: set<nat>,
                         leases: set<nat>, passes: map<nat, Pass>, delivered: multiset<nat>, drained: bool)

  const INITIAL := State([], 0, false, {}, {}, map[], multiset{}, false)

  datatype Step =
    | Register(waker: nat, interests: set<nat>, exclusive: bool)
    | Cancel(id: nat)
    | BeginWake(pass: nat, ready: set<nat>, budget: nat)
    | BeginClose(pass: nat)
    | Take(pass: nat)
    | Deliver(pass: nat)

  predicate Picks(p: Pass, e: Entry) {
    if p.closing then e.id < p.boundary else Selects(e, p.ready, p.boundary, p.budget)
  }

  function FirstPick(entries: seq<Entry>, p: Pass): (i: nat)
    ensures i <= |entries| && (i < |entries| ==> Picks(p, entries[i]))
    ensures forall j :: 0 <= j < i ==> !Picks(p, entries[j])
  {
    if entries == [] || Picks(p, entries[0]) then 0 else FirstPick(entries[1..], p) + 1
  }

  function Strike(entries: seq<Entry>, id: nat): seq<Entry> {
    if entries == [] then []
    else if entries[0].id == id then entries[1..]
    else [entries[0]] + Strike(entries[1..], id)
  }

  function Below(entries: seq<Entry>, boundary: nat): nat {
    if entries == [] then 0 else (if entries[0].id < boundary then 1 else 0) + Below(entries[1..], boundary)
  }

  function Took(p: Pass, e: Entry): Pass {
    p.(inflight := Some(e), log := p.log + [e], budget := if p.closing then p.budget else Spent(e, p.budget))
  }

  predicate Legal(s: State, step: Step) {
    match step
    case Register(_, _, _) => true
    case Cancel(id) => id in s.leases
    case BeginWake(t, _, _) => t !in s.passes
    case BeginClose(t) => t !in s.passes
    case Take(t) => t in s.passes && s.passes[t].inflight.None?
    case Deliver(t) => t in s.passes && s.passes[t].inflight.Some?
  }

  function TakeStep(s: State, t: nat): State
    requires Legal(s, Take(t))
  {
    var p := s.passes[t];
    var i := FirstPick(s.entries, p);
    if i == |s.entries| then
      s.(passes := s.passes - {t}, drained := s.drained || p.closing)
    else
      s.(entries := Without(s.entries, i), notified := s.notified + {s.entries[i].id},
         passes := s.passes[t := Took(p, s.entries[i])])
  }

  function Next(s: State, step: Step): State
    requires Legal(s, step)
  {
    match step
    case Register(waker, interests, exclusive) =>
      if s.closed || interests == {} then s
      else s.(entries := s.entries + [Entry(s.nextId, waker, interests, exclusive)],
              nextId := s.nextId + 1, leases := s.leases + {s.nextId})
    case Cancel(id) => s.(entries := Strike(s.entries, id), leases := s.leases - {id})
    case BeginWake(t, ready, budget) =>
      s.(passes := s.passes[t := Pass(false, ready, s.nextId, budget, None, [], Below(s.entries, s.nextId))])
    case BeginClose(t) =>
      s.(closed := true, passes := s.passes[t := Pass(true, {}, s.nextId, 0, None, [], Below(s.entries, s.nextId))])
    case Take(t) => TakeStep(s, t)
    case Deliver(t) =>
      var p := s.passes[t];
      s.(passes := s.passes[t := p.(inflight := None)], delivered := s.delivered + multiset{p.inflight.value.id})
  }

  // ---- Invariant ----

  ghost predicate InOrder(entries: seq<Entry>, nextId: nat) {
    Ascending(entries) && forall e :: e in entries ==> e.id < nextId
  }

  /** A registration still held is queued and unnotified, or notified and gone. */
  ghost predicate Accounted(entries: seq<Entry>, nextId: nat, notified: set<nat>, leases: set<nat>) {
    && (forall id :: id in leases ==> (id in Ids(entries) <==> id !in notified))
    && (forall id :: id in Ids(entries) ==> id in leases)
    && (forall id :: id in leases || id in notified ==> id < nextId)
  }

  predicate Carries(p: Pass, id: nat) {
    p.inflight.Some? && p.inflight.value.id == id
  }

  /** Exactly one waker call, made or on its way, for each notified registration. */
  ghost predicate OncePerNotice(notified: set<nat>, passes: map<nat, Pass>, delivered: multiset<nat>) {
    && (forall id :: delivered[id] <= 1 && (delivered[id] == 1 ==> id in notified))
    && (forall t, id: nat :: t in passes && Carries(passes[t], id) ==> id in notified && delivered[id] == 0)
    && (forall t, u, id: nat :: t in passes && u in passes && Carries(passes[t], id) && Carries(passes[u], id) ==>
      t == u)
    && (forall id :: id in notified && delivered[id] == 0 ==> exists t :: t in passes && Carries(passes[t], id))
  }

  /** Nothing a pass has gone by is wanted any more, and its work is bounded by what it found. */
  ghost predicate OnTrack(p: Pass, entries: seq<Entry>, nextId: nat, closed: bool) {
    && p.boundary <= nextId
    && (p.closing ==> closed && p.boundary == nextId)
    && Ascending(p.log)
    && (forall f :: f in p.log ==> f.id < p.boundary)
    && (forall e, f :: e in entries && f in p.log && e.id < f.id ==> !Picks(p, e))
    && (forall e, f :: e in entries && f in p.log ==> e.id != f.id)
    && |p.log| + Below(entries, p.boundary) <= p.seen
  }

  ghost predicate AllOnTrack(passes: map<nat, Pass>, entries: seq<Entry>, nextId: nat, closed: bool) {
    forall t :: t in passes ==> OnTrack(passes[t], entries, nextId, closed)
  }

  ghost predicate Drained(s: State) {
    s.drained ==> s.closed && s.entries == []
  }

  ghost predicate Inv(s: State) {
    && InOrder(s.entries, s.nextId)
    && Accounted(s.entries, s.nextId, s.notified, s.leases)
    && OncePerNotice(s.notified, s.passes, s.delivered)
    && AllOnTrack(s.passes, s.entries, s.nextId, s.closed)
    && Drained(s)
  }

  // ---- Queue facts ----

  lemma {:induction false} BelowWithout(entries: seq<Entry>, i: nat, boundary: nat)
    requires i < |entries|
    ensures Below(Without(entries, i), boundary) == Below(entries, boundary) - if entries[i].id < boundary then 1 else 0
    decreases i
  {
    if i == 0 {
      assert Without(entries, 0) == entries[1..];
    } else {
      assert Without(entries, i)[1..] == Without(entries[1..], i - 1);
      BelowWithout(entries[1..], i - 1, boundary);
    }
  }

  lemma {:induction false} BelowExtended(entries: seq<Entry>, e: Entry, boundary: nat)
    requires e.id >= boundary
    ensures Below(entries + [e], boundary) == Below(entries, boundary)
    decreases |entries|
  {
    if entries != [] {
      assert (entries + [e])[1..] == entries[1..] + [e];
      BelowExtended(entries[1..], e, boundary);
    }
  }

  lemma {:induction false} StrikeAbsent(entries: seq<Entry>, id: nat)
    requires forall k :: 0 <= k < |entries| ==> entries[k].id != id
    ensures Strike(entries, id) == entries
    decreases |entries|
  {
    if entries != [] { StrikeAbsent(entries[1..], id); }
  }

  lemma {:induction false} StrikePresent(entries: seq<Entry>, id: nat, i: nat)
    requires i < |entries| && entries[i].id == id && forall k :: 0 <= k < i ==> entries[k].id != id
    ensures Strike(entries, id) == Without(entries, i)
    decreases i
  {
    if i == 0 {
      assert Without(entries, 0) == entries[1..];
    } else {
      StrikePresent(entries[1..], id, i - 1);
      assert Without(entries, i) == [entries[0]] + Without(entries[1..], i - 1);
    }
  }

  lemma FirstWithId(entries: seq<Entry>, id: nat, n: nat) returns (i: nat)
    requires n < |entries| && entries[n].id == id
    ensures i <= n && entries[i].id == id && forall k :: 0 <= k < i ==> entries[k].id != id
  {
    i := 0;
    while entries[i].id != id
      invariant i <= n && forall k :: 0 <= k < i ==> entries[k].id != id
      decreases n - i
    {
      i := i + 1;
    }
  }

  /** Cancelling strikes out the entry with that id and nothing else. */
  lemma StrikeIsWithout(entries: seq<Entry>, id: nat)
    ensures id !in Ids(entries) ==> Strike(entries, id) == entries
    ensures id in Ids(entries) ==>
      exists i :: 0 <= i < |entries| && entries[i].id == id && Strike(entries, id) == Without(entries, i)
  {
    if id in Ids(entries) {
      var n :| 0 <= n < |entries| && entries[n].id == id;
      var i := FirstWithId(entries, id, n);
      StrikePresent(entries, id, i);
    } else {
      forall k | 0 <= k < |entries| ensures entries[k].id != id {
        assert entries[k].id in Ids(entries);
      }
      StrikeAbsent(entries, id);
    }
  }

  lemma IdsHas(entries: seq<Entry>, id: nat)
    ensures id in Ids(entries) <==> exists e :: e in entries && e.id == id
  {
  }

  lemma FoundIn(entries: seq<Entry>, i: nat)
    requires i < |entries|
    ensures entries[i] in entries && entries[i].id in Ids(entries)
  {
  }

  // ---- The queue shrinks by one entry ----

  lemma ShrinkKeepsOrder(entries: seq<Entry>, i: nat, nextId: nat)
    requires i < |entries| && InOrder(entries, nextId)
    ensures InOrder(Without(entries, i), nextId)
    ensures forall e :: e in Without(entries, i) <==> e in entries && e.id != entries[i].id
  {
  }

  lemma ShrinkIds(entries: seq<Entry>, i: nat, nextId: nat)
    requires i < |entries| && InOrder(entries, nextId)
    ensures Ids(Without(entries, i)) == Ids(entries) - {entries[i].id}
  {
    ShrinkKeepsOrder(entries, i, nextId);
    forall id: nat ensures id in Ids(Without(entries, i)) <==> id in Ids(entries) && id != entries[i].id {
      IdsHas(Without(entries, i), id);
      IdsHas(entries, id);
    }
  }

  lemma ShrinkKeepsTrack(p: Pass, entries: seq<Entry>, i: nat, nextId: nat, closed: bool)
    requires i < |entries| && InOrder(entries, nextId) && OnTrack(p, entries, nextId, closed)
    ensures OnTrack(p, Without(entries, i), nextId, closed)
  {
    ShrinkKeepsOrder(entries, i, nextId);
    BelowWithout(entries, i, p.boundary);
  }

  lemma ShrinkKeepsTracks(passes: map<nat, Pass>, entries: seq<Entry>, i: nat, nextId: nat, closed: bool)
    requires i < |entries| && InOrder(entries, nextId) && AllOnTrack(passes, entries, nextId, closed)
    ensures AllOnTrack(passes, Without(entries, i), nextId, closed)
  {
    forall t | t in passes ensures OnTrack(passes[t], Without(entries, i), nextId, closed) {
      ShrinkKeepsTrack(passes[t], entries, i, nextId, closed);
    }
  }

  // ---- Each step keeps the invariant ----

  lemma GrowKeepsTrack(p: Pass, entries: seq<Entry>, e: Entry)
    requires InOrder(entries, e.id) && OnTrack(p, entries, e.id, false)
    ensures OnTrack(p, entries + [e], e.id + 1, false)
  {
    BelowExtended(entries, e, p.boundary);
  }

  lemma RegisterKeepsInv(s: State, e: Entry)
    requires Inv(s) && !s.closed && e.id == s.nextId
    ensures Inv(s.(entries := s.entries + [e], nextId := s.nextId + 1, leases := s.leases + {s.nextId}))
  {
    var entries := s.entries + [e];
    assert InOrder(entries, s.nextId + 1);
    WakersExtend(s.entries, e);
    forall t | t in s.passes ensures OnTrack(s.passes[t], entries, s.nextId + 1, s.closed) {
      GrowKeepsTrack(s.passes[t], s.entries, e);
    }
  }

  lemma CancelKeepsInv(s: State, id: nat)
    requires Inv(s) && id in s.leases
    ensures Inv(s.(entries := Strike(s.entries, id), leases := s.leases - {id}))
  {
    StrikeIsWithout(s.entries, id);
    if id in Ids(s.entries) {
      var i :| 0 <= i < |s.entries| && s.entries[i].id == id && Strike(s.entries, id) == Without(s.entries, i);
      ShrinkKeepsOrder(s.entries, i, s.nextId);
      ShrinkIds(s.entries, i, s.nextId);
      ShrinkKeepsTracks(s.passes, s.entries, i, s.nextId, s.closed);
    }
  }

  lemma BegunOnce(notified: set<nat>, passes: map<nat, Pass>, delivered: multiset<nat>, t: nat, p: Pass)
    requires OncePerNotice(notified, passes, delivered) && t !in passes && p.inflight == None
    ensures OncePerNotice(notified, passes[t := p], delivered)
  {
    var passes' := passes[t := p];
    assert forall u, id: nat :: u in passes' && Carries(passes'[u], id) ==> u in passes && Carries(passes[u], id);
    forall id | id in notified && delivered[id] == 0 ensures exists u :: u in passes' && Carries(passes'[u], id) {
      var u :| u in passes && Carries(passes[u], id);
      assert u in passes' && Carries(passes'[u], id);
    }
  }

  lemma BegunOnTrack(s: State, t: nat, p: Pass, closed: bool)
    requires AllOnTrack(s.passes, s.entries, s.nextId, s.closed) && (s.closed ==> closed)
    requires OnTrack(p, s.entries, s.nextId, closed)
    ensures AllOnTrack(s.passes[t := p], s.entries, s.nextId, closed)
  {
    var passes := s.passes[t := p];
    forall u | u in passes ensures OnTrack(passes[u], s.entries, s.nextId, closed) {
      assert u != t ==> OnTrack(s.passes[u], s.entries, s.nextId, s.closed);
    }
  }

  lemma BeginKeepsInv(s: State, t: nat, p: Pass, closed: bool)
    requires Inv(s) && t !in s.passes && (s.closed ==> closed)
    requires p.inflight == None && p.log == [] && p.boundary == s.nextId && p.seen == Below(s.entries, s.nextId)
    requires p.closing ==> closed
    ensures Inv(s.(passes := s.passes[t := p], closed := closed))
  {
    BegunOnce(s.notified, s.passes, s.delivered, t, p);
    BegunOnTrack(s, t, p, closed);
  }

  lemma DeliveredOnce(notified: set<nat>, passes: map<nat, Pass>, delivered: multiset<nat>, t: nat, id: nat)
    requires OncePerNotice(notified, passes, delivered) && t in passes && Carries(passes[t], id)
    ensures OncePerNotice(notified, passes[t := passes[t].(inflight := None)], delivered + multiset{id})
  {
    var passes' := passes[t := passes[t].(inflight := None)];
    var delivered' := delivered + multiset{id};
    assert forall u :: u in passes' ==> u in passes;
    assert forall u, x: nat :: u in passes' && Carries(passes'[u], x) ==> u != t && Carries(passes[u], x) && x != id;
    forall x | x in notified && delivered'[x] == 0 ensures exists u :: u in passes' && Carries(passes'[u], x) {
      var u :| u in passes && Carries(passes[u], x);
      assert u in passes' && Carries(passes'[u], x);
    }
  }

  lemma ReplaceKeepsTracks(passes: map<nat, Pass>, t: nat, p: Pass, entries: seq<Entry>, nextId: nat, closed: bool)
    requires AllOnTrack(passes, entries, nextId, closed) && OnTrack(p, entries, nextId, closed)
    ensures AllOnTrack(passes[t := p], entries, nextId, closed)
  {
  }

  lemma LandedOnTrack(p: Pass, entries: seq<Entry>, nextId: nat, closed: bool)
    requires OnTrack(p, entries, nextId, closed)
    ensures OnTrack(p.(inflight := None), entries, nextId, closed)
  {
    forall e, f | e in entries && f in p.log && e.id < f.id ensures !Picks(p.(inflight := None), e) {
      assert !Picks(p, e);
    }
  }

  lemma DeliveredOnTrack(passes: map<nat, Pass>, t: nat, entries: seq<Entry>, nextId: nat, closed: bool)
    requires AllOnTrack(passes, entries, nextId, closed) && t in passes
    ensures AllOnTrack(passes[t := passes[t].(inflight := None)], entries, nextId, closed)
  {
    LandedOnTrack(passes[t], entries, nextId, closed);
    ReplaceKeepsTracks(passes, t, passes[t].(inflight := None), entries, nextId, closed);
  }

  lemma DeliverKeepsInv(s: State, t: nat)
    requires Inv(s) && Legal(s, Deliver(t))
    ensures Inv(Next(s, Deliver(t)))
  {
    DeliveredOnce(s.notified, s.passes, s.delivered, t, s.passes[t].inflight.value.id);
    DeliveredOnTrack(s.passes, t, s.entries, s.nextId, s.closed);
  }

  lemma EndedOnce(notified: set<nat>, passes: map<nat, Pass>, delivered: multiset<nat>, t: nat)
    requires OncePerNotice(notified, passes, delivered) && t in passes && passes[t].inflight == None
    ensures OncePerNotice(notified, passes - {t}, delivered)
  {
    var passes' := passes - {t};
    assert forall u, id: nat :: u in passes' && Carries(passes'[u], id) ==> u in passes && Carries(passes[u], id);
    forall id | id in notified && delivered[id] == 0 ensures exists u :: u in passes' && Carries(passes'[u], id) {
      var u :| u in passes && Carries(passes[u], id);
      assert u in passes' && Carries(passes'[u], id);
    }
  }

  lemma EndedOnTrack(passes: map<nat, Pass>, t: nat, entries: seq<Entry>, nextId: nat, closed: bool)
    requires AllOnTrack(passes, entries, nextId, closed)
    ensures AllOnTrack(passes - {t}, entries, nextId, closed)
  {
  }

  /** A close pass that finds nothing leaves nothing. */
  lemma EndDrains(entries: seq<Entry>, p: Pass, nextId: nat)
    requires p.closing && p.boundary == nextId && FirstPick(entries, p) == |entries|
    requires forall e :: e in entries ==> e.id < nextId
    ensures entries == []
  {
  }

  lemma EndKeepsInv(s: State, t: nat)
    requires Inv(s) && Legal(s, Take(t)) && FirstPick(s.entries, s.passes[t]) == |s.entries|
    ensures Inv(TakeStep(s, t))
  {
    assert OnTrack(s.passes[t], s.entries, s.nextId, s.closed);
    EndedOnce(s.notified, s.passes, s.delivered, t);
    EndedOnTrack(s.passes, t, s.entries, s.nextId, s.closed);
    if s.passes[t].closing { EndDrains(s.entries, s.passes[t], s.nextId); }
  }

  /** The first pick comes after everything taken before it. */
  lemma PickIsLater(p: Pass, entries: seq<Entry>, i: nat, nextId: nat, closed: bool)
    requires OnTrack(p, entries, nextId, closed) && i < |entries| && Picks(p, entries[i])
    ensures Ascending(p.log + [entries[i]]) && entries[i].id < p.boundary
    ensures forall f :: f in p.log ==> f.id < entries[i].id
  {
  }

  /** What the pick left behind in front of it is not wanted, before or after. */
  lemma PassedOver(p: Pass, entries: seq<Entry>, i: nat, x: Entry)
    requires Ascending(entries) && i < |entries| && i == FirstPick(entries, p) && x in entries && x.id < entries[i].id
    ensures !Picks(Took(p, entries[i]), x)
  {
  }

  lemma TookKeepsTrack(p: Pass, entries: seq<Entry>, i: nat, nextId: nat, closed: bool)
    requires InOrder(entries, nextId) && OnTrack(p, entries, nextId, closed)
    requires i < |entries| && i == FirstPick(entries, p)
    ensures OnTrack(Took(p, entries[i]), Without(entries, i), nextId, closed)
  {
    var rest, p' := Without(entries, i), Took(p, entries[i]);
    PickIsLater(p, entries, i, nextId, closed);
    ShrinkKeepsOrder(entries, i, nextId);
    BelowWithout(entries, i, p.boundary);
    forall x, f | x in rest && f in p'.log && x.id < f.id ensures !Picks(p', x) {
      PassedOver(p, entries, i, x);
    }
  }

  lemma TookNoticesOnce(s: State, t: nat, e: Entry)
    requires OncePerNotice(s.notified, s.passes, s.delivered) && Legal(s, Take(t)) && e.id !in s.notified
    ensures OncePerNotice(s.notified + {e.id}, s.passes[t := Took(s.passes[t], e)], s.delivered)
  {
    var passes := s.passes[t := Took(s.passes[t], e)];
    assert forall u :: u in passes && u != t ==> passes[u] == s.passes[u];
    assert Carries(passes[t], e.id);
    forall id | id in s.notified + {e.id} && s.delivered[id] == 0
      ensures exists u :: u in passes && Carries(passes[u], id) {
      if id == e.id {
        assert t in passes && Carries(passes[t], id);
      } else {
        var u :| u in s.passes && Carries(s.passes[u], id);
        assert u in passes && Carries(passes[u], id);
      }
    }
  }

  lemma TookKeepsAccount(s: State, i: nat)
    requires InOrder(s.entries, s.nextId) && Accounted(s.entries, s.nextId, s.notified, s.leases) && i < |s.entries|
    ensures s.entries[i].id !in s.notified
    ensures Accounted(Without(s.entries, i), s.nextId, s.notified + {s.entries[i].id}, s.leases)
  {
    FoundIn(s.entries, i);
    ShrinkIds(s.entries, i, s.nextId);
  }

  lemma TookKeepsTracks(s: State, t: nat, i: nat)
    requires InOrder(s.entries, s.nextId) && AllOnTrack(s.passes, s.entries, s.nextId, s.closed)
    requires t in s.passes && i < |s.entries| && i == FirstPick(s.entries, s.passes[t])
    ensures AllOnTrack(s.passes[t := Took(s.passes[t], s.entries[i])], Without(s.entries, i), s.nextId, s.closed)
  {
    assert OnTrack(s.passes[t], s.entries, s.nextId, s.closed);
    TookKeepsTrack(s.passes[t], s.entries, i, s.nextId, s.closed);
    ShrinkKeepsTracks(s.passes, s.entries, i, s.nextId, s.closed);
    ReplaceKeepsTracks(s.passes, t, Took(s.passes[t], s.entries[i]), Without(s.entries, i), s.nextId, s.closed);
  }

  lemma TakeKeepsInv(s: State, t: nat)
    requires Inv(s) && Legal(s, Take(t)) && FirstPick(s.entries, s.passes[t]) < |s.entries|
    ensures Inv(TakeStep(s, t))
  {
    var i := FirstPick(s.entries, s.passes[t]);
    ShrinkKeepsOrder(s.entries, i, s.nextId);
    TookKeepsAccount(s, i);
    TookNoticesOnce(s, t, s.entries[i]);
    TookKeepsTracks(s, t, i);
  }

  lemma StepKeepsInv(s: State, step: Step)
    requires Inv(s) && Legal(s, step)
    ensures Inv(Next(s, step))
  {
    match step {
      case Register(waker, interests, exclusive) =>
        if !s.closed { RegisterKeepsInv(s, Entry(s.nextId, waker, interests, exclusive)); }
      case Cancel(id) => CancelKeepsInv(s, id);
      case BeginWake(t, ready, budget) =>
        BeginKeepsInv(s, t, Pass(false, ready, s.nextId, budget, None, [], Below(s.entries, s.nextId)), s.closed);
      case BeginClose(t) =>
        BeginKeepsInv(s, t, Pass(true, {}, s.nextId, 0, None, [], Below(s.entries, s.nextId)), true);
      case Take(t) =>
        if FirstPick(s.entries, s.passes[t]) == |s.entries| { EndKeepsInv(s, t); } else { TakeKeepsInv(s, t); }
      case Deliver(t) => DeliverKeepsInv(s, t);
    }
  }

  // ---- Whole runs ----

  ghost predicate IsRun(s: State, steps: seq<Step>)
    decreases |steps|
  {
    steps == [] || (Legal(s, steps[0]) && IsRun(Next(s, steps[0]), steps[1..]))
  }

  ghost function After(s: State, steps: seq<Step>): State
    requires IsRun(s, steps)
    decreases |steps|
  {
    if steps == [] then s else After(Next(s, steps[0]), steps[1..])
  }

  lemma {:induction false} RunKeepsInv(s: State, steps: seq<Step>)
    requires Inv(s) && IsRun(s, steps)
    ensures Inv(After(s, steps))
    decreases |steps|
  {
    if steps != [] {
      StepKeepsInv(s, steps[0]);
      RunKeepsInv(Next(s, steps[0]), steps[1..]);
    }
  }

  lemma InitialInv()
    ensures Inv(INITIAL)
  {
  }

  /** Waker calls for this registration that a pass has yet to make. */
  ghost predicate OnItsWay(s: State, id: nat) {
    exists t :: t in s.passes && Carries(s.passes[t], id)
  }

  /** After any interleaving a registration still held is either queued, with its flag clear and
      its waker never called, or out of the queue with its flag set and exactly one waker call
      made or on its way. */
  lemma NeverLostNorNotifiedTwice(steps: seq<Step>, id: nat)
    requires IsRun(INITIAL, steps) && id in After(INITIAL, steps).leases
    ensures
      var s := After(INITIAL, steps);
      if id in Ids(s.entries) then id !in s.notified && s.delivered[id] == 0 && !OnItsWay(s, id)
      else id in s.notified && (s.delivered[id] == 1 <==> !OnItsWay(s, id)) && s.delivered[id] <= 1
  {
    InitialInv();
    RunKeepsInv(INITIAL, steps);
  }

  /** Identifiers in the queue are distinct, ascending and already handed out; only registrations
      still held are queued. */
  lemma QueueStaysInOrder(steps: seq<Step>)
    requires IsRun(INITIAL, steps)
    ensures
      var s := After(INITIAL, steps);
      && Ascending(s.entries)
      && forall e :: e in s.entries ==> e.id < s.nextId && e.id in s.leases
  {
    InitialInv();
    RunKeepsInv(INITIAL, steps);
    var s := After(INITIAL, steps);
    forall e | e in s.entries ensures e.id in s.leases {
      IdsHas(s.entries, e.id);
    }
  }

  /** However much is registered meanwhile, a pass takes entries in ascending order, and no more
      of them than it found below its boundary. */
  lemma PassIsBounded(steps: seq<Step>, t: nat)
    requires IsRun(INITIAL, steps) && t in After(INITIAL, steps).passes
    ensures
      var p := After(INITIAL, steps).passes[t];
      Ascending(p.log) && |p.log| <= p.seen
  {
    InitialInv();
    RunKeepsInv(INITIAL, steps);
    assert OnTrack(After(INITIAL, steps).passes[t], After(INITIAL, steps).entries, After(INITIAL, steps).nextId,
      After(INITIAL, steps).closed);
  }

  /** Once a close call has returned the queue is empty for good. */
  lemma ClosedQueueStaysEmpty(steps: seq<Step>, more: seq<Step>)
    requires IsRun(INITIAL, steps) && IsRun(After(INITIAL, steps), more)
    requires After(INITIAL, steps).drained
    ensures After(After(INITIAL, steps), more).entries == []
  {
    InitialInv();
    RunKeepsInv(INITIAL, steps);
    RunKeepsInv(After(INITIAL, steps), more);
    StaysDrained(After(INITIAL, steps), more);
  }

  lemma {:induction false} StaysDrained(s: State, steps: seq<Step>)
    requires s.drained && IsRun(s, steps)
    ensures After(s, steps).drained
    decreases |steps|
  {
    if steps != [] { StaysDrained(Next(s, steps[0]), steps[1..]); }
  }

  /** A queued registration is only ever removed, never changed or brought back. */
  lemma StepOnlyRemoves(s: State, step: Step, e: Entry)
    requires Inv(s) && Legal(s, step) && e in Next(s, step).entries && e.id < s.nextId
    ensures e in s.entries
  {
    match step {
      case Register(_, _, _) =>
      case Cancel(id) =>
        StrikeIsWithout(s.entries, id);
      case BeginWake(_, _, _) =>
      case BeginClose(_) =>
      case Take(_) =>
      case Deliver(_) =>
    }
  }

  lemma {:induction false} RunOnlyRemoves(s: State, steps: seq<Step>, e: Entry)
    requires Inv(s) && IsRun(s, steps) && e in After(s, steps).entries && e.id < s.nextId
    ensures e in s.entries
    decreases |steps|
  {
    if steps != [] {
      StepKeepsInv(s, steps[0]);
      RunOnlyRemoves(Next(s, steps[0]), steps[1..], e);
      StepOnlyRemoves(s, steps[0], e);
    }
  }

  /** The pass is in progress before every step and after the last. */
  ghost predicate Lasts(s: State, steps: seq<Step>, t: nat)
    requires IsRun(s, steps)
    decreases |steps|
  {
    t in s.passes && (steps != [] ==> Lasts(Next(s, steps[0]), steps[1..], t))
  }

  lemma {:induction false} PassKeepsItsAim(s: State, steps: seq<Step>, t: nat)
    requires IsRun(s, steps) && Lasts(s, steps, t)
    ensures t in After(s, steps).passes
    ensures
      var p, q := s.passes[t], After(s, steps).passes[t];
      p.closing == q.closing && p.ready == q.ready && p.boundary == q.boundary
    decreases |steps|
  {
    if steps != [] {
      PassKeepsItsAim(Next(s, steps[0]), steps[1..], t);
    }
  }

  /** No wake is missed: an entry queued when a matching wake begins has, by the time the wake
      returns, been notified or dropped, unless it is exclusive and the budget ran out. */
  lemma WakeReachesEveryMatch(s: State, e: Entry, t: nat, ready: set<nat>, budget: nat, steps: seq<Step>)
    requires Inv(s) && e in s.entries && Matches(e, ready) && t !in s.passes
    requires
      var begun := Next(s, BeginWake(t, ready, budget));
      && IsRun(begun, steps) && Lasts(begun, steps, t)
      && Legal(After(begun, steps), Take(t))
    requires
      var end := After(Next(s, BeginWake(t, ready, budget)), steps);
      FirstPick(end.entries, end.passes[t]) == |end.entries|
    ensures
      var end := After(Next(s, BeginWake(t, ready, budget)), steps);
      e.id in end.notified || e.id !in end.leases || (e.exclusive && end.passes[t].budget == 0)
  {
    var begun := Next(s, BeginWake(t, ready, budget));
    var end := After(begun, steps);
    StepKeepsInv(s, BeginWake(t, ready, budget));
    RunKeepsInv(begun, steps);
    PassKeepsItsAim(begun, steps, t);
    if e.id in Ids(end.entries) {
      var i :| 0 <= i < |end.entries| && end.entries[i].id == e.id;
      RunOnlyRemoves(begun, steps, end.entries[i]);
      SameId(s.entries, end.entries[i], e);
      assert !Picks(end.passes[t], e);
    }
  }

  lemma SameId(entries: seq<Entry>, e: Entry, f: Entry)
    requires Ascending(entries) && e in entries && f in entries && e.id == f.id
    ensures e == f
  {
  }

  /** A take that finds something leaves strictly less below the pass's boundary, and no step
      ever adds to it. */
  lemma RemainingWorkFalls(s: State, step: Step, t: nat)
    requires Inv(s) && Legal(s, step) && t in s.passes && t in Next(s, step).passes
    ensures
      var boundary := s.passes[t].boundary;
      && Below(Next(s, step).entries, boundary) <= Below(s.entries, boundary)
      && (step == Take(t) ==> Below(Next(s, step).entries, boundary) < Below(s.entries, boundary))
  {
    var boundary := s.passes[t].boundary;
    assert OnTrack(s.passes[t], s.entries, s.nextId, s.closed);
    if step.Register? {
      BelowExtended(s.entries, Entry(s.nextId, step.waker, step.interests, step.exclusive), boundary);
    } else if step.Cancel? {
      StrikeIsWithout(s.entries, step.id);
      if step.id in Ids(s.entries) {
        var i :| 0 <= i < |s.entries| && Strike(s.entries, step.id) == Without(s.entries, i);
        BelowWithout(s.entries, i, boundary);
      }
    } else if step.Take? {
      var i := FirstPick(s.entries, s.passes[step.pass]);
      if i < |s.entries| { BelowWithout(s.entries, i, boundary); }
    }
  }
}
