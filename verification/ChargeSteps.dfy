/** Charging a path node by node. The ledger lock keeps other forks, migrations and exits out, but
    not the releases of dropped guards and not changes of limits: these come between any two nodes.
    What such a charge does is compared with the single step that `Membership` takes. */
module ChargeSteps {
  import opened CgroupTree
  import opened Numbers
  import opened Membership
  import opened Conservation

  /** Nodes before `next` are charged; or `at` refused, and nodes before `next` are uncharged again;
      or the event is counted from `at` to before `next`. */
  datatype Phase =
    | Charging(next: nat)
    | Undoing(at: nat, next: nat)
    | Recording(at: nat, next: nat)
    | Granted
    | Rejected(at: nat)

  datatype Race = Race(pids: PidsMap, phase: Phase)

  datatype Move =
    | Advance
    | Release(node: Node)                    // a dropped guard uncharges a node
    | SetLimit(node: Node, maximum: Limit)

  predicate PhaseOk(path: seq<Node>, phase: Phase) {
    match phase
    case Charging(i) => i <= |path|
    case Undoing(at, j) => j <= at < |path|
    case Recording(at, k) => at <= k <= |path| && at < |path|
    case Granted => true
    case Rejected(at) => at < |path|
  }

  /** The nodes that count the new task right now. */
  function Held(path: seq<Node>, phase: Phase): set<Node>
    requires PhaseOk(path, phase)
  {
    match phase
    case Charging(i) => Elements(path[..i])
    case Undoing(at, j) => Elements(path[j..at])
    case Recording(_, _) => {}
    case Granted => Elements(path)
    case Rejected(_) => {}
  }

  /** The nodes at which the refusal has been looked at for its event. */
  function Passed(path: seq<Node>, phase: Phase): set<Node>
    requires PhaseOk(path, phase)
  {
    match phase
    case Charging(_) => {}
    case Undoing(_, _) => {}
    case Recording(at, k) => Elements(path[at..k])
    case Granted => {}
    case Rejected(at) => Elements(path[at..])
  }

  function Grown(p: Pids): Pids {
    p.(current := p.current + 1, peak := Max(p.peak, p.current + 1))
  }

  function Advanced(t: Tree, path: seq<Node>, r: Race): (r': Race)
    requires PhaseOk(path, r.phase)
    ensures PhaseOk(path, r'.phase)
  {
    match r.phase
    case Charging(i) =>
      if i == |path| then r.(phase := Granted)
      else if Refuses(At(r.pids, path[i])) then r.(phase := Undoing(i, 0))
      else Race(r.pids[path[i] := Grown(At(r.pids, path[i]))], Charging(i + 1))
    case Undoing(at, j) =>
      if j == at then r.(phase := Recording(at, at))
      else Race(r.pids[path[j] := At(r.pids, path[j]).(current := At(r.pids, path[j]).current - 1)], Undoing(at, j + 1))
    case Recording(at, k) =>
      if k == |path| then r.(phase := Rejected(at))
      else if !HasLiveParent(t, path[k]) then r.(phase := Recording(at, k + 1))
      else Race(r.pids[path[k] := At(r.pids, path[k]).(events := At(r.pids, path[k]).events + 1)], Recording(at, k + 1))
    case Granted => r
    case Rejected(_) => r
  }

  /** What the others do to the counters. */
  function Other(pids: PidsMap, m: Move): PidsMap {
    match m
    case Advance => pids
    case Release(n) => pids[n := At(pids, n).(current := At(pids, n).current - 1)]
    case SetLimit(n, maximum) => pids[n := At(pids, n).(maximum := maximum)]
  }

  function Moved(t: Tree, path: seq<Node>, r: Race, m: Move): (r': Race)
    requires PhaseOk(path, r.phase)
    ensures PhaseOk(path, r'.phase)
  {
    if m.Advance? then Advanced(t, path, r) else r.(pids := Other(r.pids, m))
  }

  function AfterMoves(t: Tree, path: seq<Node>, pids: PidsMap, moves: seq<Move>): (r: Race)
    ensures PhaseOk(path, r.phase)
  {
    if moves == [] then Race(pids, Charging(0))
    else Moved(t, path, AfterMoves(t, path, pids, moves[..|moves| - 1]), moves[|moves| - 1])
  }

  /** The counters if the charge had never begun. */
  function Alone(pids: PidsMap, moves: seq<Move>): PidsMap {
    if moves == [] then pids else Other(Alone(pids, moves[..|moves| - 1]), moves[|moves| - 1])
  }

  // ---- All or nothing, whatever comes between ----

  lemma NextHeld(path: seq<Node>, i: nat, n: Node)
    requires Distinct(path) && i < |path|
    ensures One(n in Elements(path[..i + 1])) == One(n in Elements(path[..i])) + One(n == path[i])
  {
    assert path[..i + 1] == path[..i] + [path[i]];
  }

  lemma NextLetGo(path: seq<Node>, j: nat, at: nat, n: Node)
    requires Distinct(path) && j < at <= |path|
    ensures One(n in Elements(path[j + 1..at])) == One(n in Elements(path[j..at])) - One(n == path[j])
  {
    assert path[j..at] == [path[j]] + path[j + 1..at];
  }

  lemma NextPassed(path: seq<Node>, at: nat, k: nat, n: Node)
    requires Distinct(path) && at <= k < |path|
    ensures One(n in Elements(path[at..k + 1])) == One(n in Elements(path[at..k])) + One(n == path[k])
  {
    assert path[at..k + 1] == path[at..k] + [path[k]];
  }

  /** An advance moves a counter by exactly what it changes in the nodes held, and no limit. */
  lemma AdvanceCounts(t: Tree, path: seq<Node>, r: Race, n: Node)
    requires Distinct(path) && PhaseOk(path, r.phase)
    ensures
      var r' := Advanced(t, path, r);
      && At(r'.pids, n).current ==
           At(r.pids, n).current + One(n in Held(path, r'.phase)) - One(n in Held(path, r.phase))
      && At(r'.pids, n).maximum == At(r.pids, n).maximum
  {
    match r.phase {
      case Charging(i) =>
        if i == |path| { assert path[..i] == path; }
        else if Refuses(At(r.pids, path[i])) { assert path[0..i] == path[..i]; }
        else { NextHeld(path, i, n); }
      case Undoing(at, j) => if j < at { NextLetGo(path, j, at, n); }
      case Recording(_, _) =>
      case Granted =>
      case Rejected(_) =>
    }
  }

  lemma AdvanceEvents(t: Tree, path: seq<Node>, r: Race, n: Node)
    requires Distinct(path) && PhaseOk(path, r.phase)
    ensures
      var r' := Advanced(t, path, r);
      At(r'.pids, n).events - One(n in Passed(path, r'.phase) && HasLiveParent(t, n)) ==
        At(r.pids, n).events - One(n in Passed(path, r.phase) && HasLiveParent(t, n))
  {
    match r.phase {
      case Charging(_) =>
      case Undoing(_, _) =>
      case Recording(at, k) => if k == |path| { assert path[at..k] == path[at..]; } else { NextPassed(path, at, k, n); }
      case Granted =>
      case Rejected(_) =>
    }
  }

  /** `a` counts `d` more tasks at `n` than `b`, under the same limit. */
  ghost predicate Ahead(a: PidsMap, b: PidsMap, n: Node, d: int) {
    At(a, n).current == At(b, n).current + d && At(a, n).maximum == At(b, n).maximum
  }

  lemma OthersKeepAhead(a: PidsMap, b: PidsMap, m: Move, n: Node, d: int)
    requires Ahead(a, b, n, d)
    ensures Ahead(Other(a, m), Other(b, m), n, d)
  {
  }

  /** At every moment, whatever was released and limited in between, the counters are those without
      the charge plus one at each node it holds. Granted, it holds the whole path; rejected,
      nothing. */
  lemma {:induction false} CountersCommute(t: Tree, path: seq<Node>, pids: PidsMap, moves: seq<Move>, n: Node)
    requires Distinct(path)
    ensures
      var r := AfterMoves(t, path, pids, moves);
      Ahead(r.pids, Alone(pids, moves), n, One(n in Held(path, r.phase)))
  {
    if moves == [] {
      assert path[..0] == [];
    } else {
      var before, m := moves[..|moves| - 1], moves[|moves| - 1];
      var r := AfterMoves(t, path, pids, before);
      CountersCommute(t, path, pids, before, n);
      if m.Advance? {
        AdvanceCounts(t, path, r, n);
      } else {
        OthersKeepAhead(r.pids, Alone(pids, before), m, n, One(n in Held(path, r.phase)));
      }
    }
  }

  /** A rejection counts one event at the refusing node and each node above it on the path that has
      a live parent; a grant none. */
  lemma {:induction false} EventsCount(t: Tree, path: seq<Node>, pids: PidsMap, moves: seq<Move>, n: Node)
    requires Distinct(path)
    ensures
      var r := AfterMoves(t, path, pids, moves);
      At(r.pids, n).events == At(pids, n).events + One(n in Passed(path, r.phase) && HasLiveParent(t, n))
  {
    if moves != [] {
      var before, m := moves[..|moves| - 1], moves[|moves| - 1];
      EventsCount(t, path, pids, before, n);
      if m.Advance? { AdvanceEvents(t, path, AfterMoves(t, path, pids, before), n); }
    }
  }

  // ---- When the outcome is that of a single step ----

  /** A limit lowered to or below what the others count at a node the charge has just passed. */
  ghost predicate Undercuts(t: Tree, path: seq<Node>, pids: PidsMap, before: seq<Move>, m: Move) {
    var r := AfterMoves(t, path, pids, before);
    && m.SetLimit? && r.phase.Charging? && m.node in Held(path, r.phase)
    && Refuses(At(Other(Alone(pids, before), m), m.node))
  }

  ghost predicate NeverUndercut(t: Tree, path: seq<Node>, pids: PidsMap, moves: seq<Move>) {
    moves == [] ||
    (NeverUndercut(t, path, pids, moves[..|moves| - 1])
     && !Undercuts(t, path, pids, moves[..|moves| - 1], moves[|moves| - 1]))
  }

  /** No node before the `i`th refuses. */
  ghost predicate OpenBelow(pids: PidsMap, path: seq<Node>, i: nat)
    requires i <= |path|
  {
    forall k :: 0 <= k < i ==> !Refuses(At(pids, path[k]))
  }

  /** At the moment after the first `k` moves a single step would have stopped at the `i`th node. */
  ghost predicate StopsAt(pids: PidsMap, moves: seq<Move>, path: seq<Node>, i: nat, k: nat) {
    k <= |moves| && FirstRefusal(Alone(pids, moves[..k]), path) == i
  }

  /** Where the charge stands agrees with a single step taken at some moment so far. */
  ghost predicate Agrees(pids: PidsMap, moves: seq<Move>, path: seq<Node>, phase: Phase)
    requires PhaseOk(path, phase)
  {
    match phase
    case Charging(i) => OpenBelow(Alone(pids, moves), path, i)
    case Undoing(at, _) => exists k :: StopsAt(pids, moves, path, at, k)
    case Recording(at, _) => exists k :: StopsAt(pids, moves, path, at, k)
    case Granted => exists k :: StopsAt(pids, moves, path, |path|, k)
    case Rejected(at) => exists k :: StopsAt(pids, moves, path, at, k)
  }

  lemma {:induction false} FirstIs(pids: PidsMap, path: seq<Node>, i: nat)
    requires i <= |path| && OpenBelow(pids, path, i) && (i < |path| ==> Refuses(At(pids, path[i])))
    ensures FirstRefusal(pids, path) == i
    decreases i
  {
    if i > 0 {
      assert !Refuses(At(pids, path[0]));
      assert forall k :: 0 <= k < i - 1 ==> path[1..][k] == path[k + 1];
      FirstIs(pids, path[1..], i - 1);
    }
  }

  lemma StoppedNow(pids: PidsMap, moves: seq<Move>, path: seq<Node>, i: nat)
    requires i <= |path| && OpenBelow(Alone(pids, moves), path, i)
    requires i < |path| ==> Refuses(At(Alone(pids, moves), path[i]))
    ensures StopsAt(pids, moves, path, i, |moves|)
  {
    assert moves[..|moves|] == moves;
    FirstIs(Alone(pids, moves), path, i);
  }

  lemma StoppedBefore(pids: PidsMap, moves: seq<Move>, path: seq<Node>, i: nat, k: nat)
    requires moves != [] && StopsAt(pids, moves[..|moves| - 1], path, i, k)
    ensures StopsAt(pids, moves, path, i, k)
  {
    assert moves[..|moves| - 1][..k] == moves[..k];
  }

  /** The node looked at next is not held, so it counts what the others count. */
  lemma NextIsAlone(t: Tree, path: seq<Node>, pids: PidsMap, moves: seq<Move>)
    requires Distinct(path)
    ensures
      var r := AfterMoves(t, path, pids, moves);
      r.phase.Charging? && r.phase.next < |path| ==>
        (Refuses(At(r.pids, path[r.phase.next])) <==> Refuses(At(Alone(pids, moves), path[r.phase.next])))
  {
    var r := AfterMoves(t, path, pids, moves);
    if r.phase.Charging? && r.phase.next < |path| {
      CountersCommute(t, path, pids, moves, path[r.phase.next]);
    }
  }

  lemma AdvanceAgrees(t: Tree, path: seq<Node>, pids: PidsMap, before: seq<Move>)
    requires Distinct(path) && Agrees(pids, before, path, AfterMoves(t, path, pids, before).phase)
    ensures
      var r := AfterMoves(t, path, pids, before);
      Agrees(pids, before, path, Advanced(t, path, r).phase)
  {
    var r := AfterMoves(t, path, pids, before);
    if r.phase.Charging? {
      NextIsAlone(t, path, pids, before);
      if r.phase.next == |path| || Refuses(At(r.pids, path[r.phase.next])) {
        StoppedNow(pids, before, path, r.phase.next);
      }
    }
  }

  lemma LaterAgrees(pids: PidsMap, moves: seq<Move>, path: seq<Node>, phase: Phase)
    requires moves != [] && PhaseOk(path, phase) && !phase.Charging?
    requires Agrees(pids, moves[..|moves| - 1], path, phase)
    ensures Agrees(pids, moves, path, phase)
  {
    var i := if phase.Granted? then |path| else phase.at;
    var k :| StopsAt(pids, moves[..|moves| - 1], path, i, k);
    StoppedBefore(pids, moves, path, i, k);
  }

  /** Releases leave room, and a limit that does not undercut leaves the nodes passed open. */
  lemma StaysOpen(pids: PidsMap, m: Move, path: seq<Node>, i: nat)
    requires i <= |path| && OpenBelow(pids, path, i)
    requires m.SetLimit? && m.node in Elements(path[..i]) ==> !Refuses(At(Other(pids, m), m.node))
    ensures OpenBelow(Other(pids, m), path, i)
  {
    forall k | 0 <= k < i ensures !Refuses(At(Other(pids, m), path[k])) {
      assert path[k] == path[..i][k] && path[k] in Elements(path[..i]);
    }
  }

  lemma {:induction false} AlwaysAgrees(t: Tree, path: seq<Node>, pids: PidsMap, moves: seq<Move>)
    requires Distinct(path) && NeverUndercut(t, path, pids, moves)
    ensures Agrees(pids, moves, path, AfterMoves(t, path, pids, moves).phase)
  {
    if moves != [] {
      var before, m := moves[..|moves| - 1], moves[|moves| - 1];
      var r, r' := AfterMoves(t, path, pids, before), AfterMoves(t, path, pids, moves);
      AlwaysAgrees(t, path, pids, before);
      if m.Advance? { AdvanceAgrees(t, path, pids, before); }
      if r'.phase.Charging? {
        StaysOpen(Alone(pids, before), m, path, r'.phase.next);
      } else {
        LaterAgrees(pids, moves, path, r'.phase);
      }
    }
  }

  /** The same tasks, limits and events at every node; peaks are not compared. */
  ghost predicate SameCounts(a: PidsMap, b: PidsMap) {
    forall n: Node :: Ahead(a, b, n, 0) && At(a, n).events == At(b, n).events
  }

  lemma {:induction false} AloneFrom(pids: PidsMap, moves: seq<Move>, k: nat)
    requires k <= |moves|
    ensures Alone(pids, moves) == Alone(Alone(pids, moves[..k]), moves[k..])
    decreases |moves|
  {
    if k == |moves| {
      assert moves[..k] == moves && moves[k..] == [];
    } else {
      var before := moves[..|moves| - 1];
      AloneFrom(pids, before, k);
      assert before[..k] == moves[..k] && before[k..] == moves[k..][..|moves[k..]| - 1];
    }
  }

  lemma {:induction false} AloneKeepsAhead(a: PidsMap, b: PidsMap, moves: seq<Move>, n: Node, d: int)
    requires Ahead(a, b, n, d)
    ensures Ahead(Alone(a, moves), Alone(b, moves), n, d) && At(Alone(a, moves), n).events == At(a, n).events
  {
    if moves != [] {
      var before, m := moves[..|moves| - 1], moves[|moves| - 1];
      AloneKeepsAhead(a, b, before, n, d);
      OthersKeepAhead(Alone(a, before), Alone(b, before), m, n, d);
    }
  }

  function InOneStep(t: Tree, path: seq<Node>, pids: PidsMap): PidsMap {
    var i := FirstRefusal(pids, path);
    if i == |path| then Charge(pids, Elements(path), 1)
    else Refused(t, pids, Elements(path[..i]), Elements(path[i..]))
  }

  /** The whole charge as one step at the moment `k`, the others' moves before and after it. */
  ghost function AtOnce(t: Tree, path: seq<Node>, pids: PidsMap, moves: seq<Move>, k: nat): PidsMap
    requires k <= |moves|
  {
    Alone(InOneStep(t, path, Alone(pids, moves[..k])), moves[k..])
  }

  lemma GrantAtOnce(t: Tree, path: seq<Node>, pids: PidsMap, moves: seq<Move>, k: nat)
    requires Distinct(path) && AfterMoves(t, path, pids, moves).phase.Granted? && StopsAt(pids, moves, path, |path|, k)
    ensures SameCounts(AfterMoves(t, path, pids, moves).pids, AtOnce(t, path, pids, moves, k))
  {
    var now := Alone(pids, moves[..k]);
    AloneFrom(pids, moves, k);
    forall n: Node
      ensures
        var a, b := AfterMoves(t, path, pids, moves).pids, AtOnce(t, path, pids, moves, k);
        Ahead(a, b, n, 0) && At(a, n).events == At(b, n).events
    {
      CountersCommute(t, path, pids, moves, n);
      EventsCount(t, path, pids, moves, n);
      AloneKeepsAhead(Charge(now, Elements(path), 1), now, moves[k..], n, One(n in Elements(path)));
      AloneKeepsAhead(pids, pids, moves[..k], n, 0);
    }
  }

  lemma RefusedCounts(t: Tree, path: seq<Node>, pids: PidsMap, i: nat, n: Node)
    requires Distinct(path) && i < |path|
    ensures
      var done := Refused(t, pids, Elements(path[..i]), Elements(path[i..]));
      && Ahead(done, pids, n, 0)
      && At(done, n).events == At(pids, n).events + One(n in path[i..] && HasLiveParent(t, n))
  {
    assert path == path[..i] + path[i..];
    assert Elements(path[..i]) !! Elements(path[i..]);
    RefusedAt(t, pids, Elements(path[..i]), Elements(path[i..]), n);
  }

  lemma RejectAtOnce(t: Tree, path: seq<Node>, pids: PidsMap, moves: seq<Move>, k: nat)
    requires Distinct(path) && AfterMoves(t, path, pids, moves).phase.Rejected?
    requires StopsAt(pids, moves, path, AfterMoves(t, path, pids, moves).phase.at, k)
    ensures SameCounts(AfterMoves(t, path, pids, moves).pids, AtOnce(t, path, pids, moves, k))
  {
    var now, at := Alone(pids, moves[..k]), AfterMoves(t, path, pids, moves).phase.at;
    AloneFrom(pids, moves, k);
    forall n: Node
      ensures
        var a, b := AfterMoves(t, path, pids, moves).pids, AtOnce(t, path, pids, moves, k);
        Ahead(a, b, n, 0) && At(a, n).events == At(b, n).events
    {
      CountersCommute(t, path, pids, moves, n);
      EventsCount(t, path, pids, moves, n);
      RefusedCounts(t, path, now, at, n);
      AloneKeepsAhead(Refused(t, now, Elements(path[..at]), Elements(path[at..])), now, moves[k..], n, 0);
      AloneKeepsAhead(pids, pids, moves[..k], n, 0);
    }
  }

  /** Charging node by node is as good as charging in one step at some moment in between: with the
      same outcome, and with the same tasks, limits and events at every node, whatever is released
      meanwhile and however limits change, unless a limit is lowered under a node just passed. */
  lemma ChargeIsAtomic(t: Tree, path: seq<Node>, pids: PidsMap, moves: seq<Move>) returns (k: nat)
    requires Distinct(path) && NeverUndercut(t, path, pids, moves)
    requires
      var phase := AfterMoves(t, path, pids, moves).phase;
      phase.Granted? || phase.Rejected?
    ensures
      var r := AfterMoves(t, path, pids, moves);
      && StopsAt(pids, moves, path, if r.phase.Granted? then |path| else r.phase.at, k)
      && SameCounts(r.pids, AtOnce(t, path, pids, moves, k))
  {
    var phase := AfterMoves(t, path, pids, moves).phase;
    AlwaysAgrees(t, path, pids, moves);
    k :| StopsAt(pids, moves, path, if phase.Granted? then |path| else phase.at, k);
    if phase.Granted? { GrantAtOnce(t, path, pids, moves, k); } else { RejectAtOnce(t, path, pids, moves, k); }
  }

  /** That one step is the reserve step of the transition system. */
  lemma AtOnceIsBegin(s: State, g: GuardId, target: Node, process: ProcessId, task: ProcessId, kind: ChildKind)
    requires task !in s.pending && task !in s.tasks
    ensures
      var (path, begun) := (Ancestry(s.tree, target), BeginAt(s, g, target, process, task, kind));
      begun.0.pids == InOneStep(s.tree, path, s.pids) && (begun.1.Ok? <==> FirstRefusal(s.pids, path) == |path|)
  {
  }

  /** And the others' moves are its steps. */
  lemma ReleaseIsStep(s: State, g: GuardId)
    requires g in s.guards && s.guards[g].phase.Releasing? && s.guards[g].phase.next < |s.guards[g].path|
    ensures DropReleaseStep(s, g).0.pids == Other(s.pids, Release(s.guards[g].path[s.guards[g].phase.next]))
  {
  }

  lemma SetLimitIsStep(s: State, n: Node, maximum: Limit)
    requires n in s.tree.alive
    ensures TreeStep(s, SetMaximum(n, maximum)).0.pids == Other(s.pids, SetLimit(n, maximum))
  {
  }

  // ---- What holds even then ----

  ghost predicate RoomAt(pids: PidsMap, moves: seq<Move>, n: Node, k: nat) {
    k <= |moves| && !Refuses(At(Alone(pids, moves[..k]), n))
  }

  /** How many nodes were found to have room. */
  function Reached(path: seq<Node>, phase: Phase): (i: nat)
    requires PhaseOk(path, phase)
    ensures i <= |path|
  {
    match phase
    case Charging(i) => i
    case Undoing(at, _) => at
    case Recording(at, _) => at
    case Granted => |path|
    case Rejected(at) => at
  }

  /** Moments in order at which one node of the path after the other has room. */
  ghost predicate InOrder(path: seq<Node>, pids: PidsMap, moves: seq<Move>, ks: seq<nat>) {
    && |ks| <= |path|
    && (forall i :: 0 <= i < |ks| ==> RoomAt(pids, moves, path[i], ks[i]))
    && (forall i, j :: 0 <= i < j < |ks| ==> ks[i] <= ks[j])
  }

  lemma LaterInOrder(path: seq<Node>, pids: PidsMap, moves: seq<Move>, ks: seq<nat>)
    requires moves != [] && InOrder(path, pids, moves[..|moves| - 1], ks)
    ensures InOrder(path, pids, moves, ks)
  {
    forall i | 0 <= i < |ks| ensures RoomAt(pids, moves, path[i], ks[i]) {
      assert RoomAt(pids, moves[..|moves| - 1], path[i], ks[i]);
      assert moves[..|moves| - 1][..ks[i]] == moves[..ks[i]];
    }
  }

  lemma OneMoreInOrder(path: seq<Node>, pids: PidsMap, moves: seq<Move>, ks: seq<nat>)
    requires moves != [] && InOrder(path, pids, moves[..|moves| - 1], ks) && |ks| < |path|
    requires !Refuses(At(Alone(pids, moves[..|moves| - 1]), path[|ks|]))
    ensures InOrder(path, pids, moves, ks + [|moves| - 1])
  {
    LaterInOrder(path, pids, moves, ks);
    forall i | 0 <= i < |ks| ensures ks[i] <= |moves| - 1 {
      assert RoomAt(pids, moves[..|moves| - 1], path[i], ks[i]);
    }
  }

  /** Limits lowered or not: a charge only gets past nodes that have room, each at its moment and the
      moments in the order of the path. */
  lemma {:induction false} ReachedInOrder(t: Tree, path: seq<Node>, pids: PidsMap, moves: seq<Move>)
    returns (ks: seq<nat>)
    requires Distinct(path)
    ensures |ks| == Reached(path, AfterMoves(t, path, pids, moves).phase) && InOrder(path, pids, moves, ks)
  {
    if moves == [] {
      ks := [];
    } else {
      var before := moves[..|moves| - 1];
      ks := ReachedInOrder(t, path, pids, before);
      if Reached(path, AfterMoves(t, path, pids, moves).phase) > |ks| {
        NextIsAlone(t, path, pids, before);
        OneMoreInOrder(path, pids, moves, ks);
        ks := ks + [|before|];
      } else {
        LaterInOrder(path, pids, moves, ks);
      }
    }
  }

  /** And it is only rejected at a node that is full at some moment, so at that moment a single step
      would have been rejected as well, there or further down. */
  lemma {:induction false} RejectionIsJustified(t: Tree, path: seq<Node>, pids: PidsMap, moves: seq<Move>)
    returns (k: nat)
    requires Distinct(path)
    requires
      var phase := AfterMoves(t, path, pids, moves).phase;
      phase.Undoing? || phase.Recording? || phase.Rejected?
    ensures k <= |moves| && FirstRefusal(Alone(pids, moves[..k]), path) <= AfterMoves(t, path, pids, moves).phase.at
  {
    if moves != [] {
      var before := moves[..|moves| - 1];
      var phase := AfterMoves(t, path, pids, before).phase;
      if phase.Charging? {
        NextIsAlone(t, path, pids, before);
        k := |before|;
        assert moves[..k] == before;
      } else {
        k := RejectionIsJustified(t, path, pids, before);
        assert before[..k] == moves[..k];
      }
    }
  }

  // ---- A limit that comes too late ----

  lemma MoveOn(t: Tree, path: seq<Node>, pids: PidsMap, moves: seq<Move>, k: nat)
    requires k < |moves|
    ensures AfterMoves(t, path, pids, moves[..k + 1]) == Moved(t, path, AfterMoves(t, path, pids, moves[..k]), moves[k])
    ensures Alone(pids, moves[..k + 1]) == Other(Alone(pids, moves[..k]), moves[k])
  {
    assert moves[..k + 1][..k] == moves[..k];
  }

  const LOW: Node := 2
  const FULL: PidsMap := map[ROOT := Pids(1, 1, 1, 0), LOW := Pids(0, 0, 5, 0)]
  const LATE: seq<Move> := [Advance, SetLimit(LOW, 0), Release(ROOT), Advance, Advance]

  lemma LateMoments(t: Tree, k: nat)
    requires k <= |LATE|
    ensures FirstRefusal(Alone(FULL, LATE[..k]), [LOW, ROOT]) < 2
  {
    if k > 0 { MoveOn(t, [LOW, ROOT], FULL, LATE, k - 1); }
    if k > 2 { LowStaysShut(t, k); }
    if k == 2 { MoveOn(t, [LOW, ROOT], FULL, LATE, 0); }
  }

  /** From the second move on the low node admits nobody. */
  lemma {:induction false} LowStaysShut(t: Tree, k: nat)
    requires 2 <= k <= |LATE|
    ensures At(Alone(FULL, LATE[..k]), LOW).maximum == 0 && At(Alone(FULL, LATE[..k]), LOW).current == 0
  {
    MoveOn(t, [LOW, ROOT], FULL, LATE, k - 1);
    if k > 2 { LowStaysShut(t, k - 1); } else { MoveOn(t, [LOW, ROOT], FULL, LATE, 0); }
  }

  lemma LateRun(t: Tree)
    ensures AfterMoves(t, [LOW, ROOT], FULL, LATE).phase == Granted
  {
    var path := [LOW, ROOT];
    var r1 := Race(FULL[LOW := Pids(1, 1, 5, 0)], Charging(1));
    MoveOn(t, path, FULL, LATE, 0);
    assert AfterMoves(t, path, FULL, LATE[..1]) == r1;
    var r2 := r1.(pids := r1.pids[LOW := Pids(1, 1, 0, 0)]);
    MoveOn(t, path, FULL, LATE, 1);
    assert AfterMoves(t, path, FULL, LATE[..2]) == r2;
    var r3 := r2.(pids := r2.pids[ROOT := Pids(0, 1, 1, 0)]);
    MoveOn(t, path, FULL, LATE, 2);
    assert AfterMoves(t, path, FULL, LATE[..3]) == r3;
    MoveOn(t, path, FULL, LATE, 3);
    assert AfterMoves(t, path, FULL, LATE[..4]).phase == Charging(2);
    MoveOn(t, path, FULL, LATE, 4);
    assert LATE[..5] == LATE;
  }

  /** A grant although at no moment a single step would have been granted: the low node is passed,
      its limit falls to zero, and only then the full root is let go. */
  lemma LimitComesTooLate(t: Tree)
    ensures AfterMoves(t, [LOW, ROOT], FULL, LATE).phase == Granted
    ensures forall k :: 0 <= k <= |LATE| ==> !StopsAt(FULL, LATE, [LOW, ROOT], 2, k)
  {
    LateRun(t);
    forall k | 0 <= k <= |LATE| ensures !StopsAt(FULL, LATE, [LOW, ROOT], 2, k) { LateMoments(t, k); }
  }
}
