/** One-time initialisation of a shared cell by any number of concurrent calls, step by atomic
    step. */
module LazyInit {

  import opened Options

  datatype Byte = Uninit | Initializing | Inited

  /** Where a call stands. `Enter` is about to read the cell; `Entered` has read it, `None` being
      memory never written; `Failed` returned an error or unwound. */
  datatype Pc =
    | FastCheck
    | Exchange
    | Initializer
    | Write(value: nat)
    | Publish
    | Spin
    | Recheck
    | Enter
    | Entered(seen: Option<nat>)
    | Failed

  datatype State = State(byte: Byte, data: Option<nat>, writes: nat, pcs: map<nat, Pc>)

  const INITIAL := State(Uninit, None, 0, map[])

  /** `Fails` is an initializer error or panic; `Spurious` a weak exchange failing for nothing. */
  datatype Step =
    | Call(t: nat)
    | Run(t: nat)
    | Spurious(t: nat)
    | Yields(t: nat, value: nat)
    | Fails(t: nat)

  predicate At(s: State, t: nat, pc: Pc) {
    t in s.pcs && s.pcs[t] == pc
  }

  predicate Legal(s: State, step: Step) {
    match step
    case Call(t) => t !in s.pcs
    case Run(t) => t in s.pcs && !s.pcs[t].Initializer? && !s.pcs[t].Entered? && !s.pcs[t].Failed?
    case Spurious(t) => At(s, t, Exchange) && s.byte == Uninit
    case Yields(t, _) => At(s, t, Initializer)
    case Fails(t) => At(s, t, Initializer)
  }

  function Goto(s: State, t: nat, pc: Pc): State {
    s.(pcs := s.pcs[t := pc])
  }

  function RunStep(s: State, t: nat): State
    requires Legal(s, Run(t))
  {
    match s.pcs[t]
    case FastCheck => Goto(s, t, if s.byte == Inited then Enter else Exchange)
    case Exchange =>
      (match s.byte
       case Uninit => Goto(s, t, Initializer).(byte := Initializing)
       case Initializing => Goto(s, t, Spin)
       case Inited => Goto(s, t, Enter))
    case Write(v) => Goto(s, t, Publish).(data := Some(v), writes := s.writes + 1)
    case Publish => Goto(s, t, Enter).(byte := Inited)
    case Spin => if s.byte == Initializing then s else Goto(s, t, Recheck)
    case Recheck => Goto(s, t, if s.byte == Uninit then Exchange else Enter)
    case Enter => Goto(s, t, Entered(s.data))
  }

  function Next(s: State, step: Step): State
    requires Legal(s, step)
  {
    match step
    case Call(t) => Goto(s, t, FastCheck)
    case Run(t) => RunStep(s, t)
    case Spurious(t) => s
    case Yields(t, v) => Goto(s, t, Write(v))
    case Fails(t) => Goto(s, t, Failed).(byte := Uninit)
  }

  // ---- Mutual exclusion ----

  predicate Owns(pc: Pc) {
    pc.Initializer? || pc.Write? || pc.Publish?
  }

  /** A call inside the critical section holds the byte, alone, and the cell holds a value exactly
      once it has been written. */
  ghost predicate Inv(s: State) {
    && (forall t :: t in s.pcs && Owns(s.pcs[t]) ==> s.byte == Initializing)
    && (forall t, u :: t in s.pcs && u in s.pcs && Owns(s.pcs[t]) && Owns(s.pcs[u]) ==> t == u)
    && (forall t :: t in s.pcs && Owns(s.pcs[t]) ==> (s.pcs[t].Publish? <==> s.data.Some?))
    && (s.byte == Initializing ==> exists t :: t in s.pcs && Owns(s.pcs[t]))
    && (s.byte == Uninit ==> s.data == None)
    && (s.byte == Inited ==> s.data.Some?)
    && s.writes == (if s.data.Some? then 1 else 0)
  }

  lemma GotoKeepsOwner(s: State, t: nat, pc: Pc)
    requires Inv(s) && !Owns(pc) && (t in s.pcs ==> !Owns(s.pcs[t]))
    ensures Inv(Goto(s, t, pc))
  {
    if s.byte == Initializing {
      var u :| u in s.pcs && Owns(s.pcs[u]);
      assert u in Goto(s, t, pc).pcs && Owns(Goto(s, t, pc).pcs[u]);
    }
  }

  lemma OwnerMoves(s: State, t: nat, pc: Pc, s': State)
    requires Inv(s) && t in s.pcs && Owns(s.pcs[t]) && s'.pcs == s.pcs[t := pc]
    requires if Owns(pc) then s'.byte == Initializing && (pc.Publish? <==> s'.data.Some?)
             else if s'.data.Some? then s'.byte == Inited else s'.byte == Uninit
    requires s'.writes == if s'.data.Some? then 1 else 0
    ensures Inv(s')
  {
    assert t in s'.pcs;
    assert forall u :: u in s'.pcs && u != t ==> !Owns(s'.pcs[u]);
  }

  lemma StepKeepsInv(s: State, step: Step)
    requires Inv(s) && Legal(s, step)
    ensures Inv(Next(s, step))
  {
    var t := step.t;
    var s' := Next(s, step);
    if step.Spurious? {
    } else if t in s.pcs && Owns(s.pcs[t]) {
      OwnerMoves(s, t, s'.pcs[t], s');
    } else if step.Run? && s.pcs[t].Exchange? && s.byte == Uninit {
      assert t in s'.pcs && Owns(s'.pcs[t]);
    } else if step.Run? && s' == s {
    } else {
      GotoKeepsOwner(s, t, s'.pcs[t]);
    }
  }

  // ---- Runs ----

  ghost predicate IsRun(s: State, steps: seq<Step>)
    decreases |steps|
  {
    steps == [] || (Legal(s, steps[0]) && IsRun(Next(s, steps[0]), steps[1..]))
  }

  ghost function After(s: State, steps: seq<Step>): State
    requires IsRun(s, steps)
    decreases |steps|
  {
    if steps == [] then s else After(Next(s, steps[0]), steps[1..])
  }

  lemma {:induction false} RunKeepsInv(s: State, steps: seq<Step>)
    requires Inv(s) && IsRun(s, steps)
    ensures Inv(After(s, steps))
    decreases |steps|
  {
    if steps != [] {
      StepKeepsInv(s, steps[0]);
      RunKeepsInv(Next(s, steps[0]), steps[1..]);
    }
  }

  /** Even with failing initializers, at most one call is between taking the byte and giving it
      back, and the cell is written at most once. */
  lemma OneInitializerAtATime(steps: seq<Step>, t: nat, u: nat)
    requires IsRun(INITIAL, steps)
    ensures
      var s := After(INITIAL, steps);
      && s.writes <= 1
      && (t in s.pcs && u in s.pcs && Owns(s.pcs[t]) && Owns(s.pcs[u]) ==> t == u)
  {
    RunKeepsInv(INITIAL, steps);
  }

  lemma {:induction false} StaysInited(s: State, steps: seq<Step>)
    requires Inv(s) && IsRun(s, steps) && s.byte == Inited
    ensures After(s, steps).byte == Inited && After(s, steps).data == s.data
    decreases |steps|
  {
    if steps != [] {
      StepKeepsInv(s, steps[0]);
      StaysInited(Next(s, steps[0]), steps[1..]);
    }
  }

  /** Once published the value is there and never changes. */
  lemma PublishedIsFinal(steps: seq<Step>, more: seq<Step>)
    requires IsRun(INITIAL, steps) && IsRun(After(INITIAL, steps), more)
    requires After(INITIAL, steps).byte == Inited
    ensures
      var s := After(INITIAL, steps);
      s.data.Some? && After(s, more).byte == Inited && After(s, more).data == s.data
  {
    RunKeepsInv(INITIAL, steps);
    StaysInited(After(INITIAL, steps), more);
  }

  // ---- What calls read ----

  /** Every call that has read the cell read the published value. */
  ghost predicate ReadsPublished(s: State) {
    forall t :: t in s.pcs && s.pcs[t].Entered? ==> s.byte == Inited && s.pcs[t].seen == s.data
  }

  ghost predicate AlwaysReadsPublished(s: State, steps: seq<Step>)
    requires IsRun(s, steps)
    decreases |steps|
  {
    ReadsPublished(s) && (steps != [] ==> AlwaysReadsPublished(Next(s, steps[0]), steps[1..]))
  }

  /** A call reads the cell while it is not published. */
  predicate ReadsEarly(s: State, step: Step) {
    step.Run? && At(s, step.t, Enter) && s.byte != Inited
  }

  ghost predicate NeverReadsEarly(s: State, steps: seq<Step>)
    requires IsRun(s, steps)
    decreases |steps|
  {
    steps != [] ==> !ReadsEarly(s, steps[0]) && NeverReadsEarly(Next(s, steps[0]), steps[1..])
  }

  lemma StepReadsPublished(s: State, step: Step)
    requires Inv(s) && ReadsPublished(s) && Legal(s, step)
    ensures ReadsPublished(Next(s, step)) <==> !ReadsEarly(s, step)
  {
    var s' := Next(s, step);
    assert forall u :: u in s.pcs && u != step.t ==> s'.pcs[u] == s.pcs[u];
    if ReadsEarly(s, step) {
      assert step.t in s'.pcs && s'.pcs[step.t].Entered?;
    }
  }

  lemma {:induction false} RunReadsPublished(s: State, steps: seq<Step>)
    requires Inv(s) && ReadsPublished(s) && IsRun(s, steps)
    ensures AlwaysReadsPublished(s, steps) <==> NeverReadsEarly(s, steps)
    decreases |steps|
  {
    if steps != [] {
      StepKeepsInv(s, steps[0]);
      StepReadsPublished(s, steps[0]);
      if !ReadsEarly(s, steps[0]) {
        RunReadsPublished(Next(s, steps[0]), steps[1..]);
      }
    }
  }

  /** Over any run, every call reads the published value if and only if none reads before the byte
      says so. */
  lemma OnlyPublishedValuesIff(steps: seq<Step>)
    requires IsRun(INITIAL, steps)
    ensures AlwaysReadsPublished(INITIAL, steps) <==> NeverReadsEarly(INITIAL, steps)
  {
    RunReadsPublished(INITIAL, steps);
  }

  // ---- How calls are let through ----

  ghost predicate LetThroughWhenPublished(s: State) {
    forall t :: t in s.pcs && s.pcs[t].Enter? ==> s.byte == Inited
  }

  /** Calls let through to the cell find it published, and those that read it read the value. */
  ghost predicate Sound(s: State) {
    LetThroughWhenPublished(s) && ReadsPublished(s)
  }

  ghost predicate AlwaysSound(s: State, steps: seq<Step>)
    requires IsRun(s, steps)
    decreases |steps|
  {
    Sound(s) && (steps != [] ==> AlwaysSound(Next(s, steps[0]), steps[1..]))
  }

  /** The second load of a waiter finds a new initialisation under way. */
  predicate Slips(s: State, step: Step) {
    step.Run? && At(s, step.t, Recheck) && s.byte == Initializing
  }

  ghost predicate NeverSlips(s: State, steps: seq<Step>)
    requires IsRun(s, steps)
    decreases |steps|
  {
    steps != [] ==> !Slips(s, steps[0]) && NeverSlips(Next(s, steps[0]), steps[1..])
  }

  lemma StepLetsThrough(s: State, step: Step)
    requires Inv(s) && LetThroughWhenPublished(s) && Legal(s, step)
    ensures LetThroughWhenPublished(Next(s, step)) <==> !Slips(s, step)
  {
    var s' := Next(s, step);
    assert forall u :: u in s.pcs && u != step.t ==> s'.pcs[u] == s.pcs[u];
    if Slips(s, step) {
      assert step.t in s'.pcs && s'.pcs[step.t].Enter?;
    }
  }

  lemma StepKeepsSound(s: State, step: Step)
    requires Inv(s) && Sound(s) && Legal(s, step)
    ensures Sound(Next(s, step)) <==> !Slips(s, step)
  {
    StepLetsThrough(s, step);
    StepReadsPublished(s, step);
  }

  lemma {:induction false} SoundUnlessSlips(s: State, steps: seq<Step>)
    requires Inv(s) && Sound(s) && IsRun(s, steps)
    ensures AlwaysSound(s, steps) <==> NeverSlips(s, steps)
    decreases |steps|
  {
    if steps != [] {
      StepKeepsInv(s, steps[0]);
      StepKeepsSound(s, steps[0]);
      if !Slips(s, steps[0]) {
        SoundUnlessSlips(Next(s, steps[0]), steps[1..]);
      }
    }
  }

  /** Over any run, calls are only ever let through to a published cell if and only if no waiter's
      second load finds the byte back at initializing. */
  lemma LetThroughWhenPublishedIff(steps: seq<Step>)
    requires IsRun(INITIAL, steps)
    ensures AlwaysSound(INITIAL, steps) <==> NeverSlips(INITIAL, steps)
  {
    SoundUnlessSlips(INITIAL, steps);
  }

  // ---- Who reads early ----

  /** Call `t` slipped through at some step of the run. */
  ghost predicate Slipped(s: State, steps: seq<Step>, t: nat)
    requires IsRun(s, steps)
    decreases |steps|
  {
    steps != [] && ((Slips(s, steps[0]) && steps[0].t == t) || Slipped(Next(s, steps[0]), steps[1..], t))
  }

  /** Call `t` has not been let through early, nor has it read unwritten memory. */
  ghost predicate Proper(s: State, t: nat) {
    t in s.pcs ==> (s.pcs[t].Enter? ==> s.byte == Inited) && (s.pcs[t].Entered? ==> s.pcs[t].seen.Some?)
  }

  lemma StepStaysProper(s: State, step: Step, t: nat)
    requires Inv(s) && Proper(s, t) && Legal(s, step) && !(Slips(s, step) && step.t == t)
    ensures Proper(Next(s, step), t)
  {
  }

  lemma {:induction false} ProperUnlessSlipped(s: State, steps: seq<Step>, t: nat)
    requires Inv(s) && Proper(s, t) && IsRun(s, steps)
    ensures Proper(After(s, steps), t) || Slipped(s, steps, t)
    decreases |steps|
  {
    if steps != [] && !(Slips(s, steps[0]) && steps[0].t == t) {
      StepKeepsInv(s, steps[0]);
      StepStaysProper(s, steps[0], t);
      ProperUnlessSlipped(Next(s, steps[0]), steps[1..], t);
    }
  }

  /** Only a call that slipped through can read early. */
  lemma EarlyReadFollowsSlip(steps: seq<Step>, step: Step)
    requires IsRun(INITIAL, steps) && Legal(After(INITIAL, steps), step) && ReadsEarly(After(INITIAL, steps), step)
    ensures Slipped(INITIAL, steps, step.t)
  {
    ProperUnlessSlipped(INITIAL, steps, step.t);
  }

  /** A call that found something in the cell found what is there now. */
  ghost predicate SawTheValue(s: State) {
    forall t :: t in s.pcs && s.pcs[t].Entered? && s.pcs[t].seen.Some? ==> s.pcs[t].seen == s.data
  }

  lemma StepKeepsSeen(s: State, step: Step)
    requires Inv(s) && SawTheValue(s) && Legal(s, step)
    ensures SawTheValue(Next(s, step)) && (s.data.Some? ==> Next(s, step).data == s.data)
  {
    var s' := Next(s, step);
    assert forall u :: u in s.pcs && u != step.t ==> s'.pcs[u] == s.pcs[u];
  }

  lemma {:induction false} RunKeepsSeen(s: State, steps: seq<Step>)
    requires Inv(s) && SawTheValue(s) && IsRun(s, steps)
    ensures SawTheValue(After(s, steps))
    decreases |steps|
  {
    if steps != [] {
      StepKeepsInv(s, steps[0]);
      StepKeepsSeen(s, steps[0]);
      RunKeepsSeen(Next(s, steps[0]), steps[1..]);
    }
  }

  // ---- Runs in which no initializer fails ----

  ghost predicate NoFailure(steps: seq<Step>) {
    forall i :: 0 <= i < |steps| ==> !steps[i].Fails?
  }

  /** A waiter has seen the initialisation that can now only succeed. */
  ghost predicate Settled(s: State) {
    forall t :: t in s.pcs ==>
      && (s.pcs[t].Spin? ==> s.byte != Uninit)
      && (s.pcs[t].Recheck? ==> s.byte == Inited)
  }

  lemma StepKeepsSettled(s: State, step: Step)
    requires Inv(s) && Settled(s) && Legal(s, step) && !step.Fails?
    ensures Settled(Next(s, step)) && !Slips(s, step)
  {
  }

  lemma {:induction false} NoFailureNeverSlips(s: State, steps: seq<Step>)
    requires Inv(s) && Settled(s) && IsRun(s, steps) && NoFailure(steps)
    ensures NeverSlips(s, steps)
    decreases |steps|
  {
    if steps != [] {
      StepKeepsInv(s, steps[0]);
      StepKeepsSettled(s, steps[0]);
      NoFailureNeverSlips(Next(s, steps[0]), steps[1..]);
    }
  }

  lemma {:induction false} SoundAtTheEnd(s: State, steps: seq<Step>)
    requires IsRun(s, steps) && AlwaysSound(s, steps)
    ensures Sound(After(s, steps))
    decreases |steps|
  {
    if steps != [] { SoundAtTheEnd(Next(s, steps[0]), steps[1..]); }
  }

  /** What a call that has read the cell read, on any run: the one value ever written, or nothing,
      and nothing only if it slipped through; and always the published value when no initializer
      fails. */
  lemma EveryReturnIsPublished(steps: seq<Step>, t: nat)
    requires IsRun(INITIAL, steps)
    requires t in After(INITIAL, steps).pcs && After(INITIAL, steps).pcs[t].Entered?
    ensures
      var s := After(INITIAL, steps);
      && (s.pcs[t].seen.Some? ==> s.pcs[t].seen == s.data)
      && (s.pcs[t].seen == None ==> Slipped(INITIAL, steps, t))
      && (NoFailure(steps) ==> s.byte == Inited && s.data.Some? && s.pcs[t].seen == s.data)
  {
    RunKeepsSeen(INITIAL, steps);
    ProperUnlessSlipped(INITIAL, steps, t);
    if NoFailure(steps) {
      NoFailureNeverSlips(INITIAL, steps);
      LetThroughWhenPublishedIff(steps);
      SoundAtTheEnd(INITIAL, steps);
      RunKeepsInv(INITIAL, steps);
    }
  }

  // ---- Exactly which calls read nothing ----

  /** Call `t` reads the cell before anybody has written it. */
  ghost predicate ReadsUnwritten(s: State, steps: seq<Step>, t: nat)
    requires IsRun(s, steps)
    decreases |steps|
  {
    steps != [] &&
    ((steps[0] == Run(t) && At(s, t, Enter) && s.data == None) || ReadsUnwritten(Next(s, steps[0]), steps[1..], t))
  }

  lemma {:induction false} ReadIsFinal(s: State, steps: seq<Step>, t: nat)
    requires IsRun(s, steps) && t in s.pcs && s.pcs[t].Entered?
    ensures At(After(s, steps), t, s.pcs[t]) && !ReadsUnwritten(s, steps, t)
    decreases |steps|
  {
    if steps != [] {
      assert t in Next(s, steps[0]).pcs && Next(s, steps[0]).pcs[t] == s.pcs[t];
      ReadIsFinal(Next(s, steps[0]), steps[1..], t);
    }
  }

  lemma {:induction false} ReadDecides(s: State, steps: seq<Step>, t: nat)
    requires IsRun(s, steps) && (t in s.pcs ==> !s.pcs[t].Entered?)
    ensures At(After(s, steps), t, Entered(None)) <==> ReadsUnwritten(s, steps, t)
    decreases |steps|
  {
    if steps != [] {
      var s' := Next(s, steps[0]);
      if steps[0] == Run(t) && At(s, t, Enter) {
        assert s'.pcs[t] == Entered(s.data);
        ReadIsFinal(s', steps[1..], t);
      } else {
        assert t in s'.pcs ==> !s'.pcs[t].Entered?;
        ReadDecides(s', steps[1..], t);
      }
    }
  }

  /** Over any run a call comes back with memory never written if and only if it slipped through
      and read before anybody had written. A call that slipped through is saved by a write that
      comes in time. */
  lemma ReadsNothingIff(steps: seq<Step>, t: nat)
    requires IsRun(INITIAL, steps)
    ensures At(After(INITIAL, steps), t, Entered(None)) <==>
      Slipped(INITIAL, steps, t) && ReadsUnwritten(INITIAL, steps, t)
  {
    ReadDecides(INITIAL, steps, t);
    ProperUnlessSlipped(INITIAL, steps, t);
  }

  // ---- With failing initializers ----

  /** Call 0 takes the byte, call 1 waits, call 0 fails, call 1's first load sees the byte clear,
      call 2 takes it, and call 1's second load lets it through to memory never written. */
  const SLIP: seq<Step> := [
    Call(0), Call(1), Call(2),
    Run(0), Run(0),
    Run(1), Run(1),
    Fails(0), Run(1),
    Run(2), Run(2),
    Run(1), Run(1)]

  /** Three calls under way, nothing written. */
  function Three(byte: Byte, p: Pc, q: Pc, r: Pc): State {
    State(byte, None, 0, map[0 := p, 1 := q, 2 := r])
  }

  /** From this state the rest of the trace, step `i` on, leads to `end`. */
  ghost predicate Leads(s: State, i: nat, end: State)
    requires i <= |SLIP|
  {
    IsRun(s, SLIP[i..]) && After(s, SLIP[i..]) == end
  }

  lemma Back(i: nat, s: State, s': State, end: State)
    requires i < |SLIP| && Legal(s, SLIP[i]) && Next(s, SLIP[i]) == s' && Leads(s', i + 1, end)
    ensures Leads(s, i, end)
  {
  }

  lemma Closing(end: State)
    requires end == Three(Initializing, Failed, Entered(None), Initializer)
    ensures Leads(Three(Uninit, Failed, Recheck, Exchange), 10, end)
  {
    assert SLIP[13..] == [];
    Back(12, Three(Initializing, Failed, Enter, Initializer), end, end);
    Back(11, Three(Initializing, Failed, Recheck, Initializer), Three(Initializing, Failed, Enter, Initializer), end);
    Back(10, Three(Uninit, Failed, Recheck, Exchange), Three(Initializing, Failed, Recheck, Initializer), end);
  }

  lemma Failing(end: State)
    requires Leads(Three(Uninit, Failed, Recheck, Exchange), 10, end)
    ensures Leads(Three(Initializing, Initializer, Spin, FastCheck), 7, end)
  {
    Back(9, Three(Uninit, Failed, Recheck, FastCheck), Three(Uninit, Failed, Recheck, Exchange), end);
    Back(8, Three(Uninit, Failed, Spin, FastCheck), Three(Uninit, Failed, Recheck, FastCheck), end);
    Back(7, Three(Initializing, Initializer, Spin, FastCheck), Three(Uninit, Failed, Spin, FastCheck), end);
  }

  lemma Waiting(end: State)
    requires Leads(Three(Initializing, Initializer, Spin, FastCheck), 7, end)
    ensures Leads(Three(Initializing, Initializer, FastCheck, FastCheck), 5, end)
  {
    Back(6, Three(Initializing, Initializer, Exchange, FastCheck), Three(Initializing, Initializer, Spin, FastCheck),
      end);
    Back(5, Three(Initializing, Initializer, FastCheck, FastCheck),
      Three(Initializing, Initializer, Exchange, FastCheck), end);
  }

  lemma Opening(end: State)
    requires Leads(Three(Initializing, Initializer, FastCheck, FastCheck), 5, end)
    ensures Leads(Three(Uninit, FastCheck, FastCheck, FastCheck), 3, end)
  {
    Back(4, Three(Uninit, Exchange, FastCheck, FastCheck), Three(Initializing, Initializer, FastCheck, FastCheck), end);
    Back(3, Three(Uninit, FastCheck, FastCheck, FastCheck), Three(Uninit, Exchange, FastCheck, FastCheck), end);
  }

  lemma Calling(end: State)
    requires Leads(Three(Uninit, FastCheck, FastCheck, FastCheck), 3, end)
    ensures Leads(INITIAL, 0, end)
  {
    var s2 := State(Uninit, None, 0, map[0 := FastCheck, 1 := FastCheck]);
    var s1 := State(Uninit, None, 0, map[0 := FastCheck]);
    Back(2, s2, Three(Uninit, FastCheck, FastCheck, FastCheck), end);
    Back(1, s1, s2, end);
    Back(0, INITIAL, s1, end);
  }

  lemma SlipReadsNothing()
    ensures IsRun(INITIAL, SLIP) && At(After(INITIAL, SLIP), 1, Entered(None))
  {
    var end := Three(Initializing, Failed, Entered(None), Initializer);
    Closing(end);
    Failing(end);
    Waiting(end);
    Opening(end);
    Calling(end);
    assert SLIP[0..] == SLIP;
  }
}
