/** The futex handoff between a sender and a receiver over four sequence words, in runs where
    neither side aborts. */
module Handoff {

  datatype Word = Ready | Armed | Done

  /** `Load`, `Park` and `Parked` are one wait for a word to reach a sequence number. */
  datatype Sender =
    | Load(word: Word, sequence: nat)
    | Park(word: Word, sequence: nat, observed: nat)
    | Parked(word: Word, sequence: nat, observed: nat)
    | StoreGate(sequence: nat)
    | WakeGate(sequence: nat)
    | SenderDone
    | SenderError

  datatype Receiver =
    | StoreReady
    | WakeReady
    | StoreArmed(sequence: nat)
    | WakeArmed(sequence: nat)
    | GatePark(sequence: nat)
    | GateParked(sequence: nat)
    | GateLoad(sequence: nat, woken: bool)
    | StoreDone(sequence: nat)
    | WakeDone(sequence: nat)
    | ReceiverDone
    | ReceiverError

  datatype State = State(ready: nat, armed: nat, gate: nat, done: nat,
                         sender: Sender, receiver: Receiver, valid: nat, notParked: nat)

  /** Numbers of samples: the first `warmup` are not counted. */
  datatype Config = Config(warmup: nat, measured: nat) {
    function Total(): nat { warmup + measured }
  }

  const INITIAL := State(0, 0, 0, 0, Load(Ready, 1), StoreReady, 0, 0)

  function Value(s: State, w: Word): nat {
    match w case Ready => s.ready case Armed => s.armed case Done => s.done
  }

  /** Wake one waiter: at most one thread ever waits on each word. */
  function WakeSender(s: State, w: Word): State {
    if s.sender.Parked? && s.sender.word == w then s.(sender := Load(w, s.sender.sequence)) else s
  }

  function WakeReceiver(s: State): State {
    if s.receiver.GateParked? then s.(receiver := GateLoad(s.receiver.sequence, true)) else s
  }

  function SenderLoop(sequence: nat, c: Config): Sender {
    if sequence <= c.Total() then Load(Armed, sequence) else SenderDone
  }

  function ReceiverLoop(sequence: nat, c: Config): Receiver {
    if sequence <= c.Total() then StoreArmed(sequence) else ReceiverDone
  }

  function AfterWait(w: Word, sequence: nat, c: Config): Sender {
    match w
    case Ready => SenderLoop(1, c)
    case Armed => StoreGate(sequence)
    case Done => SenderLoop(sequence + 1, c)
  }

  function Counted(s: State, sequence: nat, woken: bool, c: Config): State {
    if sequence <= c.warmup then s
    else if woken then s.(valid := s.valid + 1)
    else s.(notParked := s.notParked + 1)
  }

  datatype Step =
    | SenderRuns | ReceiverRuns
    | SenderSpurious | ReceiverSpurious          // the wait returns without a wake
    | SenderInterrupted | ReceiverInterrupted    // the wait is interrupted and tried again

  predicate SenderCanRun(s: State) { !s.sender.Parked? && !s.sender.SenderDone? && !s.sender.SenderError? }

  predicate ReceiverCanRun(s: State) {
    !s.receiver.GateParked? && !s.receiver.ReceiverDone? && !s.receiver.ReceiverError?
  }

  predicate Legal(s: State, step: Step) {
    match step
    case SenderRuns => SenderCanRun(s)
    case ReceiverRuns => ReceiverCanRun(s)
    case SenderSpurious => s.sender.Parked?
    case SenderInterrupted => s.sender.Parked?
    case ReceiverSpurious => s.receiver.GateParked?
    case ReceiverInterrupted => s.receiver.GateParked?
  }

  function SenderStep(s: State, c: Config): State
    requires SenderCanRun(s)
  {
    match s.sender
    case Load(w, k) =>
      var observed := Value(s, w);
      s.(sender := if observed == k then AfterWait(w, k, c) else if observed > k then SenderError
        else Park(w, k, observed))
    case Park(w, k, observed) =>
      s.(sender := if Value(s, w) == observed then Parked(w, k, observed) else Load(w, k))
    case StoreGate(k) => s.(gate := k, sender := WakeGate(k))
    case WakeGate(k) => WakeReceiver(s).(sender := Load(Done, k))
  }

  function ReceiverStep(s: State, c: Config): State
    requires ReceiverCanRun(s)
  {
    match s.receiver
    case StoreReady => s.(ready := 1, receiver := WakeReady)
    case WakeReady => WakeSender(s, Ready).(receiver := ReceiverLoop(1, c))
    case StoreArmed(k) => s.(armed := k, receiver := WakeArmed(k))
    case WakeArmed(k) => WakeSender(s, Armed).(receiver := GatePark(k))
    case GatePark(k) => s.(receiver := if s.gate + 1 == k then GateParked(k) else GateLoad(k, false))
    case GateLoad(k, woken) =>
      if s.gate == k then Counted(s, k, woken, c).(receiver := StoreDone(k))
      else s.(receiver := if s.gate + 1 == k then GatePark(k) else ReceiverError)
    case StoreDone(k) => s.(done := k, receiver := WakeDone(k))
    case WakeDone(k) => WakeSender(s, Done).(receiver := ReceiverLoop(k + 1, c))
  }

  function Next(s: State, step: Step, c: Config): State
    requires Legal(s, step)
  {
    match step
    case SenderRuns => SenderStep(s, c)
    case ReceiverRuns => ReceiverStep(s, c)
    case SenderSpurious => s.(sender := Load(s.sender.word, s.sender.sequence))
    case SenderInterrupted => s.(sender := Park(s.sender.word, s.sender.sequence, s.sender.observed))
    case ReceiverSpurious => s.(receiver := GateLoad(s.receiver.sequence, true))
    case ReceiverInterrupted => s.(receiver := GatePark(s.receiver.sequence))
  }

  // ---- Invariant ----

  predicate Lockstep(s: State) {
    s.done <= s.gate <= s.armed <= s.done + 1
  }

  /** Where the words are, told by the receiver's place. */
  predicate ReceiverAgrees(s: State, c: Config) {
    match s.receiver
    case StoreReady => s.ready == s.armed == s.gate == s.done == 0
    case WakeReady => s.ready == 1 && s.armed == s.gate == s.done == 0
    case StoreArmed(k) => s.ready == 1 && 1 <= k <= c.Total() && s.armed == s.gate == s.done == k - 1
    case WakeArmed(k) => s.ready == 1 && 1 <= k <= c.Total() && s.armed == k && s.done == k - 1
    case GatePark(k) => s.ready == 1 && 1 <= k <= c.Total() && s.armed == k && s.done == k - 1
    case GateParked(k) =>
      && s.ready == 1 && 1 <= k <= c.Total() && s.armed == k && s.done == k - 1
      && (s.gate == k ==> s.sender == WakeGate(k))
    case GateLoad(k, _) => s.ready == 1 && 1 <= k <= c.Total() && s.armed == k && s.done == k - 1
    case StoreDone(k) => s.ready == 1 && 1 <= k <= c.Total() && s.armed == s.gate == k && s.done == k - 1
    case WakeDone(k) => s.ready == 1 && 1 <= k <= c.Total() && s.armed == s.gate == s.done == k
    case ReceiverDone => s.ready == 1 && s.armed == s.gate == s.done == c.Total()
    case ReceiverError => false
  }

  /** Where the words are, told by what the sender waits for. */
  predicate WaitAgrees(s: State, w: Word, k: nat, c: Config) {
    match w
    case Ready => k == 1 && s.gate == 0
    case Armed => 1 <= k <= c.Total() && s.ready == 1 && s.gate == s.done == k - 1
    case Done => 1 <= k <= c.Total() && s.ready == 1 && s.gate == k
  }

  /** The receiver has changed the word and is about to wake whoever waits on it. */
  predicate AboutToWake(r: Receiver, w: Word, k: nat) {
    match w
    case Ready => r == WakeReady
    case Armed => r == WakeArmed(k)
    case Done => r == WakeDone(k)
  }

  predicate SenderAgrees(s: State, c: Config) {
    match s.sender
    case Load(w, k) => WaitAgrees(s, w, k, c)
    case Park(w, k, observed) => WaitAgrees(s, w, k, c) && observed + 1 == k
    case Parked(w, k, observed) =>
      WaitAgrees(s, w, k, c) && observed + 1 == k && (Value(s, w) == k ==> AboutToWake(s.receiver, w, k))
    case StoreGate(k) => 1 <= k <= c.Total() && s.ready == 1 && s.armed == k && s.gate == s.done == k - 1
    case WakeGate(k) => 1 <= k <= c.Total() && s.ready == 1 && s.gate == k
    case SenderDone => s.ready == 1 && s.gate == s.done == c.Total()
    case SenderError => false
  }

  /** How many sequence numbers the receiver has accounted for. */
  function Finished(r: Receiver, c: Config): nat {
    match r
    case StoreReady => 0
    case WakeReady => 0
    case StoreArmed(k) => if k == 0 then 0 else k - 1
    case WakeArmed(k) => if k == 0 then 0 else k - 1
    case GatePark(k) => if k == 0 then 0 else k - 1
    case GateParked(k) => if k == 0 then 0 else k - 1
    case GateLoad(k, _) => if k == 0 then 0 else k - 1
    case StoreDone(k) => k
    case WakeDone(k) => k
    case ReceiverDone => c.Total()
    case ReceiverError => 0
  }

  predicate Tallied(s: State, c: Config) {
    var n := Finished(s.receiver, c);
    s.valid + s.notParked == if n <= c.warmup then 0 else n - c.warmup
  }

  predicate Inv(s: State, c: Config) {
    Lockstep(s) && ReceiverAgrees(s, c) && SenderAgrees(s, c) && Tallied(s, c)
  }

  /** A word never runs past what the sender waits for. */
  lemma WaitIsClose(s: State, w: Word, k: nat, c: Config)
    requires Lockstep(s) && ReceiverAgrees(s, c) && WaitAgrees(s, w, k, c)
    ensures k - 1 <= Value(s, w) <= k
  {
  }

  lemma WaitEnds(s: State, w: Word, k: nat, c: Config)
    requires Lockstep(s) && ReceiverAgrees(s, c) && WaitAgrees(s, w, k, c) && Value(s, w) == k
    ensures SenderAgrees(s.(sender := AfterWait(w, k, c)), c)
  {
  }

  /** The receiver's view mentions the sender only to say that it is about to open the gate. */
  lemma SenderMoves(s: State, sender: Sender, c: Config)
    requires ReceiverAgrees(s, c) && !s.sender.WakeGate?
    ensures ReceiverAgrees(s.(sender := sender), c)
  {
  }

  lemma LoadKeepsInv(s: State, c: Config)
    requires Inv(s, c) && s.sender.Load?
    ensures Inv(SenderStep(s, c), c)
  {
    var w, k := s.sender.word, s.sender.sequence;
    var s' := SenderStep(s, c);
    WaitIsClose(s, w, k, c);
    SenderMoves(s, s'.sender, c);
    if Value(s, w) == k { WaitEnds(s, w, k, c); }
  }

  lemma ParkKeepsInv(s: State, c: Config)
    requires Inv(s, c) && s.sender.Park?
    ensures Inv(SenderStep(s, c), c)
  {
  }

  lemma StoreGateKeepsInv(s: State, c: Config)
    requires Inv(s, c) && s.sender.StoreGate?
    ensures Inv(SenderStep(s, c), c)
  {
  }

  lemma WakeGateKeepsInv(s: State, c: Config)
    requires Inv(s, c) && s.sender.WakeGate?
    ensures Inv(SenderStep(s, c), c)
  {
  }

  lemma SenderKeepsInv(s: State, c: Config)
    requires Inv(s, c) && SenderCanRun(s)
    ensures Inv(SenderStep(s, c), c)
  {
    if s.sender.Load? { LoadKeepsInv(s, c); }
    else if s.sender.Park? { ParkKeepsInv(s, c); }
    else if s.sender.StoreGate? { StoreGateKeepsInv(s, c); }
    else { WakeGateKeepsInv(s, c); }
  }

  predicate Wakes(r: Receiver) { r.WakeReady? || r.WakeArmed? || r.WakeDone? }

  lemma WakeKeepsInv(s: State, c: Config)
    requires Inv(s, c) && Wakes(s.receiver)
    ensures Inv(ReceiverStep(s, c), c)
  {
  }

  lemma GateKeepsInv(s: State, c: Config)
    requires Inv(s, c) && (s.receiver.GatePark? || s.receiver.GateLoad?)
    ensures Inv(ReceiverStep(s, c), c)
  {
  }

  lemma StoreKeepsInv(s: State, c: Config)
    requires Inv(s, c) && (s.receiver.StoreReady? || s.receiver.StoreArmed? || s.receiver.StoreDone?)
    ensures Inv(ReceiverStep(s, c), c)
  {
  }

  lemma ReceiverKeepsInv(s: State, c: Config)
    requires Inv(s, c) && ReceiverCanRun(s)
    ensures Inv(ReceiverStep(s, c), c)
  {
    if Wakes(s.receiver) { WakeKeepsInv(s, c); }
    else if s.receiver.GatePark? || s.receiver.GateLoad? { GateKeepsInv(s, c); }
    else { StoreKeepsInv(s, c); }
  }

  /** A wait that returns without a wake, or is tried again, finds the words as they were. */
  lemma SenderReturnKeepsInv(s: State, step: Step, c: Config)
    requires Inv(s, c) && s.sender.Parked? && (step.SenderSpurious? || step.SenderInterrupted?)
    ensures Inv(Next(s, step, c), c)
  {
    SenderMoves(s, Next(s, step, c).sender, c);
  }

  lemma ReceiverReturnKeepsInv(s: State, step: Step, c: Config)
    requires Inv(s, c) && s.receiver.GateParked? && (step.ReceiverSpurious? || step.ReceiverInterrupted?)
    ensures Inv(Next(s, step, c), c)
  {
  }

  lemma StepKeepsInv(s: State, step: Step, c: Config)
    requires Inv(s, c) && Legal(s, step)
    ensures Inv(Next(s, step, c), c)
  {
    match step {
      case SenderRuns => SenderKeepsInv(s, c);
      case ReceiverRuns => ReceiverKeepsInv(s, c);
      case SenderSpurious => SenderReturnKeepsInv(s, step, c);
      case SenderInterrupted => SenderReturnKeepsInv(s, step, c);
      case ReceiverSpurious => ReceiverReturnKeepsInv(s, step, c);
      case ReceiverInterrupted => ReceiverReturnKeepsInv(s, step, c);
    }
  }

  /** Whatever the two sides wait for, one of them can go on until both have finished. */
  lemma SomeoneCanRun(s: State, c: Config)
    requires Inv(s, c) && !(s.sender.SenderDone? && s.receiver.ReceiverDone?)
    ensures SenderCanRun(s) || ReceiverCanRun(s)
  {
  }

  // ---- Progress ----

  /** Distance to the end of a wait: shorter once the word is there. */
  function WaitRank(pc: Sender, there: bool): nat {
    if pc.Load? then (if there then 2 else 6)
    else if pc.Park? then (if there then 3 else 5)
    else 4
  }

  function SenderRank(s: State, c: Config): int {
    match s.sender
    case Load(w, k) => WaitBase(w, k, c) + WaitRank(s.sender, Value(s, w) == k)
    case Park(w, k, _) => WaitBase(w, k, c) + WaitRank(s.sender, Value(s, w) == k)
    case Parked(w, k, _) => WaitBase(w, k, c) + WaitRank(s.sender, Value(s, w) == k)
    case StoreGate(k) => (c.Total() - k) * 20 + 12
    case WakeGate(k) => (c.Total() - k) * 20 + 10
    case SenderDone => 0
    case SenderError => 0
  }

  function WaitBase(w: Word, k: nat, c: Config): int {
    match w
    case Ready => c.Total() * 20
    case Armed => (c.Total() - k) * 20 + 12
    case Done => (c.Total() - k) * 20
  }

  function ReceiverRank(s: State, c: Config): int {
    match s.receiver
    case StoreReady => c.Total() * 20 + 5
    case WakeReady => c.Total() * 20 + 4
    case StoreArmed(k) => (c.Total() - k) * 20 + 18
    case WakeArmed(k) => (c.Total() - k) * 20 + 17
    case GatePark(k) => (c.Total() - k) * 20 + 10 + if s.gate == k then 3 else 5
    case GateParked(k) => (c.Total() - k) * 20 + 14
    case GateLoad(k, _) => (c.Total() - k) * 20 + 10 + if s.gate == k then 2 else 6
    case StoreDone(k) => (c.Total() - k) * 20 + 8
    case WakeDone(k) => (c.Total() - k) * 20 + 6
    case ReceiverDone => 0
    case ReceiverError => 0
  }

  function Rank(s: State, c: Config): int {
    10 * SenderRank(s, c) + ReceiverRank(s, c)
  }

  lemma SenderRankIsNatural(s: State, c: Config)
    requires SenderAgrees(s, c)
    ensures SenderRank(s, c) >= 0
  {
  }

  lemma ReceiverRankIsNatural(s: State, c: Config)
    requires ReceiverAgrees(s, c)
    ensures ReceiverRank(s, c) >= 0
  {
  }

  lemma ReceiverRankStays(s: State, s': State, c: Config)
    requires s'.receiver == s.receiver && s'.gate == s.gate
    ensures ReceiverRank(s', c) == ReceiverRank(s, c)
  {
  }

  /** A step that touches neither the receiver nor the gate is judged by the sender alone. */
  lemma SenderFalls(s: State, s': State, c: Config)
    requires s'.receiver == s.receiver && s'.gate == s.gate && SenderRank(s', c) < SenderRank(s, c)
    ensures Rank(s', c) < Rank(s, c)
  {
    ReceiverRankStays(s, s', c);
  }

  lemma WaitingRank(s: State, w: Word, k: nat, sender: Sender, c: Config)
    requires sender == Load(w, k) || (sender.Park? && sender.word == w && sender.sequence == k)
      || (sender.Parked? && sender.word == w && sender.sequence == k)
    ensures SenderRank(s.(sender := sender), c) == WaitBase(w, k, c) + WaitRank(sender, Value(s, w) == k)
  {
  }

  lemma AfterWaitIsLess(s: State, w: Word, k: nat, c: Config)
    requires WaitAgrees(s, w, k, c)
    ensures SenderRank(s.(sender := AfterWait(w, k, c)), c) < WaitBase(w, k, c) + 2
  {
  }

  lemma LoadAdvances(s: State, c: Config)
    requires Inv(s, c) && s.sender.Load?
    ensures Rank(SenderStep(s, c), c) < Rank(s, c)
  {
    var w, k := s.sender.word, s.sender.sequence;
    WaitIsClose(s, w, k, c);
    WaitingRank(s, w, k, s.sender, c);
    if Value(s, w) == k {
      AfterWaitIsLess(s, w, k, c);
      SenderFalls(s, s.(sender := AfterWait(w, k, c)), c);
    } else {
      WaitingRank(s, w, k, Park(w, k, Value(s, w)), c);
      SenderFalls(s, s.(sender := Park(w, k, Value(s, w))), c);
    }
  }

  lemma ParkAdvances(s: State, c: Config)
    requires Inv(s, c) && s.sender.Park?
    ensures Rank(SenderStep(s, c), c) < Rank(s, c)
  {
    var w, k, observed := s.sender.word, s.sender.sequence, s.sender.observed;
    WaitIsClose(s, w, k, c);
    WaitingRank(s, w, k, s.sender, c);
    var sender := if Value(s, w) == observed then Parked(w, k, observed) else Load(w, k);
    WaitingRank(s, w, k, sender, c);
    SenderFalls(s, s.(sender := sender), c);
  }

  lemma StoreGateAdvances(s: State, c: Config)
    requires Inv(s, c) && s.sender.StoreGate?
    ensures Rank(SenderStep(s, c), c) < Rank(s, c)
  {
    var s' := SenderStep(s, c);
    assert SenderRank(s', c) == SenderRank(s, c) - 2;
    assert ReceiverRank(s', c) <= ReceiverRank(s, c) + 4;
  }

  lemma WakeGateAdvances(s: State, c: Config)
    requires Inv(s, c) && s.sender.WakeGate?
    ensures Rank(SenderStep(s, c), c) < Rank(s, c)
  {
    var s' := SenderStep(s, c);
    assert SenderRank(s', c) <= SenderRank(s, c) - 4;
    assert ReceiverRank(s', c) <= ReceiverRank(s, c) + 6;
  }

  lemma SenderAdvances(s: State, c: Config)
    requires Inv(s, c) && SenderCanRun(s)
    ensures Rank(SenderStep(s, c), c) < Rank(s, c)
  {
    if s.sender.Load? { LoadAdvances(s, c); }
    else if s.sender.Park? { ParkAdvances(s, c); }
    else if s.sender.StoreGate? { StoreGateAdvances(s, c); }
    else { WakeGateAdvances(s, c); }
  }

  /** A word that moves to what the sender waits for only shortens the sender's wait. */
  lemma StoreHelpsSender(s: State, s': State, c: Config)
    requires SenderAgrees(s, c) && s'.sender == s.sender
    requires forall w, k: nat :: WaitAgrees(s, w, k, c) && Value(s, w) == k ==> Value(s', w) == k
    ensures SenderRank(s', c) <= SenderRank(s, c)
  {
  }

  lemma StoreAdvances(s: State, c: Config)
    requires Inv(s, c) && (s.receiver.StoreReady? || s.receiver.StoreArmed? || s.receiver.StoreDone?)
    ensures Rank(ReceiverStep(s, c), c) < Rank(s, c)
  {
    var s' := ReceiverStep(s, c);
    assert ReceiverRank(s', c) < ReceiverRank(s, c);
    StoreHelpsSender(s, s', c);
  }

  lemma GateAdvances(s: State, c: Config)
    requires Inv(s, c) && (s.receiver.GatePark? || s.receiver.GateLoad?)
    ensures Rank(ReceiverStep(s, c), c) < Rank(s, c)
  {
    var s' := ReceiverStep(s, c);
    assert SenderRank(s', c) == SenderRank(s, c);
    assert ReceiverRank(s', c) < ReceiverRank(s, c);
  }

  /** The sender is only woken once its word is there. */
  lemma WakeHelpsSender(s: State, w: Word, c: Config)
    requires SenderAgrees(s, c)
    requires s.sender.Parked? && s.sender.word == w ==> Value(s, w) == s.sender.sequence
    ensures SenderRank(WakeSender(s, w), c) <= SenderRank(s, c)
  {
  }

  lemma WakeAdvances(s: State, c: Config)
    requires Inv(s, c) && Wakes(s.receiver)
    ensures Rank(ReceiverStep(s, c), c) < Rank(s, c)
  {
    var s' := ReceiverStep(s, c);
    var w := if s.receiver.WakeReady? then Ready else if s.receiver.WakeArmed? then Armed else Done;
    WakeHelpsSender(s, w, c);
    assert SenderRank(s', c) == SenderRank(WakeSender(s, w), c);
    assert ReceiverRank(s', c) < ReceiverRank(s, c);
  }

  lemma ReceiverAdvances(s: State, c: Config)
    requires Inv(s, c) && ReceiverCanRun(s)
    ensures Rank(ReceiverStep(s, c), c) < Rank(s, c)
  {
    if Wakes(s.receiver) { WakeAdvances(s, c); }
    else if s.receiver.GatePark? || s.receiver.GateLoad? { GateAdvances(s, c); }
    else { StoreAdvances(s, c); }
  }

  lemma SpuriousCosts(s: State, step: Step, c: Config)
    requires Inv(s, c) && Legal(s, step) && step != SenderRuns && step != ReceiverRuns
    ensures Rank(Next(s, step, c), c) <= Rank(s, c) + 20
  {
  }

  // ---- Whole runs ----

  ghost predicate IsRun(s: State, steps: seq<Step>, c: Config)
    decreases |steps|
  {
    steps == [] || (Legal(s, steps[0]) && IsRun(Next(s, steps[0], c), steps[1..], c))
  }

  ghost function After(s: State, steps: seq<Step>, c: Config): State
    requires IsRun(s, steps, c)
    decreases |steps|
  {
    if steps == [] then s else After(Next(s, steps[0], c), steps[1..], c)
  }

  /** Steps other than waits that come back for no reason. */
  function Work(steps: seq<Step>): nat {
    if steps == [] then 0
    else (if steps[0] == SenderRuns || steps[0] == ReceiverRuns then 1 else 0) + Work(steps[1..])
  }

  lemma {:induction false} RunAdvances(s: State, steps: seq<Step>, c: Config)
    requires Inv(s, c) && IsRun(s, steps, c)
    ensures Inv(After(s, steps, c), c)
    ensures Work(steps) + Rank(After(s, steps, c), c) <= Rank(s, c) + 20 * (|steps| - Work(steps))
    decreases |steps|
  {
    if steps != [] {
      var step := steps[0];
      StepKeepsInv(s, step, c);
      if step == SenderRuns { SenderAdvances(s, c); }
      else if step == ReceiverRuns { ReceiverAdvances(s, c); }
      else { SpuriousCosts(s, step, c); }
      RunAdvances(Next(s, step, c), steps[1..], c);
    }
  }

  /** In every reachable state the words are in lockstep and no protocol error has been taken. */
  lemma AlwaysInLockstep(steps: seq<Step>, c: Config)
    requires IsRun(INITIAL, steps, c)
    ensures
      var s := After(INITIAL, steps, c);
      s.done <= s.gate <= s.armed <= s.done + 1 && s.sender != SenderError && s.receiver != ReceiverError
  {
    RunAdvances(INITIAL, steps, c);
  }

  /** No wake is lost: until both sides have finished, one of them is awake and able to go on. */
  lemma NeverBothStuck(steps: seq<Step>, c: Config)
    requires IsRun(INITIAL, steps, c)
    requires
      var s := After(INITIAL, steps, c);
      !(s.sender.SenderDone? && s.receiver.ReceiverDone?)
    ensures
      var s := After(INITIAL, steps, c);
      SenderCanRun(s) || ReceiverCanRun(s)
  {
    RunAdvances(INITIAL, steps, c);
    SomeoneCanRun(After(INITIAL, steps, c), c);
  }

  /** The exchange ends: all but the spurious returns of a run are bounded by the sample count,
      plus a fixed amount for each spurious return. */
  lemma ExchangeEnds(steps: seq<Step>, c: Config)
    requires IsRun(INITIAL, steps, c)
    ensures Work(steps) <= 220 * c.Total() + 65 + 20 * (|steps| - Work(steps))
  {
    RunAdvances(INITIAL, steps, c);
    SenderRankIsNatural(After(INITIAL, steps, c), c);
    ReceiverRankIsNatural(After(INITIAL, steps, c), c);
  }

  /** When the receiver has finished, every measured sample is either valid or not parked. */
  lemma SamplesAddUp(steps: seq<Step>, c: Config)
    requires IsRun(INITIAL, steps, c) && After(INITIAL, steps, c).receiver.ReceiverDone?
    ensures
      var s := After(INITIAL, steps, c);
      s.valid + s.notParked == c.measured
  {
    RunAdvances(INITIAL, steps, c);
  }

  /** A latency is always recorded inside the array of measured samples. */
  lemma SampleFits(steps: seq<Step>, c: Config)
    requires IsRun(INITIAL, steps, c)
    requires
      var s := After(INITIAL, steps, c);
      ReceiverCanRun(s) && ReceiverStep(s, c).valid > s.valid
    ensures After(INITIAL, steps, c).valid < c.measured
  {
    RunAdvances(INITIAL, steps, c);
  }
}
