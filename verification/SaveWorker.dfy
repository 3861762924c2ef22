/** The frame-save worker and its stop protocol: a producer pushing frames, one consumer thread and
    one stopper, interleaved statement by statement. */
module SaveWorker {
  import opened Wrappers
  import opened FrameSelection

  datatype Holder = Nobody | Worker | Stopper

  /** The next statement of `_save_frame_task`. */
  datatype WorkerPc =
    | WLock     // take the mutex, before the loop or at the end of its body
    | WTest     // the outer loop's test of the stop flag
    | WUnlock   // first statement of the loop body
    | WLength   // the inner loop's test
    | WPop
    | WProcess  // save the popped frame
    | WSleep
    | WLeave    // release the mutex after the loop
    | WClear    // destroy the mutex
    | WDone

  /** The next statement of `stop_save_frame_task`. */
  datatype StopperPc = SIdle | SPoll | SNap | SLock | SSet | SUnlock | SDone

  datatype State<F> = State(
    queue: seq<F>, stop: bool, mutex: Holder, wpc: WorkerPc, spc: StopperPc, inFlight: Option<F>,
    count: Word, counting: bool, mutexCleared: bool, mutexMisused: bool,
    // histories: everything pushed, everything saved, what was pushed since the worker last found the
    // queue empty, what was pushed since the stopper found it empty, pushes made before stop was called
    pushed: seq<F>, processed: seq<F>, sinceEmpty: seq<F>, sincePoll: seq<F>, pushedBeforeStop: nat)

  datatype Label<F> = Push(f: F) | CountPush | CallStop | StopperStep | WorkerStep

  function Start<F>(): State<F> {
    State([], false, Nobody, WLock, SIdle, None, 0, false, false, false, [], [], [], [], 0)
  }

  predicate Enabled<F>(s: State<F>, l: Label<F>) {
    match l
    case Push(_) => !s.counting
    case CountPush => s.counting
    case CallStop => s.spc.SIdle?
    case StopperStep => !s.spc.SIdle? && !s.spc.SDone? && (s.spc.SLock? ==> s.mutex.Nobody?)
    case WorkerStep => !s.wpc.WDone? && (s.wpc.WLock? ==> s.mutex.Nobody?) && (s.wpc.WPop? ==> s.queue != [])
  }

  predicate InInnerLoop(wpc: WorkerPc) {
    wpc.WLength? || wpc.WPop? || wpc.WProcess?
  }

  /** The statements of the inner loop. */
  function InnerNext<F>(s: State<F>): State<F>
    requires Enabled(s, WorkerStep) && InInnerLoop(s.wpc)
  {
    match s.wpc
    case WLength => if s.queue != [] then s.(wpc := WPop) else s.(wpc := WSleep, sinceEmpty := [])
    case WPop => s.(inFlight := Some(s.queue[0]), queue := s.queue[1..], wpc := WProcess)
    case WProcess =>
      s.(processed := s.processed + (if s.inFlight.Some? then [s.inFlight.value] else []),
         inFlight := None, wpc := WLength)
  }

  /** The statements of the outer loop and of the exit. */
  function OuterNext<F>(s: State<F>): State<F>
    requires Enabled(s, WorkerStep) && !InInnerLoop(s.wpc)
  {
    match s.wpc
    case WLock => s.(mutex := Worker, mutexMisused := s.mutexMisused || s.mutexCleared, wpc := WTest)
    case WTest => s.(wpc := if s.stop then WLeave else WUnlock)
    case WUnlock => s.(mutex := Nobody, wpc := WLength)
    case WSleep => s.(wpc := WLock)
    case WLeave => s.(mutex := Nobody, wpc := WClear)
    case WClear => s.(mutexCleared := true, mutexMisused := s.mutexMisused || !s.mutex.Nobody?, wpc := WDone)
  }

  function WorkerNext<F>(s: State<F>): State<F>
    requires Enabled(s, WorkerStep)
  {
    if InInnerLoop(s.wpc) then InnerNext(s) else OuterNext(s)
  }

  function StopperNext<F>(s: State<F>): State<F>
    requires Enabled(s, StopperStep)
  {
    match s.spc
    case SPoll => if s.queue != [] then s.(spc := SNap) else s.(spc := SLock, sincePoll := [])
    case SNap => s.(spc := SPoll)
    case SLock => s.(mutex := Stopper, mutexMisused := s.mutexMisused || s.mutexCleared, spc := SSet)
    case SSet => s.(stop := true, spc := SUnlock)
    case SUnlock => s.(mutex := Nobody, spc := SDone)
  }

  function Step<F>(s: State<F>, l: Label<F>): State<F>
    requires Enabled(s, l)
  {
    match l
    case Push(f) =>
      s.(queue := s.queue + [f], pushed := s.pushed + [f], counting := true,
         sinceEmpty := s.sinceEmpty + [f], sincePoll := s.sincePoll + [f])
    case CountPush => s.(count := (s.count + 1) % WORD, counting := false)
    case CallStop => s.(spc := SPoll, pushedBeforeStop := |s.pushed|)
    case StopperStep => StopperNext(s)
    case WorkerStep => WorkerNext(s)
  }

  function Exec<F>(s: State<F>, l: Label<F>): State<F> {
    if Enabled(s, l) then Step(s, l) else s
  }

  function Run<F>(s: State<F>, ls: seq<Label<F>>): State<F>
    decreases |ls|
  {
    if ls == [] then s else Run(Exec(s, ls[0]), ls[1..])
  }

  // ---------------------------------------------------------------------------
  // What every step keeps
  // ---------------------------------------------------------------------------

  function InFlight<F>(s: State<F>): seq<F> {
    if s.inFlight.Some? then [s.inFlight.value] else []
  }

  predicate Polled(spc: StopperPc) {
    spc.SLock? || spc.SSet? || spc.SUnlock? || spc.SDone?
  }

  /** The worker has found the queue empty and not looked at it since. */
  predicate BetweenRounds(wpc: WorkerPc) {
    wpc.WSleep? || wpc.WLock? || wpc.WTest? || wpc.WUnlock? || wpc.WLeave? || wpc.WClear? || wpc.WDone?
  }

  ghost predicate Conserved<F>(s: State<F>) {
    && s.pushed == s.processed + InFlight(s) + s.queue
    && (s.inFlight.Some? <==> s.wpc.WProcess?)
    && (s.wpc.WPop? ==> s.queue != [])
    && s.count == (|s.pushed| - (if s.counting then 1 else 0)) % WORD
    && (s.counting ==> s.pushed != [])
  }

  /** `b` ends with `a`. */
  predicate EndsWith<F(==)>(b: seq<F>, a: seq<F>) {
    |a| <= |b| && a == b[|b| - |a|..]
  }

  ghost predicate TailsOk<F>(s: State<F>) {
    && (s.wpc.WPop? ==> s.queue != [])
    && (BetweenRounds(s.wpc) ==> s.queue == s.sinceEmpty)
    && (Polled(s.spc) ==> EndsWith(s.sincePoll, s.queue))
    && (!s.spc.SIdle? ==> s.pushedBeforeStop <= |s.pushed|)
    && (Polled(s.spc) ==> |s.sincePoll| + s.pushedBeforeStop <= |s.pushed|)
  }

  predicate LockOk<F>(s: State<F>) {
    && (s.mutex.Worker? <==> s.wpc.WTest? || s.wpc.WUnlock? || s.wpc.WLeave?)
    && (s.mutex.Stopper? <==> s.spc.SSet? || s.spc.SUnlock?)
    && (s.stop <==> s.spc.SUnlock? || s.spc.SDone?)
    && (s.wpc.WLeave? || s.wpc.WClear? || s.wpc.WDone? ==> s.spc.SDone?)
    && (s.mutexCleared <==> s.wpc.WDone?)
    && !s.mutexMisused
  }

  ghost predicate Inv<F>(s: State<F>) {
    Conserved(s) && TailsOk(s) && LockOk(s)
  }

  lemma StepKeepsLock<F>(s: State<F>, l: Label<F>)
    requires LockOk(s) && Enabled(s, l)
    ensures LockOk(Step(s, l))
  {
  }

  lemma CountAfterPush(n: nat)
    ensures (n % WORD + 1) % WORD == (n + 1) % WORD
  {
  }

  lemma PopConserves<F>(s: State<F>)
    requires Conserved(s) && s.wpc.WPop?
    ensures Conserved(WorkerNext(s))
  {
    var t := WorkerNext(s);
    assert s.queue == InFlight(t) + t.queue;
    assert s.pushed == t.processed + InFlight(t) + t.queue;
  }

  lemma ProcessConserves<F>(s: State<F>)
    requires Conserved(s) && s.wpc.WProcess?
    ensures Conserved(WorkerNext(s))
  {
    var t := WorkerNext(s);
    assert t.processed == s.processed + InFlight(s) && InFlight(t) == [];
    assert t.processed + InFlight(t) == t.processed;
  }

  predicate SameFrames<F(==)>(s: State<F>, t: State<F>) {
    && t.queue == s.queue && t.pushed == s.pushed && t.processed == s.processed && t.inFlight == s.inFlight
    && t.count == s.count && t.counting == s.counting
    && t.sincePoll == s.sincePoll && t.spc == s.spc && t.pushedBeforeStop == s.pushedBeforeStop
  }

  /** The outer loop leaves the frames where they are. */
  lemma OuterMovesNothing<F>(s: State<F>)
    requires Enabled(s, WorkerStep) && !InInnerLoop(s.wpc)
    ensures SameFrames(s, OuterNext(s)) && OuterNext(s).sinceEmpty == s.sinceEmpty
    ensures !OuterNext(s).wpc.WPop? && !OuterNext(s).wpc.WProcess?
    ensures BetweenRounds(s.wpc) && (BetweenRounds(OuterNext(s).wpc) || OuterNext(s).wpc.WLength?)
  {
  }

  lemma LengthMovesNothing<F>(s: State<F>)
    requires s.wpc.WLength?
    ensures var t := InnerNext(s);
            && SameFrames(s, t) && !t.wpc.WProcess? && (t.wpc.WPop? ==> t.queue != [])
            && (t.wpc.WPop? || (t.wpc.WSleep? && t.queue == t.sinceEmpty))
  {
  }

  lemma OtherWorkerStepsConserve<F>(s: State<F>)
    requires Conserved(s) && Enabled(s, WorkerStep) && !s.wpc.WPop? && !s.wpc.WProcess?
    ensures Conserved(WorkerNext(s))
  {
    hide InnerNext, OuterNext, Enabled;
    if InInnerLoop(s.wpc) { LengthMovesNothing(s); } else { OuterMovesNothing(s); }
  }

  lemma PushConserves<F>(s: State<F>, f: F)
    requires Conserved(s) && !s.counting
    ensures Conserved(Step(s, Push(f)))
  {
    assert s.processed + InFlight(s) + (s.queue + [f]) == (s.processed + InFlight(s) + s.queue) + [f];
  }

  lemma StepConserves<F>(s: State<F>, l: Label<F>)
    requires Conserved(s) && Enabled(s, l)
    ensures Conserved(Step(s, l))
  {
    hide WorkerNext, StopperNext;
    match l
    case Push(f) => PushConserves(s, f);
    case CountPush => CountAfterPush(|s.pushed| - 1);
    case WorkerStep =>
      if s.wpc.WPop? { PopConserves(s); }
      else if s.wpc.WProcess? { ProcessConserves(s); }
      else { OtherWorkerStepsConserve(s); }
    case CallStop =>
    case StopperStep => StopperFrame(s);
  }

  lemma EndsWithPush<F>(b: seq<F>, a: seq<F>, f: F)
    requires EndsWith(b, a)
    ensures EndsWith(b + [f], a + [f])
  {
  }

  lemma EndsWithPop<F>(b: seq<F>, a: seq<F>)
    requires EndsWith(b, a) && a != []
    ensures EndsWith(b, a[1..])
  {
  }

  lemma PopKeepsTails<F>(s: State<F>)
    requires TailsOk(s) && s.wpc.WPop?
    ensures TailsOk(WorkerNext(s))
  {
    hide EndsWith;
    if Polled(s.spc) { EndsWithPop(s.sincePoll, s.queue); }
  }

  lemma TailsFrame<F>(s: State<F>, t: State<F>)
    requires TailsOk(s) && SameFrames(s, t)
    requires t.wpc.WPop? ==> t.queue != []
    requires BetweenRounds(t.wpc) ==> t.queue == t.sinceEmpty
    ensures TailsOk(t)
  {
    hide EndsWith;
  }

  lemma OtherWorkerStepsKeepTails<F>(s: State<F>)
    requires TailsOk(s) && Enabled(s, WorkerStep) && !s.wpc.WPop? && !s.wpc.WProcess?
    ensures TailsOk(WorkerNext(s))
  {
    hide InnerNext, OuterNext, Enabled, EndsWith;
    if InInnerLoop(s.wpc) { LengthMovesNothing(s); } else { OuterMovesNothing(s); }
    TailsFrame(s, WorkerNext(s));
  }

  lemma ProcessKeepsTails<F>(s: State<F>)
    requires TailsOk(s) && s.wpc.WProcess?
    ensures TailsOk(WorkerNext(s))
  {
    hide EndsWith;
  }

  /** The stopper leaves the frames and the worker alone; getting past its loop means it saw the queue empty. */
  predicate StopperKept<F(==)>(s: State<F>, t: State<F>) {
    && t.queue == s.queue && t.wpc == s.wpc && t.sinceEmpty == s.sinceEmpty
    && t.processed == s.processed && t.inFlight == s.inFlight && t.count == s.count && t.counting == s.counting
    && t.pushed == s.pushed && t.pushedBeforeStop == s.pushedBeforeStop && !t.spc.SIdle?
    && (Polled(t.spc) ==> (Polled(s.spc) && t.sincePoll == s.sincePoll) || (t.queue == [] && t.sincePoll == []))
  }

  /** The stopper's loop. */
  lemma PollingFrame<F>(s: State<F>)
    requires Enabled(s, StopperStep) && (s.spc.SPoll? || s.spc.SNap?)
    ensures StopperKept(s, StopperNext(s))
  {
  }

  /** What follows the loop. */
  lemma StoppingFrame<F>(s: State<F>)
    requires Enabled(s, StopperStep) && (s.spc.SLock? || s.spc.SSet? || s.spc.SUnlock?)
    ensures StopperKept(s, StopperNext(s))
  {
    match s.spc
    case SLock =>
      assert StopperNext(s) == s.(mutex := Stopper, mutexMisused := s.mutexMisused || s.mutexCleared, spc := SSet);
    case SSet =>
      assert StopperNext(s) == s.(stop := true, spc := SUnlock);
    case SUnlock =>
      assert StopperNext(s) == s.(mutex := Nobody, spc := SDone);
  }

  lemma StopperFrame<F>(s: State<F>)
    requires Enabled(s, StopperStep)
    ensures StopperKept(s, StopperNext(s))
  {
    hide StopperNext, StopperKept;
    if s.spc.SPoll? || s.spc.SNap? { PollingFrame(s); } else { StoppingFrame(s); }
  }

  lemma StopperKeepsTails<F>(s: State<F>)
    requires TailsOk(s) && Enabled(s, StopperStep)
    ensures TailsOk(StopperNext(s))
  {
    hide StopperNext;
    StopperFrame(s);
  }

  lemma PushKeepsTails<F>(s: State<F>, f: F)
    requires TailsOk(s) && !s.counting
    ensures TailsOk(Step(s, Push(f)))
  {
    hide EndsWith;
    if Polled(s.spc) { EndsWithPush(s.sincePoll, s.queue, f); }
  }

  lemma StepKeepsTails<F>(s: State<F>, l: Label<F>)
    requires TailsOk(s) && Enabled(s, l)
    ensures TailsOk(Step(s, l))
  {
    hide EndsWith, WorkerNext, StopperNext;
    match l
    case Push(f) => PushKeepsTails(s, f);
    case CountPush =>
    case CallStop =>
    case StopperStep => StopperKeepsTails(s);
    case WorkerStep =>
      if s.wpc.WPop? { PopKeepsTails(s); }
      else if s.wpc.WProcess? { ProcessKeepsTails(s); }
      else { OtherWorkerStepsKeepTails(s); }
  }

  lemma StepKeeps<F>(s: State<F>, l: Label<F>)
    requires Inv(s) && Enabled(s, l)
    ensures Inv(Step(s, l))
  {
    hide Conserved, TailsOk, LockOk, Step;
    StepConserves(s, l);
    StepKeepsTails(s, l);
    StepKeepsLock(s, l);
  }

  lemma {:induction false} RunKeeps<F>(s: State<F>, ls: seq<Label<F>>)
    requires Inv(s)
    ensures Inv(Run(s, ls))
    decreases |ls|
  {
    if ls == [] {
    } else {
      if Enabled(s, ls[0]) { StepKeeps(s, ls[0]); }
      RunKeeps(Exec(s, ls[0]), ls[1..]);
    }
  }

  /** Pushes and saved frames are never taken back. */
  lemma StepOnlyAdds<F>(s: State<F>, l: Label<F>)
    ensures s.pushed <= Exec(s, l).pushed && s.processed <= Exec(s, l).processed
  {
    hide OuterNext;
    if l.WorkerStep? && Enabled(s, l) && !InInnerLoop(s.wpc) { OuterMovesNothing(s); }
    if l.StopperStep? && Enabled(s, l) { StopperFrame(s); }
    hide StopperNext;
  }

  lemma {:induction false} RunOnlyAdds<F>(s: State<F>, ls: seq<Label<F>>)
    ensures s.pushed <= Run(s, ls).pushed && s.processed <= Run(s, ls).processed
    decreases |ls|
  {
    hide Exec;
    if ls == [] {
    } else {
      StepOnlyAdds(s, ls[0]);
      RunOnlyAdds(Exec(s, ls[0]), ls[1..]);
    }
  }

  ghost predicate Reachable<F(!new)>(s: State<F>) {
    exists ls :: s == Run(Start(), ls)
  }

  lemma ReachableInv<F(!new)>(s: State<F>)
    requires Reachable(s)
    ensures Inv(s)
  {
    var ls :| s == Run(Start(), ls);
    RunKeeps(Start<F>(), ls);
  }

  // ---------------------------------------------------------------------------
  // Safety
  // ---------------------------------------------------------------------------

  /** Frames are saved in the order they were pushed, each at most once; what is not saved yet is
      queued or the one in flight; the counter is the number of pushes, up to the one being counted. */
  lemma FramesAreConserved<F(!new)>(s: State<F>)
    requires Reachable(s)
    ensures s.processed <= s.pushed
    ensures s.pushed[|s.processed|..] == InFlight(s) + s.queue
    ensures s.count == (|s.processed| + |InFlight(s)| + |s.queue| - (if s.counting then 1 else 0)) % WORD
  {
    ReachableInv(s);
    assert s.pushed == s.processed + (InFlight(s) + s.queue);
  }

  /** The length test and the pop are separate steps, yet the worker never waits inside the pop. */
  lemma PopNeverBlocks<F(!new)>(s: State<F>)
    requires Reachable(s) && s.wpc.WPop?
    ensures Enabled(s, WorkerStep)
  {
    ReachableInv(s);
  }

  /** The mutex is destroyed when nobody holds it and nobody will ask for it again. */
  lemma MutexClearedLast<F(!new)>(s: State<F>)
    requires Reachable(s)
    ensures s.wpc.WClear? ==> s.mutex.Nobody? && s.spc.SDone?
    ensures !s.mutexMisused
  {
    ReachableInv(s);
  }

  /** If nothing is pushed once stop has been called, every pushed frame has been saved when the
      worker exits. */
  lemma WorkerSavesEverything<F(!new)>(s: State<F>)
    requires Reachable(s) && s.wpc.WDone? && |s.pushed| == s.pushedBeforeStop
    ensures s.processed == s.pushed && s.queue == []
  {
    ReachableInv(s);
  }

  /** In general, exactly the frames pushed after the worker's last look at the queue are left
      behind, so all are saved if and only if there is none. */
  lemma LeftBehindExactly<F(!new)>(s: State<F>)
    requires Reachable(s) && s.wpc.WDone?
    ensures s.pushed == s.processed + s.sinceEmpty && s.queue == s.sinceEmpty
    ensures s.processed == s.pushed <==> s.sinceEmpty == []
  {
    ReachableInv(s);
  }

  /** Once stop has returned, whatever is queued was pushed after the stopper's last look at the queue; and
      everything has been saved if and only if nothing is queued and no frame is in flight. */
  lemma StopReturnsExactly<F(!new)>(s: State<F>)
    requires Reachable(s) && s.spc.SDone?
    ensures EndsWith(s.sincePoll, s.queue)
    ensures s.processed == s.pushed <==> s.queue == [] && !s.wpc.WProcess?
  {
    ReachableInv(s);
  }

  /** With no push after the call, nothing is queued when stop returns, and at most one frame, the one
      in flight, is still to be saved. */
  lemma StopReturnsWithEmptyQueue<F(!new)>(s: State<F>)
    requires Reachable(s) && s.spc.SDone? && |s.pushed| == s.pushedBeforeStop
    ensures s.queue == [] && s.pushed == s.processed + InFlight(s) && |InFlight(s)| <= 1
    ensures s.processed == s.pushed <==> !s.wpc.WProcess?
  {
    ReachableInv(s);
  }

  // ---------------------------------------------------------------------------
  // Progress
  // ---------------------------------------------------------------------------

  /** Worker steps left once stop has returned and nothing more is pushed. */
  function StepsToExit<F>(s: State<F>): nat {
    match s.wpc
    case WUnlock => 3 * |s.queue| + 7
    case WLength => 3 * |s.queue| + 6
    case WPop => 3 * |s.queue| + 5
    case WProcess => 3 * |s.queue| + 7
    case WSleep => 5
    case WLock => 4
    case WTest => 3
    case WLeave => 2
    case WClear => 1
    case WDone => 0
  }

  lemma WorkerAdvances<F(!new)>(s: State<F>)
    requires Inv(s) && s.spc.SDone? && !s.wpc.WDone?
    ensures Enabled(s, WorkerStep)
    ensures StepsToExit(WorkerNext(s)) < StepsToExit(s) && WorkerNext(s).spc.SDone?
  {
  }

  lemma OtherStepsAfterStop<F(!new)>(s: State<F>, l: Label<F>)
    requires Inv(s) && s.spc.SDone? && Enabled(s, l) && !l.WorkerStep?
    ensures Step(s, l).spc.SDone? && StepsToExit(Step(s, l)) <= StepsToExit(s) + (if l.Push? then 3 else 0)
  {
  }

  /** How many of a run's labels are the worker's, and how many are pushes. */
  function WorkerLabels<F>(ls: seq<Label<F>>): nat {
    if ls == [] then 0 else (if ls[0].WorkerStep? then 1 else 0) + WorkerLabels(ls[1..])
  }

  function PushLabels<F>(ls: seq<Label<F>>): nat {
    if ls == [] then 0 else (if ls[0].Push? then 1 else 0) + PushLabels(ls[1..])
  }

  lemma {:induction false} DoneIsFinal<F(!new)>(s: State<F>, ls: seq<Label<F>>)
    requires s.wpc.WDone? && s.spc.SDone?
    ensures Run(s, ls).wpc.WDone?
    decreases |ls|
  {
    if ls == [] {
    } else {
      DoneIsFinal(Exec(s, ls[0]), ls[1..]);
    }
  }

  /** Once stop has returned, the worker exits in every run that gives it enough turns: at most
      `StepsToExit`, and three more for each frame that is still pushed. It is never blocked. */
  lemma {:induction false} StopLeadsToExit<F(!new)>(s: State<F>, ls: seq<Label<F>>)
    requires Inv(s) && s.spc.SDone? && StepsToExit(s) + 3 * PushLabels(ls) <= WorkerLabels(ls)
    ensures Run(s, ls).wpc.WDone?
    decreases |ls|
  {
    hide Inv, Step;
    if s.wpc.WDone? {
      DoneIsFinal(s, ls);
    } else if ls == [] {
      assert false;
    } else {
      var l := ls[0];
      if l.WorkerStep? {
        WorkerAdvances(s);
        assert Exec(s, l) == WorkerNext(s) by { StepIsWorkerNext(s); }
      } else if Enabled(s, l) {
        OtherStepsAfterStop(s, l);
      }
      if Enabled(s, l) { StepKeeps(s, l); }
      StopLeadsToExit(Exec(s, l), ls[1..]);
    }
  }

  lemma StepIsWorkerNext<F(!new)>(s: State<F>)
    requires Enabled(s, WorkerStep)
    ensures Step(s, WorkerStep) == WorkerNext(s)
  {
  }

  // ---------------------------------------------------------------------------
  // Where the guarantees end
  // ---------------------------------------------------------------------------

  lemma {:induction false} RunAppend<F>(s: State<F>, a: seq<Label<F>>, b: seq<Label<F>>)
    ensures Run(s, a + b) == Run(Run(s, a), b)
    decreases |a|
  {
    if a == [] {
      assert a + b == b;
    } else {
      assert (a + b)[1..] == a[1..] + b;
      RunAppend(Exec(s, a[0]), a[1..], b);
    }
  }

  lemma RunOne<F>(s: State<F>, ls: seq<Label<F>>, l: Label<F>)
    ensures Run(s, ls + [l]) == Exec(Run(s, ls), l)
  {
    RunAppend(s, ls, [l]);
    assert [l][1..] == [];
  }

  lemma Go<F(!new)>(s: State<F>, l: Label<F>) returns (t: State<F>)
    requires Reachable(s)
    ensures Reachable(t) && t == Exec(s, l)
  {
    var ls :| s == Run(Start(), ls);
    RunOne(Start<F>(), ls, l);
    t := Exec(s, l);
    assert t == Run(Start(), ls + [l]);
  }

  lemma Begin<F(!new)>() returns (s: State<F>)
    ensures Reachable(s) && s == Start()
  {
    s := Start();
    assert s == Run(Start(), []);
  }

  /** The worker takes the only frame there is. */
  lemma TakeOneFrame<F(!new)>(f: F) returns (s: State<F>)
    ensures Reachable(s) && s.wpc.WProcess? && s.queue == [] && s.inFlight == Some(f) && s.processed == []
    ensures s.spc.SIdle? && s.mutex.Nobody?
  {
    hide Reachable;
    s := Begin();
    s := Go(s, Push(f));
    s := Go(s, WorkerStep);
    s := Go(s, WorkerStep);
    s := Go(s, WorkerStep);
    assert s.wpc.WLength? && s.queue == [f];
    s := Go(s, WorkerStep);
    s := Go(s, WorkerStep);
  }

  /** Stop is called on an empty queue and returns before anything else moves. */
  lemma StopRuns<F(!new)>(s: State<F>) returns (t: State<F>)
    requires Reachable(s) && s.spc.SIdle? && s.queue == [] && s.mutex.Nobody?
    ensures Reachable(t) && t.spc.SDone? && t.stop && t.mutex.Nobody?
    ensures t.wpc == s.wpc && t.inFlight == s.inFlight && t.counting == s.counting
    ensures t.queue == s.queue && t.pushed == s.pushed && t.processed == s.processed
  {
    hide Reachable;
    var a := Go(s, CallStop);
    var b := Go(a, StopperStep);
    assert b == a.(spc := SLock, sincePoll := []);
    var c := Go(b, StopperStep);
    assert c == b.(mutex := Stopper, mutexMisused := b.mutexMisused || b.mutexCleared, spc := SSet);
    var d := Go(c, StopperStep);
    assert d == c.(stop := true, spc := SUnlock);
    t := Go(d, StopperStep);
    assert t == d.(mutex := Nobody, spc := SDone);
  }

  /** The comment in the source says that stop waits until all queued frames are uploaded. It can
      return while the last one is still in flight. */
  lemma StopCanReturnEarly<F(!new)>(f: F) returns (s: State<F>)
    ensures Reachable(s) && s.spc.SDone? && s.inFlight == Some(f) && s.processed == []
  {
    hide Reachable;
    s := TakeOneFrame(f);
    s := StopRuns(s);
  }

  /** A frame pushed after the stopper's last look can be left in the queue for good. */
  lemma LateFrameCanBeLost<F(!new)>(f: F) returns (s: State<F>)
    ensures Reachable(s) && s.wpc.WDone? && s.pushed == [f] && s.processed == []
  {
    hide Reachable;
    s := Begin();
    s := StopRuns(s);
    s := Go(s, Push(f));
    s := Go(s, WorkerStep);
    s := Go(s, WorkerStep);
    assert s.wpc.WLeave?;
    s := Go(s, WorkerStep);
    s := Go(s, WorkerStep);
  }
}
