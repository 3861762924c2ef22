/** The worker and the stopper always get on: every pushed frame is saved, and stop returns. */
module StopProgress {
  import opened SaveWorker

  // ---------------------------------------------------------------------------
  // Every pushed frame is saved
  // ---------------------------------------------------------------------------

  /** The stopper has not taken the mutex yet. */
  predicate BeforeLock(spc: StopperPc) {
    spc.SIdle? || spc.SPoll? || spc.SNap? || spc.SLock?
  }

  /** Statements of the worker until `target` frames are saved, while stop has not taken the mutex. */
  function ToSave<F>(s: State<F>, target: nat): nat {
    if |s.processed| >= target then 0
    else
      var left := 3 * (target - |s.processed|);
      match s.wpc
      case WSleep => left + 4
      case WLock => left + 3
      case WTest => left + 2
      case WUnlock => left + 1
      case WLength => left
      case WPop => left - 1
      case WProcess => left - 2
      case _ => 0
  }

  lemma ConservedCounts<F>(s: State<F>)
    requires Inv(s)
    ensures |s.pushed| == |s.processed| + |InFlight(s)| + |s.queue|
    ensures |InFlight(s)| == if s.wpc.WProcess? then 1 else 0
  {
  }

  /** Until then the worker is never blocked, and each of its statements counts. */
  lemma WorkerSavesOn<F>(s: State<F>, target: nat)
    requires Inv(s) && BeforeLock(s.spc) && |s.processed| < target <= |s.pushed|
    ensures Enabled(s, WorkerStep) && ToSave(WorkerNext(s), target) < ToSave(s, target)
  {
    ConservedCounts(s);
    WorkerIsFree(s);
    hide Inv, Enabled;
    if InInnerLoop(s.wpc) { InnerSavesOn(s, target); } else { OuterSavesOn(s, target); }
  }

  lemma WorkerIsFree<F>(s: State<F>)
    requires Inv(s) && BeforeLock(s.spc)
    ensures Enabled(s, WorkerStep) && !s.stop
    ensures !s.wpc.WLeave? && !s.wpc.WClear? && !s.wpc.WDone?
  {
  }

  lemma InnerSavesOn<F>(s: State<F>, target: nat)
    requires Enabled(s, WorkerStep) && InInnerLoop(s.wpc) && |s.processed| < target <= |s.pushed|
    requires |s.pushed| == |s.processed| + |InFlight(s)| + |s.queue|
    requires |InFlight(s)| == if s.wpc.WProcess? then 1 else 0
    ensures ToSave(InnerNext(s), target) < ToSave(s, target)
  {
    match s.wpc
    case WLength =>
    case WPop =>
    case WProcess =>
  }

  lemma OuterSavesOn<F>(s: State<F>, target: nat)
    requires Enabled(s, WorkerStep) && !InInnerLoop(s.wpc) && |s.processed| < target && !s.stop
    requires !s.wpc.WLeave? && !s.wpc.WClear? && !s.wpc.WDone?
    ensures ToSave(OuterNext(s), target) < ToSave(s, target)
  {
    OuterMovesNothing(s);
  }

  lemma OthersSaveNothing<F>(s: State<F>, l: Label<F>, target: nat)
    requires !l.WorkerStep?
    ensures ToSave(Exec(s, l), target) == ToSave(s, target)
  {
    hide StopperNext;
    if l.StopperStep? && Enabled(s, l) { StopperFrame(s); }
    hide Enabled;
  }

  lemma PastLockStays<F>(s: State<F>, l: Label<F>)
    requires !BeforeLock(s.spc)
    ensures !BeforeLock(Exec(s, l).spc)
  {
    hide OuterNext;
    if l.WorkerStep? && Enabled(s, l) { WorkerLeavesStopper(s); }
    hide WorkerNext;
  }

  lemma WorkerLeavesStopper<F>(s: State<F>)
    requires Enabled(s, WorkerStep)
    ensures WorkerNext(s).spc == s.spc && WorkerNext(s).pushed == s.pushed
  {
    hide OuterNext;
    if !InInnerLoop(s.wpc) { OuterMovesNothing(s); }
  }

  lemma {:induction false} PastLockForGood<F>(s: State<F>, ls: seq<Label<F>>)
    requires !BeforeLock(s.spc)
    ensures !BeforeLock(Run(s, ls).spc)
    decreases |ls|
  {
    hide Exec;
    if ls == [] {
    } else {
      PastLockStays(s, ls[0]);
      PastLockForGood(Exec(s, ls[0]), ls[1..]);
    }
  }

  lemma ExecKeeps<F>(s: State<F>, l: Label<F>)
    requires Inv(s)
    ensures Inv(Exec(s, l))
  {
    hide Inv, Step, Enabled;
    if Enabled(s, l) { StepKeeps(s, l); }
  }

  lemma {:induction false} SavedUpTo<F>(s: State<F>, ls: seq<Label<F>>, target: nat)
    requires Inv(s) && target <= |s.pushed| && BeforeLock(Run(s, ls).spc) && ToSave(s, target) <= WorkerLabels(ls)
    ensures |Run(s, ls).processed| >= target
    decreases |ls|
  {
    hide Inv, Exec, ToSave;
    if |s.processed| >= target {
      RunOnlyAdds(s, ls);
    } else if ls == [] {
      StillToSave(s, target);
    } else {
      var l := ls[0];
      if !BeforeLock(s.spc) { PastLockForGood(s, ls); }
      ExecKeeps(s, l);
      StepOnlyAdds(s, l);
      if l.WorkerStep? {
        WorkerSavesOn(s, target);
        StatementIsExec(s);
      } else {
        OthersSaveNothing(s, l, target);
      }
      SavedUpTo(Exec(s, l), ls[1..], target);
    }
  }

  lemma StatementIsExec<F>(s: State<F>)
    requires Enabled(s, WorkerStep)
    ensures Exec(s, WorkerStep) == WorkerNext(s)
  {
  }

  lemma StillToSave<F>(s: State<F>, target: nat)
    requires Inv(s) && BeforeLock(s.spc) && |s.processed| < target
    ensures ToSave(s, target) > 0
  {
    WorkerIsFree(s);
    hide Inv;
  }

  /** As long as stop has not taken the mutex, every frame is saved once the worker has had its turns: three
      for each frame that is ahead of it and four to come round, whatever is pushed meanwhile. */
  lemma FramesAreSavedInTime<F(!new)>(s: State<F>, ls: seq<Label<F>>)
    requires Reachable(s) && BeforeLock(Run(s, ls).spc)
    requires WorkerLabels(ls) >= 3 * (|s.pushed| - |s.processed|) + 4
    ensures s.pushed <= Run(s, ls).processed
  {
    hide Inv, Reachable, Run;
    ReachableInv(s);
    ToSaveBound(s);
    SavedUpTo(s, ls, |s.pushed|);
    RunOnlyAdds(s, ls);
    RunKeeps(s, ls);
    SavedArePrefix(Run(s, ls));
  }

  lemma ToSaveBound<F>(s: State<F>)
    requires Inv(s)
    ensures |s.processed| <= |s.pushed|
    ensures ToSave(s, |s.pushed|) <= 3 * (|s.pushed| - |s.processed|) + 4
  {
    ConservedCounts(s);
  }

  lemma SavedArePrefix<F>(s: State<F>)
    requires Inv(s)
    ensures s.processed <= s.pushed
  {
    assert s.pushed == s.processed + (InFlight(s) + s.queue);
  }

  // ---------------------------------------------------------------------------
  // Stop returns
  // ---------------------------------------------------------------------------

  /** Statements the stopper has left once the queue is empty. */
  function StopperLeft(spc: StopperPc): nat {
    match spc
    case SIdle => 6
    case SNap => 5
    case SPoll => 4
    case SLock => 3
    case SSet => 2
    case SUnlock => 1
    case SDone => 0
  }

  /** How many statements the stopper makes in a run: its labels that come when it is not blocked. */
  function StopperStatements<F>(s: State<F>, ls: seq<Label<F>>): nat
    decreases |ls|
  {
    if ls == [] then 0
    else (if ls[0].StopperStep? && Enabled(s, ls[0]) then 1 else 0) + StopperStatements(Exec(s, ls[0]), ls[1..])
  }

  /** The stopper has nothing to wait for but the mutex. */
  predicate MayStop<F>(s: State<F>) {
    !s.spc.SIdle? && (s.queue == [] || Polled(s.spc))
  }

  lemma StopperGoesOn<F>(s: State<F>)
    requires MayStop(s) && Enabled(s, StopperStep)
    ensures MayStop(StopperNext(s)) && StopperLeft(StopperNext(s).spc) < StopperLeft(s.spc)
  {
    if s.spc.SPoll? || s.spc.SNap? {
      hide Enabled;
    } else {
      StopperFrame(s);
    }
  }

  lemma WorkerLetsStop<F>(s: State<F>)
    requires MayStop(s) && Enabled(s, WorkerStep)
    ensures MayStop(WorkerNext(s)) && WorkerNext(s).spc == s.spc
  {
    hide OuterNext;
    WorkerLeavesStopper(s);
    if !InInnerLoop(s.wpc) { OuterMovesNothing(s); }
    hide StopperLeft;
  }

  lemma OneStopStep<F>(s: State<F>, l: Label<F>)
    requires MayStop(s) && !l.Push?
    ensures MayStop(Exec(s, l))
    ensures StopperLeft(Exec(s, l).spc) + (if l.StopperStep? && Enabled(s, l) then 1 else 0) <= StopperLeft(s.spc)
  {
    hide WorkerNext, StopperNext, StopperLeft;
    if Enabled(s, l) {
      match l
      case StopperStep => StopperGoesOn(s);
      case WorkerStep => WorkerLetsStop(s);
      case CountPush =>
      case CallStop =>
    }
  }

  lemma {:induction false} StopperFinishes<F>(s: State<F>, ls: seq<Label<F>>)
    requires MayStop(s) && PushLabels(ls) == 0 && StopperLeft(s.spc) <= StopperStatements(s, ls)
    ensures Run(s, ls).spc.SDone?
    decreases |ls|
  {
    hide MayStop, Exec, Enabled;
    if ls == [] {
    } else {
      OneStopStep(s, ls[0]);
      StopperFinishes(Exec(s, ls[0]), ls[1..]);
    }
  }

  lemma {:induction false} NoPushNoMore<F>(s: State<F>, ls: seq<Label<F>>)
    requires PushLabels(ls) == 0
    ensures Run(s, ls).pushed == s.pushed && (!s.spc.SIdle? ==> !Run(s, ls).spc.SIdle?)
    decreases |ls|
  {
    hide Exec;
    if ls == [] {
    } else {
      NoPushStep(s, ls[0]);
      NoPushNoMore(Exec(s, ls[0]), ls[1..]);
    }
  }

  lemma NoPushStep<F>(s: State<F>, l: Label<F>)
    requires !l.Push?
    ensures Exec(s, l).pushed == s.pushed && (!s.spc.SIdle? ==> !Exec(s, l).spc.SIdle?)
  {
    hide WorkerNext, StopperNext;
    if l.WorkerStep? && Enabled(s, l) { WorkerLeavesStopper(s); }
    if l.StopperStep? && Enabled(s, l) { StopperFrame(s); }
    hide Enabled;
  }

  /** Stop returns: once it has been called and nothing more is pushed, it does so in every run that first
      gives the worker the turns it needs to save what there is, and then lets the stopper make five
      statements, whatever else is interleaved. */
  lemma StopReturns<F(!new)>(s: State<F>, a: seq<Label<F>>, b: seq<Label<F>>)
    requires Reachable(s) && !s.spc.SIdle? && PushLabels(a) == 0 && PushLabels(b) == 0
    requires WorkerLabels(a) >= 3 * (|s.pushed| - |s.processed|) + 4
    requires StopperStatements(Run(s, a), b) >= 5
    ensures Run(s, a + b).spc.SDone?
  {
    hide Inv, Reachable, Run, Polled;
    ReachableInv(s);
    RunKeeps(s, a);
    NoPushNoMore(s, a);
    var t := Run(s, a);
    if BeforeLock(t.spc) {
      FramesAreSavedInTime(s, a);
      AllSavedIsEmpty(t);
    } else {
      PastLockIsPolled(t.spc);
    }
    StopperFinishes(t, b);
    RunAppend(s, a, b);
  }

  lemma AllSavedIsEmpty<F>(s: State<F>)
    requires Inv(s) && s.pushed <= s.processed
    ensures s.queue == []
  {
    ConservedCounts(s);
  }

  lemma PastLockIsPolled(spc: StopperPc)
    requires !BeforeLock(spc)
    ensures Polled(spc)
  {
  }

  /** Statements of the worker until it lets go of the mutex, when it holds it and stop is not set. */
  function ToRelease(wpc: WorkerPc): nat {
    if wpc.WTest? then 2 else if wpc.WUnlock? then 1 else 0
  }

  /** Who moves next for stop to be called and to return: the worker while there is something to save or the mutex to
      release, else the stopper. */
  function StopLabel<F>(s: State<F>): Label<F> {
    if s.spc.SIdle? then CallStop
    else if (!Polled(s.spc) && s.queue != []) || (s.spc.SLock? && !s.mutex.Nobody?) then WorkerStep else StopperStep
  }

  lemma SomebodyMoves<F>(s: State<F>)
    requires Inv(s) && !s.spc.SDone?
    ensures var l := StopLabel(s); var t := Step(s, l);
            && Enabled(s, l) && t.pushed == s.pushed && !t.spc.SIdle?
            && if l.StopperStep? || l.CallStop? then StopperLeft(t.spc) < StopperLeft(s.spc)
               else
                 && t.spc == s.spc && ToSave(t, |s.pushed|) <= ToSave(s, |s.pushed|)
                 && (ToSave(t, |s.pushed|) < ToSave(s, |s.pushed|) || ToRelease(t.wpc) < ToRelease(s.wpc))
  {
    hide WorkerNext, StopperNext, ToSave, StopperLeft;
    ConservedCounts(s);
    if s.spc.SIdle? {
      IdleIsMost();
    } else if StopLabel(s).WorkerStep? {
      WorkerIsFree(s);
      WorkerLeavesStopper(s);
      if |s.processed| < |s.pushed| {
        WorkerSavesOn(s, |s.pushed|);
      } else {
        HolderReleases(s);
      }
    } else {
      StopperFrame(s);
      StopperGoesOn(s);
    }
  }

  lemma IdleIsMost()
    ensures StopperLeft(SPoll) < StopperLeft(SIdle)
  {
  }

  lemma HolderReleases<F>(s: State<F>)
    requires Inv(s) && s.spc.SLock? && !s.mutex.Nobody? && |s.processed| >= |s.pushed| && Enabled(s, WorkerStep)
    ensures ToRelease(WorkerNext(s).wpc) < ToRelease(s.wpc)
    ensures ToSave(WorkerNext(s), |s.pushed|) == ToSave(s, |s.pushed|) == 0
  {
    WorkerIsFree(s);
    hide Conserved, TailsOk;
  }

  /** And such a run exists from every reachable state; stop can be called in any of them. */
  lemma {:induction false} StopCanReturn<F(!new)>(s: State<F>) returns (ls: seq<Label<F>>)
    requires Inv(s)
    ensures Run(s, ls).spc.SDone? && PushLabels(ls) == 0
    ensures s.spc.SIdle? ==> ls != [] && ls[0] == CallStop && Enabled(s, CallStop)
    decreases StopperLeft(s.spc), ToSave(s, |s.pushed|), ToRelease(s.wpc)
  {
    hide Inv, Step, Enabled, StopLabel, ToSave, ToRelease;
    if s.spc.SDone? {
      ls := [];
    } else {
      SomebodyMoves(s);
      StepKeeps(s, StopLabel(s));
      var rest := StopCanReturn(Step(s, StopLabel(s)));
      ls := [StopLabel(s)] + rest;
      StopLabelIs(s);
      assert Run(s, ls) == Run(Step(s, StopLabel(s)), rest);
    }
  }

  lemma StopLabelIs<F>(s: State<F>)
    ensures !StopLabel(s).Push? && (s.spc.SIdle? ==> StopLabel(s) == CallStop)
  {
  }

  /** The stopper and the worker are never inside the mutex together. */
  lemma MutualExclusion<F(!new)>(s: State<F>)
    requires Reachable(s)
    ensures !((s.wpc.WTest? || s.wpc.WUnlock? || s.wpc.WLeave?) && (s.spc.SSet? || s.spc.SUnlock?))
  {
    ReachableInv(s);
  }
}
