/** Who moves the save gate in the whole system, and what the scan pushes while nobody does. */
module GateControl {
  import opened FrameSelection
  import LiveLink
  import SaveGate
  import SaveWorker
  import opened EndToEnd
  import opened ScanCoverage
  import opened ScanRefinement

  /** A step that closes the gate: an explicit close, a timer that fires, or the statement with which an enable
      or a disable of the filter closes it. */
  predicate Closes(s: Sys, l: Label) {
    && Enabled(s, l)
    && (|| l == GateStep(SaveGate.SetClosed)
        || (l.GateStep? && l.g.FireTimer?)
        || (l == LinkStep(LiveLink.DoAdvance) && (s.link.cmd.EnBuilt? || s.link.cmd.DisFlagged?)))
  }

  predicate Opens(s: Sys, l: Label) {
    Enabled(s, l) && l == GateStep(SaveGate.SetOpen)
  }

  /** In every state: after a step the gate is open if the step opened it, shut if it closed it, and as it was
      otherwise. No step but the gate's own changes its clock or its timers: offering, firing, clearing,
      pushing and draining, the scan and the worker leave the gate alone. */
  lemma GateAfterStep(s: Sys, l: Label)
    ensures Exec(s, l).gate.open == if Opens(s, l) then true else if Closes(s, l) then false else s.gate.open
    ensures !l.GateStep? ==> Exec(s, l).gate == s.gate.(open := Exec(s, l).gate.open)
  {
    hide LiveLink.Step, LiveLink.Enabled, SaveWorker.Step, SaveWorker.Enabled, PassesRatio, IsBuffer;
  }

  /** The gate is never shut by itself: in every run, an open gate that is shut later was closed by one of
      those steps. */
  lemma {:induction false} SomebodyClosed(s: Sys, ls: seq<Label>)
    requires s.gate.open && !Run(s, ls).gate.open
    ensures exists n :: 0 <= n < |ls| && Closes(Run(s, ls[..n]), ls[n])
    decreases |ls|
  {
    hide Exec, Closes, Opens;
    if ls == [] {
      assert false;
    } else {
      var front := ls[..|ls| - 1];
      RunLast(s, ls);
      if Run(s, front).gate.open {
        GateAfterStep(Run(s, front), ls[|ls| - 1]);
        assert ls[..|ls| - 1] == front;
      } else {
        SomebodyClosed(s, front);
        var n :| 0 <= n < |front| && Closes(Run(s, front[..n]), front[n]);
        assert front[..n] == ls[..n] && front[n] == ls[n];
      }
    }
  }

  /** Nor is it opened by itself. */
  lemma {:induction false} SomebodyOpened(s: Sys, ls: seq<Label>)
    requires !s.gate.open && Run(s, ls).gate.open
    ensures exists n :: 0 <= n < |ls| && Opens(Run(s, ls[..n]), ls[n])
    decreases |ls|
  {
    hide Exec, Closes, Opens;
    if ls == [] {
      assert false;
    } else {
      var front := ls[..|ls| - 1];
      RunLast(s, ls);
      if !Run(s, front).gate.open {
        GateAfterStep(Run(s, front), ls[|ls| - 1]);
        assert ls[..|ls| - 1] == front;
      } else {
        SomebodyOpened(s, front);
        var n :| 0 <= n < |front| && Opens(Run(s, front[..n]), front[n]);
        assert front[..n] == ls[..n] && front[n] == ls[n];
      }
    }
  }

  // ---------------------------------------------------------------------------
  // Nothing is pushed unasked
  // ---------------------------------------------------------------------------

  predicate NothingAsked(s: Sys) {
    !s.gate.open && (s.scan.NoScan? || s.scan.Looking?) && s.worker.pushed == []
  }

  lemma StillNothingAsked(s: Sys, l: Label)
    requires NothingAsked(s) && l != GateStep(SaveGate.SetOpen)
    ensures NothingAsked(Exec(s, l))
  {
    hide LiveLink.Step, LiveLink.Enabled, SaveWorker.Step, SaveWorker.Enabled, PassesRatio, IsBuffer;
    if l.SaveStep? && Enabled(s, l) { SaveLeavesPushes(s.worker, l.w); }
  }

  lemma {:induction false} NothingAskedRun(s: Sys, ls: seq<Label>)
    requires NothingAsked(s) && GateStep(SaveGate.SetOpen) !in ls
    ensures NothingAsked(Run(s, ls))
    decreases |ls|
  {
    hide Exec, NothingAsked;
    if ls == [] {
    } else {
      assert ls[0] in ls;
      assert forall l :: l in ls[1..] ==> l in ls;
      StillNothingAsked(s, ls[0]);
      NothingAskedRun(Exec(s, ls[0]), ls[1..]);
    }
  }

  /** Saving is off until somebody asks for it: in a run from the start without an opening of the gate, no
      frame is ever pushed, and the gate is never open. */
  lemma NothingIsPushedUnasked(configured: bool, lag: nat, ls: seq<Label>)
    requires GateStep(SaveGate.SetOpen) !in ls
    ensures var s := Run(Start(configured, lag), ls);
            !s.gate.open && s.worker.pushed == [] && s.worker.processed == []
  {
    var start := Start(configured, lag);
    NothingAskedRun(start, ls);
    StartKeeps(configured, lag);
    RunKeeps(start, ls);
    NothingSaved(Run(start, ls));
  }

  lemma SavedFit(s: Sys)
    requires SysInv(s)
    ensures |s.worker.processed| <= |s.worker.pushed|
  {
  }

  lemma NothingSaved(s: Sys)
    requires SysInv(s) && s.worker.pushed == []
    ensures s.worker.processed == []
  {
    hide SysInv;
    SavedFit(s);
  }

  // ---------------------------------------------------------------------------
  // While the gate is open, every frame that passes is pushed
  // ---------------------------------------------------------------------------

  predicate NobodyCloses(s: Sys, ls: seq<Label>)
    decreases |ls|
  {
    ls == [] || (!Closes(s, ls[0]) && NobodyCloses(Exec(s, ls[0]), ls[1..]))
  }

  /** What was recorded since is all open. */
  ghost predicate OpenSince(before: seq<Check>, after: seq<Check>) {
    before <= after && forall i :: |before| <= i < |after| ==> after[i].open
  }

  lemma StepStaysOpen(s: Sys, l: Label)
    requires s.gate.open && !Closes(s, l)
    ensures Exec(s, l).gate.open && OpenSince(s.checks, Exec(s, l).checks)
  {
    hide Exec, LooksAt, Closes, Opens;
    GateAfterStep(s, l);
    StepRecords(s, l);
    if Exec(s, l).checks != s.checks { LooksAtOpen(s, l, Exec(s, l).checks[|Exec(s, l).checks| - 1]); }
  }

  lemma LooksAtOpen(s: Sys, l: Label, c: Check)
    requires LooksAt(s, l, c)
    ensures c.open == s.gate.open
  {
  }

  lemma {:induction false} RunStaysOpen(s: Sys, ls: seq<Label>)
    requires s.gate.open && NobodyCloses(s, ls)
    ensures Run(s, ls).gate.open && OpenSince(s.checks, Run(s, ls).checks)
    decreases |ls|
  {
    hide Exec, Closes;
    if ls == [] {
    } else {
      StepStaysOpen(s, ls[0]);
      RunStaysOpen(Exec(s, ls[0]), ls[1..]);
    }
  }

  lemma ReachableOn(s: Sys, ls: seq<Label>)
    requires Reachable(s)
    ensures Reachable(Run(s, ls))
  {
    hide Run;
    var configured, lag, before :| s == Run(Start(configured, lag), before);
    RunAppend(Start(configured, lag), before, ls);
    assert Run(s, ls) == Run(Start(configured, lag), before + ls);
  }

  /** From any reachable state with the gate open, through any run in which none of the closing steps
      happens: every frame not looked at before, of every delivered buffer the scan has finished with, is
      pushed if it crossed the filter, lies before the first frame without metadata, and its counts pass. */
  lemma PassingFramesArePushed(s: Sys, ls: seq<Label>, at: nat, k: nat)
    requires Reachable(s) && s.gate.open && NobodyCloses(s, ls) && !HasCheck(s.checks, at, k)
    requires var t := Run(s, ls);
             && at < |t.link.net.delivered| && IsBuffer(t.link.net.delivered[at])
             && (t.scan.NoScan? || t.scan.at != at)
             && k < ToLookAt(t.link.net.delivered[at]) <= |t.link.net.delivered[at].u.item.frames|
             && t.link.net.delivered[at].u.item.frames[k].userMeta != []
             && PassesRatio(LastMeta(t.link.net.delivered[at].u.item.frames[k]))
    ensures var t := Run(s, ls); Ticket(at, k, t.link.net.delivered[at].u.item.frames[k]) in t.worker.pushed
  {
    hide Run, Reachable, SysInv, CoverInv, PassesRatio, ToLookAt;
    var t := Run(s, ls);
    ReachableOn(s, ls);
    RunStaysOpen(s, ls);
    ScanLooksAtExactly(t, at, k);
    var i :| 0 <= i < |t.checks| && t.checks[i].at == at && t.checks[i].k == k;
    assert forall j :: 0 <= j < |s.checks| ==> s.checks[j] == t.checks[j];
    assert i >= |s.checks|;
    assert t.checks[i] == Check(at, k, true);
    ReachableCovers(t);
    SelectedIsPushed(t, t.checks[i]);
  }
}
