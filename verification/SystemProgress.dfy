/** The streaming thread is never stuck in the whole system: neither in the scan nor at the pads. */
module SystemProgress {
  import Arrival
  import LiveLink
  import LiveLinkInvariant
  import LiveLinkTheorems
  import SaveGate
  import SaveWorker
  import opened EndToEnd
  import opened ScanCoverage

  predicate Busy(s: Sys) {
    !s.scan.NoScan? || !s.link.net.cursor.Idle?
  }

  /** What the streaming thread does next: it goes on with its scan, and with its item when there is none. */
  function NextLabel(s: Sys): Label
    requires Busy(s)
  {
    match s.scan
    case Looking(_, _) => LookAtFrame
    case Passed(_, _) => PushFrame
    case Counting(_, _) => CountFrame
    case NoScan => LinkStep(LiveLinkTheorems.NextLabel(s.link.net))
  }

  /** Statements of the scan still to come, at most. */
  function ScanLeft(s: Sys): nat
    requires InRange(s)
  {
    match s.scan
    case NoScan => 0
    case Looking(at, k) => 3 * (ToLookAt(s.link.net.delivered[at]) - k) + 1
    case Passed(at, k) => 3 * (ToLookAt(s.link.net.delivered[at]) - k)
    case Counting(at, k) => 3 * (ToLookAt(s.link.net.delivered[at]) - k) - 1
  }

  lemma InvGivesParts(s: Sys)
    requires SysInv(s)
    ensures LiveLinkInvariant.Inv(s.link) && ScanInv(s)
  {
  }

  lemma CoverGivesRange(s: Sys)
    requires CoverInv(s)
    ensures InRange(s)
  {
  }

  lemma NextIsEnabled(s: Sys)
    requires SysInv(s) && Busy(s)
    ensures Enabled(s, NextLabel(s))
  {
    hide SysInv, LiveLinkInvariant.Inv, LiveLink.Enabled, LiveLink.Step, Justified, LiveLinkTheorems.Nearer;
    InvGivesParts(s);
    if s.scan.NoScan? { LiveLinkTheorems.StreamProgress(s.link); }
  }

  /** Every statement of the scan leaves the item where it is and shortens what is left of the scan. */
  lemma ScanAdvances(s: Sys)
    requires ScanInv(s) && !s.scan.NoScan? && Enabled(s, NextLabel(s))
    requires InRange(s) && InRange(Step(s, NextLabel(s)))
    ensures var t := Step(s, NextLabel(s)); t.link == s.link && ScanLeft(t) < ScanLeft(s)
  {
    hide ToLookAt, Justified, LiveLink.Step, LiveLink.Enabled, SaveWorker.Step, SaveWorker.Enabled;
  }

  /** In every reachable state in which a scan is going on or an item is in hand, the streaming thread can
      move, whatever the other threads are doing, and its step either shortens the scan or brings the item
      nearer to its end. */
  lemma StreamingNeverStuck(s: Sys)
    requires Reachable(s) && Busy(s)
    ensures Enabled(s, NextLabel(s))
    ensures var t := Step(s, NextLabel(s));
            && InRange(s) && InRange(t)
            && if s.scan.NoScan? then LiveLinkTheorems.Nearer(s.link.net, t.link.net)
               else t.link == s.link && ScanLeft(t) < ScanLeft(s)
  {
    hide SysInv, CoverInv, Reachable;
    ReachableCovers(s);
    StepIsNearer(s);
  }

  lemma StepIsNearer(s: Sys)
    requires SysInv(s) && CoverInv(s) && Busy(s)
    ensures Enabled(s, NextLabel(s))
    ensures var t := Step(s, NextLabel(s));
            && InRange(s) && InRange(t) && SysInv(t) && CoverInv(t)
            && if s.scan.NoScan? then LiveLinkTheorems.Nearer(s.link.net, t.link.net)
               else t.link == s.link && ScanLeft(t) < ScanLeft(s)
  {
    hide SysInv, CoverInv, ScanLeft, LiveLinkInvariant.Inv, LiveLink.Step, LiveLink.Enabled, LiveLinkTheorems.Nearer,
      LookNext, SaveWorker.Step, SaveWorker.Enabled, ScanInv, InRange;
    InvGivesParts(s);
    NextIsEnabled(s);
    var l := NextLabel(s);
    StepCovers(s, l);
    StepKeeps(s, l);
    CoverGivesRange(s);
    CoverGivesRange(Step(s, l));
    if s.scan.NoScan? {
      LiveLinkTheorems.StreamProgress(s.link);
    } else {
      ScanAdvances(s);
    }
  }

  function LeftOf(s: Sys): nat {
    if InRange(s) then ScanLeft(s) else 0
  }

  /** From every reachable state the item in hand and the scan can be finished by the streaming thread alone. */
  lemma {:induction false} StreamingCompletes(s: Sys) returns (ls: seq<Label>)
    requires SysInv(s) && CoverInv(s)
    ensures !Busy(Run(s, ls))
    ensures forall i :: 0 <= i < |ls| ==> (ls[i].LinkStep? && !LiveLinkTheorems.IsCommand(ls[i].l))
                                          || ls[i].LookAtFrame? || ls[i].PushFrame? || ls[i].CountFrame?
    decreases |s.link.net.pending|, LiveLinkTheorems.Stage(s.link.net.cursor),
              LiveLinkTheorems.HeldBy(s.link.net), LeftOf(s)
  {
    hide SysInv, CoverInv, InRange, ScanLeft, Step, Enabled;
    if !Busy(s) {
      ls := [];
    } else {
      StepIsNearer(s);
      var t := Step(s, NextLabel(s));
      var rest := StreamingCompletes(t);
      ls := [NextLabel(s)] + rest;
      assert Run(s, ls) == Run(t, rest);
    }
  }

  lemma LeaveEndsNothing(s: Sys)
    requires SysInv(s) && s.scan.NoScan? && s.link.net.cursor.Idle? && Arrival.HeldInChain(s.link.net) > 0
    ensures Enabled(s, LinkStep(LiveLink.DoLeave(LiveLinkInvariant.InChain(s.link.net).value)))
    ensures var t := Step(s, LinkStep(LiveLink.DoLeave(LiveLinkInvariant.InChain(s.link.net).value)));
            && t.link.net.cursor.Idle?
            && Arrival.HeldInChain(t.link.net) == Arrival.HeldInChain(s.link.net) - 1
            && t.link.net.offered == s.link.net.offered
  {
    hide SysInv, LiveLinkInvariant.Inv, LiveLink.Enabled, LiveLink.Step, Arrival.HeldInChain, Step, Enabled;
    InvGivesParts(s);
    Arrival.LeaveDrains(s.link);
    LeaveIsLinkStep(s, LiveLinkInvariant.InChain(s.link.net).value);
  }

  lemma LeaveIsLinkStep(s: Sys, b: nat)
    requires LiveLink.Enabled(s.link, LiveLink.DoLeave(b)) && s.scan.NoScan?
    ensures var l := LinkStep(LiveLink.DoLeave(b));
            Enabled(s, l) && Step(s, l).link == LiveLink.Step(s.link, LiveLink.DoLeave(b))
  {
    hide LiveLink.Enabled, LiveLink.Step, IsBuffer;
  }

  lemma ScanWaitsForNothing(s: Sys)
    requires SysInv(s) && CoverInv(s) && !s.scan.NoScan?
    ensures Enabled(s, NextLabel(s))
    ensures var t := Step(s, NextLabel(s)); t.link == s.link && LeftOf(t) < LeftOf(s)
  {
    hide SysInv, CoverInv, InRange, ScanLeft, Step, Enabled;
    StepIsNearer(s);
  }

  /** With nothing in hand, main and the scan can be emptied together. */
  lemma {:induction false} DrainAll(s: Sys) returns (ls: seq<Label>)
    requires SysInv(s) && CoverInv(s) && s.link.net.cursor.Idle?
    ensures SysInv(Run(s, ls)) && !Busy(Run(s, ls)) && Arrival.HeldInChain(Run(s, ls).link.net) == 0
    ensures Run(s, ls).link.net.offered == s.link.net.offered
    decreases Arrival.HeldInChain(s.link.net), LeftOf(s)
  {
    hide SysInv, CoverInv, Step, Enabled, NextLabel, LeftOf, Arrival.HeldInChain;
    var l;
    if !s.scan.NoScan? {
      ScanWaitsForNothing(s);
      l := NextLabel(s);
    } else if Arrival.HeldInChain(s.link.net) > 0 {
      LeaveEndsNothing(s);
      l := LinkStep(LiveLink.DoLeave(LiveLinkInvariant.InChain(s.link.net).value));
    } else {
      ls := [];
      return;
    }
    OneStep(s, l);
    var rest := DrainAll(Step(s, l));
    ls := [l] + rest;
    assert Run(s, ls) == Run(Step(s, l), rest);
  }

  lemma OneStep(s: Sys, l: Label)
    requires SysInv(s) && CoverInv(s) && Enabled(s, l)
    ensures SysInv(Step(s, l)) && CoverInv(Step(s, l))
  {
    hide SysInv, CoverInv, Step, Enabled;
    InvGivesParts(s);
    StepCovers(s, l);
    StepKeeps(s, l);
  }
}
