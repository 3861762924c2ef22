/** Which frames the scan looks at, over every run of the whole system: exactly those in front of the
    first frame without metadata, each once and in order. */
module ScanCoverage {
  import opened FrameSelection
  import LiveLink
  import LiveLinkInvariant
  import SaveGate
  import SaveWorker
  import opened EndToEnd

  /** How many frames of a delivered buffer there are to look at. */
  function ToLookAt(d: LiveLink.Delivery): nat
    requires IsBuffer(d)
  {
    if d.via.Some? then Scanned(d.u.item.frames) else 0
  }

  /** Every frame before this point has been looked at or will not be. */
  function Looked(s: Sys): (nat, nat) {
    match s.scan
    case NoScan => (|s.link.net.delivered|, 0)
    case Looking(at, k) => (at, k)
    case Passed(at, k) => (at, k + 1)
    case Counting(at, k) => (at, k + 1)
  }

  ghost predicate HasCheck(checks: seq<Check>, at: nat, k: nat) {
    exists i :: 0 <= i < |checks| && checks[i].at == at && checks[i].k == k
  }

  predicate Due(d: seq<LiveLink.Delivery>, at: nat, k: nat) {
    at < |d| && IsBuffer(d[at]) && k < ToLookAt(d[at])
  }

  /** Only frames that are due have been looked at, in order. */
  ghost predicate ChecksDue(d: seq<LiveLink.Delivery>, checks: seq<Check>, p: (nat, nat)) {
    && (forall i :: 0 <= i < |checks| ==>
          Due(d, checks[i].at, checks[i].k) && Before(checks[i].at, checks[i].k, p.0, p.1))
    && (forall i, j :: 0 <= i < j < |checks| ==> Before(checks[i].at, checks[i].k, checks[j].at, checks[j].k))
  }

  /** All of them have. */
  ghost predicate DueChecked(d: seq<LiveLink.Delivery>, checks: seq<Check>, p: (nat, nat)) {
    forall at: nat, k: nat :: Due(d, at, k) && Before(at, k, p.0, p.1) ==> HasCheck(checks, at, k)
  }

  /** The scan does not run past the frames it is to look at. */
  predicate InRange(s: Sys) {
    ScanOk(s) &&
    match s.scan
    case NoScan => true
    case Looking(at, k) => k <= ToLookAt(s.link.net.delivered[at])
    case Passed(at, k) => k < ToLookAt(s.link.net.delivered[at])
    case Counting(at, k) => k < ToLookAt(s.link.net.delivered[at])
  }

  ghost predicate CoverInv(s: Sys) {
    && InRange(s)
    && ChecksDue(s.link.net.delivered, s.checks, Looked(s))
    && DueChecked(s.link.net.delivered, s.checks, Looked(s))
  }

  lemma DueLater(d: seq<LiveLink.Delivery>, d': seq<LiveLink.Delivery>, at: nat, k: nat)
    requires d <= d' && at < |d|
    ensures Due(d', at, k) <==> Due(d, at, k)
  {
  }

  /** More may be delivered, as long as nothing that becomes due is passed over. */
  lemma CoverLater(d: seq<LiveLink.Delivery>, d': seq<LiveLink.Delivery>, checks: seq<Check>,
                   p: (nat, nat), q: (nat, nat))
    requires ChecksDue(d, checks, p) && DueChecked(d, checks, p) && d <= d'
    requires p == q || Before(p.0, p.1, q.0, q.1)
    requires forall at: nat, k: nat :: Due(d', at, k) && Before(at, k, q.0, q.1) ==> Before(at, k, p.0, p.1) && at < |d|
    ensures ChecksDue(d', checks, q) && DueChecked(d', checks, q)
  {
    hide Due, HasCheck;
    forall i | 0 <= i < |checks| ensures Due(d', checks[i].at, checks[i].k) {
      assert Due(d, checks[i].at, checks[i].k);
      DueIsDelivered(d, checks[i].at, checks[i].k);
      DueLater(d, d', checks[i].at, checks[i].k);
    }
    forall at: nat, k: nat | Due(d', at, k) && Before(at, k, q.0, q.1) ensures HasCheck(checks, at, k) {
      DueLater(d, d', at, k);
    }
  }

  lemma DueIsDelivered(d: seq<LiveLink.Delivery>, at: nat, k: nat)
    requires Due(d, at, k)
    ensures at < |d|
  {
  }

  lemma LinkCovers(s: Sys, l: LiveLink.Label)
    requires CoverInv(s) && ScanInv(s) && Enabled(s, LinkStep(l))
    ensures CoverInv(LinkNext(s, l))
  {
    hide LiveLink.Step, LiveLink.Enabled, Justified, ToLookAt, HasCheck, ChecksDue, DueChecked;
    var t := LinkNext(s, l);
    LinkDelivers(s.link, l);
    CoverLater(s.link.net.delivered, t.link.net.delivered, s.checks, Looked(s), Looked(t));
  }

  lemma LookedAtIsDue(d: LiveLink.Delivery, k: nat)
    requires IsBuffer(d) && k <= ToLookAt(d)
    ensures (k >= |d.u.item.frames| || MetaOf(d, d.u.item.frames[k]) == []) <==> k == ToLookAt(d)
  {
    ScannedIsPrefix(d.u.item.frames);
  }

  lemma OneMoreCheck(d: seq<LiveLink.Delivery>, checks: seq<Check>, c: Check)
    requires ChecksDue(d, checks, (c.at, c.k)) && DueChecked(d, checks, (c.at, c.k)) && Due(d, c.at, c.k)
    ensures ChecksDue(d, checks + [c], (c.at, c.k + 1)) && DueChecked(d, checks + [c], (c.at, c.k + 1))
  {
    hide Due;
    forall at: nat, k: nat | Due(d, at, k) && Before(at, k, c.at, c.k + 1) ensures HasCheck(checks + [c], at, k) {
      if Before(at, k, c.at, c.k) {
        var i :| 0 <= i < |checks| && checks[i].at == at && checks[i].k == k;
        assert (checks + [c])[i] == checks[i];
      } else {
        assert (checks + [c])[|checks|] == c;
      }
    }
  }

  lemma LookCovers(s: Sys)
    requires CoverInv(s) && ScanInv(s) && s.scan.Looking?
    ensures CoverInv(LookNext(s))
  {
    hide PassesRatio, ToLookAt, HasCheck, ChecksDue, DueChecked, Justified;
    var t := LookNext(s);
    var d := s.link.net.delivered[s.scan.at];
    LookedAtIsDue(d, s.scan.k);
    if t.scan.NoScan? {
      CoverLater(s.link.net.delivered, t.link.net.delivered, s.checks, Looked(s), Looked(t));
    } else {
      OneMoreCheck(s.link.net.delivered, s.checks, Check(s.scan.at, s.scan.k, s.gate.open));
    }
  }

  lemma StepCovers(s: Sys, l: Label)
    requires CoverInv(s) && ScanInv(s) && Enabled(s, l)
    ensures CoverInv(Step(s, l))
  {
    hide LinkNext, LookNext, ChecksDue, DueChecked, ToLookAt, Justified;
    match l
    case LinkStep(x) => LinkCovers(s, x);
    case LookAtFrame => LookCovers(s);
    case GateStep(_) =>
    case PushFrame =>
    case CountFrame =>
    case SaveStep(_) =>
  }

  lemma InvGivesScan(s: Sys)
    requires SysInv(s)
    ensures ScanInv(s)
  {
  }

  lemma {:induction false} RunCovers(s: Sys, ls: seq<Label>)
    requires CoverInv(s) && SysInv(s)
    ensures CoverInv(Run(s, ls))
    decreases |ls|
  {
    hide SysInv, CoverInv, Step, Enabled;
    if ls == [] {
    } else {
      if Enabled(s, ls[0]) {
        InvGivesScan(s);
        StepCovers(s, ls[0]);
        StepKeeps(s, ls[0]);
      }
      RunCovers(Exec(s, ls[0]), ls[1..]);
    }
  }

  lemma ReachableCovers(s: Sys)
    requires Reachable(s)
    ensures CoverInv(s) && SysInv(s)
  {
    hide SysInv, Run;
    var configured, lag, ls :| s == Run(Start(configured, lag), ls);
    StartKeeps(configured, lag);
    RunCovers(Start(configured, lag), ls);
    RunKeeps(Start(configured, lag), ls);
  }

  /** Of a delivered buffer the scan has finished with, exactly the frames in front of the first one
      without metadata have been looked at; none if the buffer did not cross the filter. */
  lemma ScanLooksAtExactly(s: Sys, at: nat, k: nat)
    requires Reachable(s) && at < |s.link.net.delivered| && IsBuffer(s.link.net.delivered[at])
    requires s.scan.NoScan? || s.scan.at != at
    ensures HasCheck(s.checks, at, k) <==> k < ToLookAt(s.link.net.delivered[at])
  {
    hide SysInv, HasCheck;
    ReachableCovers(s);
    InvGivesScan(s);
    CoverAt(s, at, k);
  }

  lemma CoverAt(s: Sys, at: nat, k: nat)
    requires CoverInv(s) && ScanInv(s) && at < |s.link.net.delivered| && IsBuffer(s.link.net.delivered[at])
    requires s.scan.NoScan? || s.scan.at != at
    ensures HasCheck(s.checks, at, k) <==> k < ToLookAt(s.link.net.delivered[at])
  {
    hide ToLookAt, Justified;
    assert Before(at, k, Looked(s).0, Looked(s).1);
    assert Due(s.link.net.delivered, at, k) <==> k < ToLookAt(s.link.net.delivered[at]);
  }

  /** No frame is looked at twice, and looks follow the stream. */
  lemma LooksFollowTheStream(s: Sys, i: nat, j: nat)
    requires Reachable(s) && i < j < |s.checks|
    ensures Before(s.checks[i].at, s.checks[i].k, s.checks[j].at, s.checks[j].k)
  {
    hide SysInv;
    ReachableCovers(s);
  }

  ghost predicate Uploaded(s: Sys, at: nat, k: nat) {
    exists i :: 0 <= i < |s.worker.processed| && s.worker.processed[i].at == at && s.worker.processed[i].k == k
  }

  /** The frame was pushed after the worker's last look at the queue. */
  ghost predicate Late(s: Sys, at: nat, k: nat) {
    exists i :: 0 <= i < |s.worker.sinceEmpty| && s.worker.sinceEmpty[i].at == at && s.worker.sinceEmpty[i].k == k
  }

  /** The frame was looked at, with the gate open, and its counts pass. */
  predicate Chosen(s: Sys, at: nat, k: nat) {
    && Due(s.link.net.delivered, at, k) && Check(at, k, true) in s.checks
    && Selects(s.link.net.delivered, Check(at, k, true))
  }

  lemma PushedWasChosen(s: Sys, i: nat)
    requires SysInv(s) && CoverInv(s) && i < |s.worker.pushed|
    ensures Chosen(s, s.worker.pushed[i].at, s.worker.pushed[i].k)
  {
    hide LiveLinkInvariant.Inv, SaveWorker.Inv, SaveGate.Inv, ScanInv, ChecksInv, Ordered, AllBefore;
    hide InRange, DueChecked, PassesRatio, ToLookAt;
    var t := s.worker.pushed[i];
    assert Justified(s.link.net.delivered, s.checks, t);
    var c :| 0 <= c < |s.checks| && s.checks[c] == Check(t.at, t.k, true);
    assert Due(s.link.net.delivered, s.checks[c].at, s.checks[c].k);
  }

  lemma PushedOnce(s: Sys, i: nat, j: nat)
    requires SysInv(s) && i < j < |s.worker.pushed|
    ensures s.worker.pushed[i].at != s.worker.pushed[j].at || s.worker.pushed[i].k != s.worker.pushed[j].k
  {
    hide LiveLinkInvariant.Inv, SaveWorker.Inv, SaveGate.Inv, ScanInv, ChecksInv, AllJustified, AllBefore;
    assert Before(s.worker.pushed[i].at, s.worker.pushed[i].k, s.worker.pushed[j].at, s.worker.pushed[j].k);
  }

  lemma AtExit(s: Sys)
    requires SysInv(s) && s.worker.wpc.WDone?
    ensures s.worker.pushed == s.worker.processed + s.worker.sinceEmpty
  {
    hide LiveLinkInvariant.Inv, SaveGate.Inv, ScanInv, ChecksInv, TicketsInv, SaveWorker.Inv;
    ExitSaved(s.worker);
  }

  /** The whole system, from the delivered stream to the uploader: when the worker has exited and no scan is
      going on, the frames chosen are exactly those uploaded and those that came late, never both; so with
      nothing late the frames uploaded are exactly the frames chosen. */
  lemma UploadedExactlyTheChosen(s: Sys, at: nat, k: nat)
    requires Reachable(s) && s.worker.wpc.WDone? && s.scan.NoScan?
    ensures Chosen(s, at, k) <==> Uploaded(s, at, k) || Late(s, at, k)
    ensures !(Uploaded(s, at, k) && Late(s, at, k))
    ensures s.worker.sinceEmpty == [] ==> (Uploaded(s, at, k) <==> Chosen(s, at, k))
  {
    hide SysInv, CoverInv, Reachable, Chosen;
    ReachableCovers(s);
    AtExit(s);
    var n := |s.worker.processed|;
    assert forall i :: 0 <= i < n ==> s.worker.pushed[i] == s.worker.processed[i];
    assert forall i :: 0 <= i < |s.worker.sinceEmpty| ==> s.worker.pushed[n + i] == s.worker.sinceEmpty[i];
    if Uploaded(s, at, k) {
      var i :| 0 <= i < n && s.worker.processed[i].at == at && s.worker.processed[i].k == k;
      PushedWasChosen(s, i);
      if Late(s, at, k) {
        var j :| 0 <= j < |s.worker.sinceEmpty| && s.worker.sinceEmpty[j].at == at && s.worker.sinceEmpty[j].k == k;
        PushedOnce(s, i, n + j);
      }
    }
    if Late(s, at, k) {
      var j :| 0 <= j < |s.worker.sinceEmpty| && s.worker.sinceEmpty[j].at == at && s.worker.sinceEmpty[j].k == k;
      PushedWasChosen(s, n + j);
    }
    if Chosen(s, at, k) { ChosenIsPushed(s, at, k); }
  }

  lemma ChosenIsPushed(s: Sys, at: nat, k: nat)
    requires Reachable(s) && s.worker.wpc.WDone? && s.scan.NoScan? && Chosen(s, at, k)
    ensures Uploaded(s, at, k) || Late(s, at, k)
  {
    hide Reachable, Due, Selects;
    WantedFramesAreUploaded(s, Check(at, k, true));
    var t := TicketOf(s.link.net.delivered, Check(at, k, true));
    assert t.at == at && t.k == k;
  }
}
