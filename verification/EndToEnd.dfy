/** The four threads together: commands and timers, the streaming thread, the scan of delivered
    batches, and the worker that hands frames to the uploader. */
module EndToEnd {
  import opened FrameSelection
  import LiveLink
  import opened LiveLinkInvariant
  import LiveLinkSteps
  import LiveLinkTheorems
  import SaveGate
  import SaveWorker

  /** A queued frame: number `k` of the batch that was delivered as number `at`. */
  datatype Ticket = Ticket(at: nat, k: nat, frame: Frame)

  /** The buffer probe behind the filter, between two statements of its scan. */
  datatype Scan =
    | NoScan
    | Looking(at: nat, k: nat)   // about to look at frame k
    | Passed(at: nat, k: nat)    // about to push it
    | Counting(at: nat, k: nat)  // about to count it

  /** One reading of the save gate by the scan. */
  datatype Check = Check(at: nat, k: nat, open: bool)

  datatype Sys = Sys(link: LiveLink.State, gate: SaveGate.Gate, scan: Scan,
                     worker: SaveWorker.State<Ticket>, checks: seq<Check>)

  datatype Label =
    | LinkStep(l: LiveLink.Label)
    | GateStep(g: SaveGate.Label)
    | LookAtFrame | PushFrame | CountFrame
    | SaveStep(w: SaveWorker.Label<Ticket>)

  /** Steps that may hand something to the next element; its pad takes one item at a time. */
  predicate UsesNextPad(l: LiveLink.Label) {
    l.DoPush? || l.DoLeave?
  }

  /** Only the filter attaches user metadata, so a frame that did not cross it has none. */
  function MetaOf(d: LiveLink.Delivery, f: Frame): seq<UserMeta> {
    if d.via.Some? then f.userMeta else []
  }

  predicate IsBuffer(d: LiveLink.Delivery) {
    d.u.Stream? && d.u.item.Buffer?
  }

  predicate ScanOk(s: Sys) {
    !s.scan.NoScan? ==> s.scan.at < |s.link.net.delivered| && IsBuffer(s.link.net.delivered[s.scan.at])
  }

  predicate Enabled(s: Sys, l: Label) {
    match l
    case LinkStep(x) => LiveLink.Enabled(s.link, x) && (UsesNextPad(x) ==> s.scan.NoScan?)
    case GateStep(x) => SaveGate.Enabled(s.gate, x) && (x.FireTimer? || x.Tick? || s.link.cmd.CmdIdle?)
    case LookAtFrame => s.scan.Looking? && ScanOk(s)
    case PushFrame =>
      s.scan.Passed? && ScanOk(s) && s.scan.k < |s.link.net.delivered[s.scan.at].u.item.frames| && !s.worker.counting
    case CountFrame => s.scan.Counting? && s.worker.counting
    case SaveStep(x) => !x.Push? && !x.CountPush? && SaveWorker.Enabled(s.worker, x)
  }

  /** Both handlers close the gate before they schedule the graph change. */
  predicate ClosesGate(s: LiveLink.State, l: LiveLink.Label) {
    l.DoAdvance? && (s.cmd.EnBuilt? || s.cmd.DisFlagged?)
  }

  function LinkNext(s: Sys, l: LiveLink.Label): Sys
    requires LiveLink.Enabled(s.link, l)
  {
    var link := LiveLink.Step(s.link, l);
    var before, after := s.link.net.delivered, link.net.delivered;
    Sys(link,
        if ClosesGate(s.link, l) then SaveGate.Step(s.gate, SaveGate.SetClosed) else s.gate,
        if |after| > |before| && IsBuffer(after[|before|]) then Looking(|before|, 0) else s.scan,
        s.worker, s.checks)
  }

  function LookNext(s: Sys): Sys
    requires s.scan.Looking? && ScanOk(s)
  {
    var d := s.link.net.delivered[s.scan.at];
    var batch, at, k := d.u.item.frames, s.scan.at, s.scan.k;
    if k >= |batch| || MetaOf(d, batch[k]) == [] then s.(scan := NoScan)
    else
      var meta := MetaOf(d, batch[k]);
      s.(checks := s.checks + [Check(at, k, s.gate.open)],
         scan := if s.gate.open && PassesRatio(meta[|meta| - 1]) then Passed(at, k) else Looking(at, k + 1))
  }

  function Step(s: Sys, l: Label): Sys
    requires Enabled(s, l)
  {
    match l
    case LinkStep(x) => LinkNext(s, x)
    case GateStep(x) => s.(gate := SaveGate.Step(s.gate, x))
    case LookAtFrame => LookNext(s)
    case PushFrame =>
      var frame := s.link.net.delivered[s.scan.at].u.item.frames[s.scan.k];
      s.(worker := SaveWorker.Step(s.worker, SaveWorker.Push(Ticket(s.scan.at, s.scan.k, frame))),
         scan := Counting(s.scan.at, s.scan.k))
    case CountFrame =>
      s.(worker := SaveWorker.Step(s.worker, SaveWorker.CountPush), scan := Looking(s.scan.at, s.scan.k + 1))
    case SaveStep(x) => s.(worker := SaveWorker.Step(s.worker, x))
  }

  function Exec(s: Sys, l: Label): Sys {
    if Enabled(s, l) then Step(s, l) else s
  }

  function Run(s: Sys, ls: seq<Label>): Sys
    decreases |ls|
  {
    if ls == [] then s else Run(Exec(s, ls[0]), ls[1..])
  }

  function Start(configured: bool, lag: nat): Sys {
    Sys(LiveLink.Init(configured), SaveGate.Closed(lag), NoScan, SaveWorker.Start(), [])
  }

  // ---------------------------------------------------------------------------
  // Why a frame is in the queue
  // ---------------------------------------------------------------------------

  /** The frame crossed the filter, carries counts that pass, and was checked while the gate was open. */
  ghost predicate Justified(delivered: seq<LiveLink.Delivery>, checks: seq<Check>, t: Ticket) {
    && t.at < |delivered| && IsBuffer(delivered[t.at]) && delivered[t.at].via.Some?
    && t.k < |delivered[t.at].u.item.frames| && delivered[t.at].u.item.frames[t.k] == t.frame
    && t.frame.userMeta != [] && PassesRatio(t.frame.userMeta[|t.frame.userMeta| - 1])
    && Check(t.at, t.k, true) in checks
  }

  predicate Before(at: nat, k: nat, at': nat, k': nat) {
    at < at' || (at == at' && k < k')
  }

  /** Where the scan has got to: every frame before this point has been dealt with. */
  function Reached(s: Sys): (nat, nat) {
    match s.scan
    case NoScan => (|s.link.net.delivered|, 0)
    case Looking(at, k) => (at, k)
    case Passed(at, k) => (at, k)
    case Counting(at, k) => (at, k + 1)
  }

  ghost predicate Ordered(ts: seq<Ticket>) {
    forall i, j :: 0 <= i < j < |ts| ==> Before(ts[i].at, ts[i].k, ts[j].at, ts[j].k)
  }

  ghost predicate AllBefore(ts: seq<Ticket>, p: (nat, nat)) {
    forall i :: 0 <= i < |ts| ==> Before(ts[i].at, ts[i].k, p.0, p.1)
  }

  ghost predicate AllJustified(s: Sys) {
    forall i :: 0 <= i < |s.worker.pushed| ==> Justified(s.link.net.delivered, s.checks, s.worker.pushed[i])
  }

  ghost predicate ScanInv(s: Sys) {
    && ScanOk(s)
    && (!s.scan.NoScan? ==> s.scan.at + 1 == |s.link.net.delivered|)
    && (s.worker.counting <==> s.scan.Counting?)
    && (s.scan.Passed? ==>
          s.scan.k < |s.link.net.delivered[s.scan.at].u.item.frames|
          && Justified(s.link.net.delivered, s.checks,
                       Ticket(s.scan.at, s.scan.k, s.link.net.delivered[s.scan.at].u.item.frames[s.scan.k])))
  }

  ghost predicate TicketsInv(s: Sys) {
    && AllJustified(s)
    && Ordered(s.worker.pushed) && AllBefore(s.worker.pushed, Reached(s))
  }

  /** A reading of the open gate for a frame whose counts pass. */
  predicate Selects(delivered: seq<LiveLink.Delivery>, c: Check) {
    && c.open && c.at < |delivered| && IsBuffer(delivered[c.at]) && c.k < |delivered[c.at].u.item.frames|
    && var meta := delivered[c.at].u.item.frames[c.k].userMeta;
       meta != [] && PassesRatio(meta[|meta| - 1])
  }

  function TicketOf(delivered: seq<LiveLink.Delivery>, c: Check): Ticket
    requires Selects(delivered, c)
  {
    Ticket(c.at, c.k, delivered[c.at].u.item.frames[c.k])
  }

  /** Every frame the scan selected is in the queue's history, but for the one about to be pushed. */
  ghost predicate ChecksInv(s: Sys) {
    forall i :: 0 <= i < |s.checks| ==>
      && s.checks[i].at < |s.link.net.delivered|
      && (Selects(s.link.net.delivered, s.checks[i]) ==>
            || TicketOf(s.link.net.delivered, s.checks[i]) in s.worker.pushed
            || s.scan == Passed(s.checks[i].at, s.checks[i].k))
  }

  /** Between closing the gate and the end of its handler, a switch of the filter keeps it closed. */
  predicate ShutDuringSwitch(s: Sys) {
    s.link.cmd.CmdIdle? || s.link.cmd.EnBuilt? || s.link.cmd.DisFlagged? || !s.gate.open
  }

  ghost predicate SysInv(s: Sys) {
    && Inv(s.link) && SaveGate.Inv(s.gate) && SaveWorker.Inv(s.worker)
    && ScanInv(s) && TicketsInv(s) && ChecksInv(s) && ShutDuringSwitch(s)
  }

  // ---------------------------------------------------------------------------
  // Each kind of step
  // ---------------------------------------------------------------------------

  /** Deliveries are only ever added, one at a time, by the steps that use the next element's pad. */
  ghost predicate DeliveryGrows(n: LiveLink.Net, m: LiveLink.Net) {
    && |n.delivered| <= |m.delivered| <= |n.delivered| + 1
    && n.delivered <= m.delivered
  }

  lemma RemoveDelivers(n: LiveLink.Net, owner: nat, copy: nat)
    requires owner in n.bins && n.bins[owner].srcProbes != []
    ensures LiveLink.RemoveElemProbeCb(n, owner, copy).delivered == n.delivered
  {
  }

  lemma LeaveDelivers(n: LiveLink.Net, bin: nat)
    requires bin in n.bins && n.bins[bin].held != []
    ensures DeliveryGrows(n, LiveLink.LeaveMain(n, bin))
  {
    hide LiveLink.RemoveElemProbeCb;
    if n.bins[bin].srcProbes != [] {
      RemoveDelivers(n.(bins := n.bins[bin := n.bins[bin].(held := n.bins[bin].held[1..])]),
        bin, n.bins[bin].srcProbes[0]);
    }
  }

  lemma PushDelivers(n: LiveLink.Net)
    requires n.cursor.Cleared?
    ensures DeliveryGrows(n, LiveLink.PushDown(n))
  {
  }

  lemma AdvanceDelivers(s: LiveLink.State)
    ensures LiveLink.Advance(s).net.delivered == s.net.delivered
  {
    if s.cmd.EnCopied? {
      assert LiveLink.Advance(s).net == LiveLink.Install(s.net, LiveLink.AddCb, s.cmd.copy);
    } else if s.cmd.DisCopied? {
      assert LiveLink.Advance(s).net == LiveLink.Install(s.net, LiveLink.PadCb, s.cmd.copy);
    } else if s.cmd.EnGateClosed? || s.cmd.DisGateClosed? {
      assert LiveLink.Advance(s).net == LiveLink.MakeCopy(s.net, s.info);
    } else {
      assert LiveLink.Advance(s).net == s.net;
    }
  }

  lemma LinkDelivers(s: LiveLink.State, l: LiveLink.Label)
    requires LiveLink.Enabled(s, l)
    ensures DeliveryGrows(s.net, LiveLink.Step(s, l).net)
    ensures !UsesNextPad(l) ==> LiveLink.Step(s, l).net.delivered == s.net.delivered
  {
    hide LiveLink.LeaveMain, LiveLink.PushDown, LiveLink.FireProbe, LiveLink.Advance;
    match l
    case DoLeave(b) => LeaveDelivers(s.net, b);
    case DoPush => PushDelivers(s.net);
    case DoFire => LiveLinkSteps.FireLeavesHistory(s.net);
    case DoAdvance => AdvanceDelivers(s);
    case _ =>
  }

  /** Justifications survive later deliveries and checks. */
  lemma JustifiedLater(d: seq<LiveLink.Delivery>, c: seq<Check>, d': seq<LiveLink.Delivery>, c': seq<Check>, t: Ticket)
    requires Justified(d, c, t) && d <= d' && c <= c'
    ensures Justified(d', c', t)
  {
  }

  lemma AllJustifiedLater(s: Sys, t: Sys)
    requires AllJustified(s) && s.link.net.delivered <= t.link.net.delivered && s.checks <= t.checks
    requires t.worker.pushed == s.worker.pushed
    ensures AllJustified(t)
  {
    hide Justified;
    forall i | 0 <= i < |t.worker.pushed| ensures Justified(t.link.net.delivered, t.checks, t.worker.pushed[i]) {
      JustifiedLater(s.link.net.delivered, s.checks, t.link.net.delivered, t.checks, s.worker.pushed[i]);
    }
  }

  lemma AllBeforeLater(ts: seq<Ticket>, p: (nat, nat), q: (nat, nat))
    requires AllBefore(ts, p) && (p == q || Before(p.0, p.1, q.0, q.1))
    ensures AllBefore(ts, q)
  {
  }

  lemma LinkScan(s: Sys, l: LiveLink.Label)
    requires ScanInv(s) && Enabled(s, LinkStep(l))
    requires DeliveryGrows(s.link.net, LinkNext(s, l).link.net)
    requires !UsesNextPad(l) ==> LinkNext(s, l).link.net.delivered == s.link.net.delivered
    ensures ScanInv(LinkNext(s, l))
    ensures Reached(LinkNext(s, l)) == Reached(s)
      || Before(Reached(s).0, Reached(s).1, Reached(LinkNext(s, l)).0, Reached(LinkNext(s, l)).1)
  {
    hide LiveLink.Step, LiveLink.Enabled, PassesRatio;
  }

  lemma SelectsStable(d: seq<LiveLink.Delivery>, d': seq<LiveLink.Delivery>, c: Check)
    requires d <= d' && c.at < |d|
    ensures Selects(d', c) <==> Selects(d, c)
    ensures Selects(d, c) ==> TicketOf(d', c) == TicketOf(d, c)
  {
    hide PassesRatio;
  }

  /** Anything that keeps the checks, the pushes and the frame about to be pushed. */
  lemma ChecksLater(s: Sys, t: Sys)
    requires ChecksInv(s) && s.link.net.delivered <= t.link.net.delivered && t.checks == s.checks
    requires s.worker.pushed <= t.worker.pushed && (s.scan.Passed? ==> t.scan == s.scan)
    ensures ChecksInv(t)
  {
    hide Selects;
    forall i | 0 <= i < |t.checks|
      ensures t.checks[i].at < |t.link.net.delivered|
      ensures Selects(t.link.net.delivered, t.checks[i]) ==>
                || TicketOf(t.link.net.delivered, t.checks[i]) in t.worker.pushed
                || t.scan == Passed(t.checks[i].at, t.checks[i].k)
    {
      SelectsStable(s.link.net.delivered, t.link.net.delivered, s.checks[i]);
    }
  }

  lemma LinkChecks(s: Sys, l: LiveLink.Label)
    requires ChecksInv(s) && ScanInv(s) && Enabled(s, LinkStep(l))
    requires s.link.net.delivered <= LinkNext(s, l).link.net.delivered
    requires !UsesNextPad(l) ==> LinkNext(s, l).link.net.delivered == s.link.net.delivered
    ensures ChecksInv(LinkNext(s, l))
  {
    hide LiveLink.Step, LiveLink.Enabled, Justified, Selects;
    ChecksLater(s, LinkNext(s, l));
  }

  lemma LookChecks(s: Sys)
    requires ChecksInv(s) && s.scan.Looking? && ScanOk(s)
    ensures ChecksInv(LookNext(s))
  {
    hide PassesRatio;
    var t := LookNext(s);
    forall i | 0 <= i < |t.checks|
      ensures t.checks[i].at < |t.link.net.delivered|
      ensures Selects(t.link.net.delivered, t.checks[i]) ==>
                || TicketOf(t.link.net.delivered, t.checks[i]) in t.worker.pushed
                || t.scan == Passed(t.checks[i].at, t.checks[i].k)
    {
      if i < |s.checks| {
        assert t.checks[i] == s.checks[i];
      }
    }
  }

  lemma PushChecks(s: Sys)
    requires ChecksInv(s) && Enabled(s, PushFrame)
    ensures ChecksInv(Step(s, PushFrame))
  {
    hide PassesRatio;
    var t := Step(s, PushFrame);
    var ticket := Ticket(s.scan.at, s.scan.k, s.link.net.delivered[s.scan.at].u.item.frames[s.scan.k]);
    assert t.worker.pushed == s.worker.pushed + [ticket];
    assert ticket in t.worker.pushed;
  }

  lemma LinkShuts(s: Sys, l: LiveLink.Label)
    requires ShutDuringSwitch(s) && LiveLink.Enabled(s.link, l)
    ensures ShutDuringSwitch(LinkNext(s, l))
  {
    hide LiveLink.FireProbe, LiveLink.PushDown, LiveLink.LeaveMain, LiveLink.MakeCopy, LiveLink.Install, IsBuffer;
  }

  lemma LinkKeeps(s: Sys, l: LiveLink.Label)
    requires SysInv(s) && Enabled(s, LinkStep(l))
    ensures SysInv(LinkNext(s, l))
  {
    hide Inv, SaveWorker.Inv, SaveGate.Inv, ScanInv, ChecksInv, AllJustified, AllBefore,
      LiveLink.Step, LiveLink.Enabled, DeliveryGrows, ShutDuringSwitch;
    var t := LinkNext(s, l);
    LinkDelivers(s.link, l);
    GrowthIsPrefix(s.link.net, t.link.net);
    LinkScan(s, l);
    LinkShuts(s, l);
    LinkChecks(s, l);
    LiveLinkSteps.StepKeeps(s.link, l);
    SaveGate.StepKeeps(s.gate, SaveGate.SetClosed);
    AllJustifiedLater(s, t);
    AllBeforeLater(s.worker.pushed, Reached(s), Reached(t));
  }

  lemma GrowthIsPrefix(n: LiveLink.Net, m: LiveLink.Net)
    requires DeliveryGrows(n, m)
    ensures n.delivered <= m.delivered
  {
  }

  lemma GateStaysShut(g: SaveGate.Gate, l: SaveGate.Label)
    requires SaveGate.Enabled(g, l) && !l.SetOpen?
    ensures SaveGate.Step(g, l).open ==> g.open
  {
  }

  lemma GateKeeps(s: Sys, l: SaveGate.Label)
    requires SysInv(s) && Enabled(s, GateStep(l))
    ensures SysInv(s.(gate := SaveGate.Step(s.gate, l)))
  {
    hide Inv, SaveWorker.Inv, SaveGate.Inv, SaveGate.Step, SaveGate.Enabled, Justified, Ordered, AllBefore, ChecksInv;
    SaveGate.StepKeeps(s.gate, l);
    if !l.SetOpen? { GateStaysShut(s.gate, l); }
    ChecksLater(s, s.(gate := SaveGate.Step(s.gate, l)));
  }

  lemma LookScan(s: Sys)
    requires ScanInv(s) && s.scan.Looking?
    ensures ScanInv(LookNext(s))
    ensures Reached(LookNext(s)) == Reached(s)
      || Before(Reached(s).0, Reached(s).1, Reached(LookNext(s)).0, Reached(LookNext(s)).1)
    ensures s.checks <= LookNext(s).checks
  {
    hide PassesRatio;
    var d := s.link.net.delivered[s.scan.at];
    if LookNext(s).scan.Passed? {
      assert LookNext(s).checks[|s.checks|] == Check(s.scan.at, s.scan.k, true);
      assert d.via.Some?;
    }
  }

  lemma LookKeeps(s: Sys)
    requires SysInv(s) && Enabled(s, LookAtFrame)
    ensures SysInv(LookNext(s))
  {
    hide Inv, SaveWorker.Inv, SaveGate.Inv, ScanInv, ChecksInv, AllJustified, AllBefore, PassesRatio;
    var t := LookNext(s);
    LookScan(s);
    LookChecks(s);
    AllJustifiedLater(s, t);
    AllBeforeLater(s.worker.pushed, Reached(s), Reached(t));
  }

  lemma OneMoreTicket(ts: seq<Ticket>, t: Ticket)
    requires Ordered(ts) && AllBefore(ts, (t.at, t.k))
    ensures Ordered(ts + [t]) && AllBefore(ts + [t], (t.at, t.k + 1))
  {
  }

  lemma PushTickets(s: Sys)
    requires ScanInv(s) && TicketsInv(s) && Enabled(s, PushFrame)
    ensures ScanInv(Step(s, PushFrame)) && TicketsInv(Step(s, PushFrame))
  {
    hide Justified, Ordered, AllBefore;
    var ticket := Ticket(s.scan.at, s.scan.k, s.link.net.delivered[s.scan.at].u.item.frames[s.scan.k]);
    var t := Step(s, PushFrame);
    assert t.worker.pushed == s.worker.pushed + [ticket];
    OneMoreTicket(s.worker.pushed, ticket);
  }

  lemma PushKeeps(s: Sys)
    requires SysInv(s) && Enabled(s, PushFrame)
    ensures SysInv(Step(s, PushFrame))
  {
    hide Inv, SaveWorker.Inv, SaveGate.Inv, ScanInv, TicketsInv, ChecksInv, SaveWorker.Step;
    PushTickets(s);
    PushChecks(s);
    var ticket := Ticket(s.scan.at, s.scan.k, s.link.net.delivered[s.scan.at].u.item.frames[s.scan.k]);
    SaveWorker.StepKeeps(s.worker, SaveWorker.Push(ticket));
  }

  /** The worker, the stopper and the counting leave the history of pushes alone. */
  lemma SaveLeavesPushes(w: SaveWorker.State<Ticket>, l: SaveWorker.Label<Ticket>)
    requires SaveWorker.Enabled(w, l) && !l.Push?
    ensures SaveWorker.Step(w, l).pushed == w.pushed
    ensures !l.CountPush? ==> SaveWorker.Step(w, l).counting == w.counting
  {
    hide SaveWorker.StopperNext, SaveWorker.OuterNext;
    if l.StopperStep? {
      SaveWorker.StopperFrame(w);
    } else if l.WorkerStep? && !SaveWorker.InInnerLoop(w.wpc) {
      SaveWorker.OuterMovesNothing(w);
    }
  }

  lemma SameTickets(s: Sys, t: Sys)
    requires TicketsInv(s) && t.link == s.link && t.checks == s.checks && t.worker.pushed == s.worker.pushed
    requires Reached(t) == Reached(s)
    ensures TicketsInv(t)
  {
    hide Justified, Ordered, AllBefore;
  }

  lemma SaveKeeps(s: Sys, l: SaveWorker.Label<Ticket>)
    requires SysInv(s) && Enabled(s, SaveStep(l))
    ensures SysInv(Step(s, SaveStep(l)))
  {
    hide Inv, SaveWorker.Inv, SaveGate.Inv, TicketsInv, ChecksInv, SaveWorker.Step, SaveWorker.Enabled, Justified;
    SaveLeavesPushes(s.worker, l);
    SaveWorker.StepKeeps(s.worker, l);
    SameTickets(s, Step(s, SaveStep(l)));
    ChecksLater(s, Step(s, SaveStep(l)));
  }

  lemma CountKeeps(s: Sys)
    requires SysInv(s) && Enabled(s, CountFrame)
    ensures SysInv(Step(s, CountFrame))
  {
    hide Inv, SaveWorker.Inv, SaveGate.Inv, TicketsInv, ChecksInv, Justified;
    SaveLeavesPushes(s.worker, SaveWorker.CountPush);
    SaveWorker.StepKeeps(s.worker, SaveWorker.CountPush);
    SameTickets(s, Step(s, CountFrame));
    ChecksLater(s, Step(s, CountFrame));
  }

  lemma StepKeeps(s: Sys, l: Label)
    requires SysInv(s) && Enabled(s, l)
    ensures SysInv(Step(s, l))
  {
    hide SysInv;
    match l
    case LinkStep(x) => LinkKeeps(s, x);
    case GateStep(x) => GateKeeps(s, x);
    case LookAtFrame => LookKeeps(s);
    case PushFrame => PushKeeps(s);
    case CountFrame => CountKeeps(s);
    case SaveStep(x) => SaveKeeps(s, x);
  }

  lemma {:induction false} RunKeeps(s: Sys, ls: seq<Label>)
    requires SysInv(s)
    ensures SysInv(Run(s, ls))
    decreases |ls|
  {
    hide SysInv, Step, Enabled;
    if ls == [] {
    } else {
      if Enabled(s, ls[0]) { StepKeeps(s, ls[0]); }
      RunKeeps(Exec(s, ls[0]), ls[1..]);
    }
  }

  lemma StartKeeps(configured: bool, lag: nat)
    ensures SysInv(Start(configured, lag))
  {
    hide Inv;
    LiveLinkSteps.InitKeeps(configured);
    assert SaveGate.Ids([]) == [];
  }

  ghost predicate Reachable(s: Sys) {
    exists configured: bool, lag: nat, ls: seq<Label> :: s == Run(Start(configured, lag), ls)
  }

  lemma ReachableInv(s: Sys)
    requires Reachable(s)
    ensures SysInv(s)
  {
    hide SysInv, Run;
    var configured, lag, ls :| s == Run(Start(configured, lag), ls);
    StartKeeps(configured, lag);
    RunKeeps(Start(configured, lag), ls);
  }

  // ---------------------------------------------------------------------------
  // Safety from the camera to the uploader
  // ---------------------------------------------------------------------------

  lemma UploadedWasPushed(s: Sys, i: nat)
    requires SaveWorker.Inv(s.worker) && i < |s.worker.processed|
    ensures i < |s.worker.pushed| && s.worker.processed[i] == s.worker.pushed[i]
  {
    assert s.worker.pushed[..|s.worker.processed|] == s.worker.processed;
  }

  lemma DeliveredCrossed(link: LiveLink.State, at: nat)
    requires Inv(link) && at < |link.net.delivered|
    ensures Tracked(link.net, link.net.delivered[at])
  {
    assert Flow(link.net)[at] == link.net.delivered[at];
  }

  /** Every frame handed to the uploader belongs to an offered buffer that crossed a filter bin which a
      prefix of the accepted requests had put into the chain, passes the ratio test, and was checked
      while the gate was open. */
  lemma UploadedFramesAreJustified(s: Sys, i: nat)
    requires Reachable(s) && i < |s.worker.processed|
    ensures Justified(s.link.net.delivered, s.checks, s.worker.processed[i])
    ensures Tracked(s.link.net, s.link.net.delivered[s.worker.processed[i].at])
  {
    hide Inv, SaveWorker.Inv, SaveGate.Inv, ScanInv, Justified, Tracked;
    ReachableInv(s);
    UploadedWasPushed(s, i);
    JustifiedExists(s, s.worker.processed[i]);
    DeliveredCrossed(s.link, s.worker.processed[i].at);
  }

  lemma JustifiedExists(s: Sys, t: Ticket)
    requires Justified(s.link.net.delivered, s.checks, t)
    ensures t.at < |s.link.net.delivered|
  {
  }

  /** Frames are handed over in stream order, each at most once. */
  lemma UploadedInStreamOrder(s: Sys, i: nat, j: nat)
    requires Reachable(s) && i < j < |s.worker.processed|
    ensures var a, b := s.worker.processed[i], s.worker.processed[j];
            && a.at < |s.link.net.delivered| && b.at < |s.link.net.delivered|
            && IsBuffer(s.link.net.delivered[a.at]) && IsBuffer(s.link.net.delivered[b.at])
            && Before(s.link.net.delivered[a.at].u.pos, a.k, s.link.net.delivered[b.at].u.pos, b.k)
  {
    hide Inv, SaveWorker.Inv, SaveGate.Inv, ScanInv, PassesRatio;
    ReachableInv(s);
    UploadedWasPushed(s, i);
    UploadedWasPushed(s, j);
    var a, b := s.worker.processed[i], s.worker.processed[j];
    assert Justified(s.link.net.delivered, s.checks, s.worker.pushed[i]);
    assert Justified(s.link.net.delivered, s.checks, s.worker.pushed[j]);
    assert Before(a.at, a.k, b.at, b.k);
    LiveLinkTheorems.InvGivesCursor(s.link);
    if a.at < b.at { LiveLinkTheorems.FlowInOrder(s.link.net, a.at, b.at); }
  }

  /** Nothing wanted is missed: when the worker has exited, every frame that was checked while the gate was
      open and passes the test has been handed over, unless it was pushed after the worker's last look at the
      queue, or the scan is just about to push it. */
  lemma WantedFramesAreUploaded(s: Sys, c: Check)
    requires Reachable(s) && s.worker.wpc.WDone?
    requires c in s.checks && Selects(s.link.net.delivered, c) && s.scan != Passed(c.at, c.k)
    ensures var t := TicketOf(s.link.net.delivered, c); t in s.worker.processed || t in s.worker.sinceEmpty
  {
    hide Inv, SaveGate.Inv, ScanInv, TicketsInv, Selects;
    ReachableInv(s);
    ExitSaved(s.worker);
  }

  lemma ExitSaved(w: SaveWorker.State<Ticket>)
    requires SaveWorker.Inv(w) && w.wpc.WDone?
    ensures w.pushed == w.processed + w.sinceEmpty
  {
  }

  /** From the moment a switch closes the gate until its handler returns, no frame passes the scan. */
  lemma NothingPassesDuringSwitch(s: Sys)
    requires Reachable(s) && Enabled(s, LookAtFrame)
    requires !s.link.cmd.CmdIdle? && !s.link.cmd.EnBuilt? && !s.link.cmd.DisFlagged?
    ensures !Step(s, LookAtFrame).scan.Passed?
  {
    hide Inv, SaveWorker.Inv, SaveGate.Inv, ScanInv, TicketsInv, ChecksInv;
    ReachableInv(s);
  }

  // ---------------------------------------------------------------------------
  // Back from an uploaded frame to the moment it was looked at
  // ---------------------------------------------------------------------------

  lemma {:induction false} RunAppend(s: Sys, a: seq<Label>, b: seq<Label>)
    ensures Run(s, a + b) == Run(Run(s, a), b)
    decreases |a|
  {
    hide Exec;
    if a == [] {
      assert a + b == b;
    } else {
      assert (a + b)[1..] == a[1..] + b;
      RunAppend(Exec(s, a[0]), a[1..], b);
    }
  }

  lemma RunLast(s: Sys, ls: seq<Label>)
    requires ls != []
    ensures Run(s, ls) == Exec(Run(s, ls[..|ls| - 1]), ls[|ls| - 1])
  {
    hide Exec;
    var front, last := ls[..|ls| - 1], [ls[|ls| - 1]];
    assert ls == front + last && last[1..] == [];
    RunAppend(s, front, last);
  }

  /** In `s` the scan is at the frame of `c`, which crossed the filter, and `l` is its look at it: the gate is
      as `c` says. */
  ghost predicate LooksAt(s: Sys, l: Label, c: Check) {
    && l == LookAtFrame && Enabled(s, l)
    && s.scan == Looking(c.at, c.k) && s.gate.open == c.open && s.link.net.delivered[c.at].via.Some?
  }

  lemma StepRecords(s: Sys, l: Label)
    ensures var t := Exec(s, l);
            || t.checks == s.checks
            || (t.checks != [] && t.checks == s.checks + [t.checks[|t.checks| - 1]]
                && LooksAt(s, l, t.checks[|t.checks| - 1]))
  {
    hide PassesRatio, LiveLink.Step, SaveWorker.Step, SaveWorker.Enabled, SaveGate.Step,
      SaveGate.Enabled, LiveLink.Enabled;
  }

  /** Every reading of the gate is recorded as it was, in a state of the run in which the scan looked at that
      frame. */
  lemma {:induction false} ChecksReadTheGate(start: Sys, ls: seq<Label>, i: nat)
    requires start.checks == [] && i < |Run(start, ls).checks|
    ensures exists n :: 0 <= n < |ls| && LooksAt(Run(start, ls[..n]), ls[n], Run(start, ls).checks[i])
    decreases |ls|
  {
    hide Exec, LooksAt;
    if ls == [] {
      assert false;
    } else {
      var front := ls[..|ls| - 1];
      RunLast(start, ls);
      StepRecords(Run(start, front), ls[|ls| - 1]);
      if i < |Run(start, front).checks| {
        ChecksReadTheGate(start, front, i);
        var n :| 0 <= n < |front| && LooksAt(Run(start, front[..n]), front[n], Run(start, front).checks[i]);
        assert front[..n] == ls[..n] && front[n] == ls[n];
      } else {
        assert ls[..|ls| - 1] == front;
      }
    }
  }

  /** In every run, a frame that is uploaded was looked at in some earlier state in which the save gate was
      open. */
  lemma UploadedWhileOpen(configured: bool, lag: nat, ls: seq<Label>, i: nat)
    requires i < |Run(Start(configured, lag), ls).worker.processed|
    ensures var t := Run(Start(configured, lag), ls).worker.processed[i];
            exists n :: 0 <= n < |ls| && LooksAt(Run(Start(configured, lag), ls[..n]), ls[n], Check(t.at, t.k, true))
  {
    hide Justified, Tracked, LooksAt, Start, Run;
    var s := Run(Start(configured, lag), ls);
    var t := s.worker.processed[i];
    assert Reachable(s);
    UploadedFramesAreJustified(s, i);
    JustifiedWasChecked(s, t);
    var c :| 0 <= c < |s.checks| && s.checks[c] == Check(t.at, t.k, true);
    StartHasNoChecks(configured, lag);
    ChecksReadTheGate(Start(configured, lag), ls, c);
  }

  lemma StartHasNoChecks(configured: bool, lag: nat)
    ensures Start(configured, lag).checks == []
  {
  }

  lemma JustifiedWasChecked(s: Sys, t: Ticket)
    requires Justified(s.link.net.delivered, s.checks, t)
    ensures Check(t.at, t.k, true) in s.checks
  {
  }

  /** Whatever else is attached to a frame of the stream, the filter's entry comes last. */
  ghost predicate FilterEntriesLast(offered: seq<LiveLink.Payload>) {
    forall p, k :: 0 <= p < |offered| && offered[p].Buffer? && 0 <= k < |offered[p].frames| ==>
      ScannedMeta(offered[p].frames[k].userMeta) == FilterMeta(offered[p].frames[k].userMeta)
  }

  /** If the filter's entry always comes last, the counts for which a frame is uploaded are the filter's. */
  lemma UploadedForTheFiltersCounts(s: Sys, i: nat)
    requires Reachable(s) && i < |s.worker.processed| && FilterEntriesLast(s.link.net.offered)
    ensures var own := FilterMeta(s.worker.processed[i].frame.userMeta);
            own.Some? && own.value.fromFilter && PassesRatio(own.value)
  {
    hide PassesRatio, Reachable;
    UploadedFramesAreJustified(s, i);
    var t := s.worker.processed[i];
    var d := s.link.net.delivered[t.at];
    assert s.link.net.offered[d.u.pos].frames[t.k] == t.frame;
  }
}
