/** What the reconfiguration protocol guarantees in every reachable state, whatever the
    interleaving of commands, items and main's own output. */
module LiveLinkTheorems {
  import opened Wrappers
  import opened LiveLink
  import opened LiveLinkInvariant
  import opened LiveLinkSteps

  ghost predicate Reachable(s: State) {
    exists configured: bool, ls: seq<Label> :: s == Run(Init(configured), ls)
  }

  lemma ReachableInv(s: State)
    requires Reachable(s)
    ensures Inv(s)
  {
    var configured, ls :| s == Run(Init(configured), ls);
    InitKeeps(configured);
    RunKeeps(Init(configured), ls);
  }

  lemma ReachableNet(s: State)
    requires Reachable(s)
    ensures NetInv(s.net)
  {
    ReachableInv(s);
  }

  lemma InvGivesCursor(s: State)
    requires Inv(s)
    ensures NetInv(s.net) && CursorOk(s.net)
  {
  }

  lemma {:induction false} RunAppend(s: State, a: seq<Label>, b: seq<Label>)
    ensures Run(s, a + b) == Run(Run(s, a), b)
    decreases |a|
  {
    if a == [] {
      assert a + b == b;
    } else {
      assert (a + b)[1..] == a[1..] + b;
      RunAppend(Exec(s, a[0]), a[1..], b);
    }
  }

  lemma ReachableOn(s: State, ls: seq<Label>)
    requires Reachable(s)
    ensures Reachable(Run(s, ls))
  {
    var configured, before :| s == Run(Init(configured), before);
    RunAppend(Init(configured), before, ls);
    assert Run(s, ls) == Run(Init(configured), before + ls);
  }

  // ---------------------------------------------------------------------------
  // Waiting callbacks, flag and graph
  // ---------------------------------------------------------------------------

  /** The chain once the waiting callbacks have run, each acting on the bin its copy names. */
  function Replay(current: Option<nat>, waiting: seq<Probe>, heap: map<nat, LinkUnlinkInfo>): Option<nat>
    decreases |waiting|
  {
    if waiting == [] then current
    else
      var p := waiting[0];
      var next := if p.kind.PadCb? then None else if p.copy in heap then heap[p.copy].mainElement else None;
      Replay(next, waiting[1..], heap)
  }

  /** The chain as it is, counting a removal in progress as done. */
  function Settled(n: Net): Option<nat> {
    if n.cursor.Sending? then None else InChain(n)
  }

  lemma {:induction false} ReplayIsChain(initial: Option<nat>, history: seq<Request>, from: nat,
                                         waiting: seq<Probe>, heap: map<nat, LinkUnlinkInfo>)
    requires |history| == from + |waiting|
    requires forall i :: 0 <= i < |waiting| ==>
               && waiting[i].kind == history[from + i].kind
               && waiting[i].copy in heap && heap[waiting[i].copy].mainElement == history[from + i].main
    ensures Replay(Chain(initial, history[..from]), waiting, heap) == Chain(initial, history)
    decreases |waiting|
  {
    if waiting == [] {
      assert history[..from] == history;
    } else {
      assert history[..from + 1][..from] == history[..from];
      forall i | 0 <= i < |waiting[1..]|
        ensures waiting[1..][i].kind == history[from + 1 + i].kind
             && heap[waiting[1..][i].copy].mainElement == history[from + 1 + i].main
      {
        assert waiting[1..][i] == waiting[i + 1];
      }
      ReplayIsChain(initial, history, from + 1, waiting[1..], heap);
    }
  }

  lemma SettledIsPrefix(n: Net)
    requires Wired(n) && ArmedOk(n) && Waiting(n) <= |n.accepted|
    ensures Settled(n) == Chain(n.initial, n.accepted[..Waiting(n)])
  {
    if n.cursor.Sending? {
      var h := n.accepted[..n.applied + 1];
      assert h[|h| - 1] == n.accepted[n.applied];
    }
  }

  lemma ReplayIsTarget(n: Net)
    requires Wired(n) && ArmedOk(n) && Queued(n)
    ensures Replay(Settled(n), n.pending, n.heap) == Chain(n.initial, n.accepted)
  {
    SettledIsPrefix(n);
    forall i | 0 <= i < |n.pending|
      ensures n.pending[i].kind == n.accepted[Waiting(n) + i].kind
           && n.pending[i].copy in n.heap && n.heap[n.pending[i].copy].mainElement == n.accepted[Waiting(n) + i].main
    {
      assert Answers(n, n.pending[i], n.accepted[Waiting(n) + i]);
    }
    ReplayIsChain(n.initial, n.accepted, Waiting(n), n.pending, n.heap);
  }

  /** Replaying what is waiting always ends where the command thread's flag says, and the flag
      agrees with the bin it remembers. */
  lemma WaitingRequestsMeetTheFlag(s: State)
    requires Reachable(s) && s.cmd.CmdIdle?
    ensures Replay(Settled(s.net), s.net.pending, s.net.heap) == s.info.mainElement
    ensures s.enabled <==> s.info.mainElement.Some?
    ensures s.fpfilterBin == s.info.mainElement
  {
    ReachableInv(s);
    ReplayIsTarget(s.net);
  }

  lemma AlternatesAt(n: Net, i: nat)
    requires Wired(n) && ArmedOk(n) && Queued(n) && i < |n.pending|
    ensures Accepts(Chain(n.initial, n.accepted[..Waiting(n) + i]), n.accepted[Waiting(n) + i])
    ensures n.pending[i].kind == n.accepted[Waiting(n) + i].kind
    ensures Chain(n.initial, n.accepted[..Waiting(n) + i + 1]).Some? <==> n.pending[i].kind.AddCb?
  {
    var k := Waiting(n) + i;
    assert Answers(n, n.pending[i], n.accepted[k]);
    var h := n.accepted[..k + 1];
    assert h[|h| - 1] == n.accepted[k];
  }

  lemma PendingAlternates(n: Net, i: nat)
    requires Wired(n) && ArmedOk(n) && Queued(n) && i < |n.pending|
    ensures i + 1 < |n.pending| ==> n.pending[i].kind != n.pending[i + 1].kind
    ensures i == 0 ==> (n.pending[0].kind.AddCb? <==> Settled(n).None?)
  {
    AlternatesAt(n, i);
    if i + 1 < |n.pending| { AlternatesAt(n, i + 1); }
    SettledIsPrefix(n);
  }

  /** In every reachable state, half-way through a command included: what is waiting will leave main linked
      exactly if the flag says so, or an enable has installed its probe and not yet raised the flag, or a
      disable has lowered the flag and not yet installed its probe. */
  lemma WaitingRequestsMeetTheCommand(s: State)
    requires Reachable(s)
    ensures Replay(Settled(s.net), s.net.pending, s.net.heap).Some? <==>
              s.enabled || s.cmd.EnInstalled? || s.cmd.DisFlagged? || s.cmd.DisGateClosed? || s.cmd.DisCopied?
  {
    hide Queued, Answers, BinsOk, FlowOk, OwnersOk, FreshAdds;
    ReachableInv(s);
    ReplayIsTarget(s.net);
  }

  /** Adjacent waiting callbacks are never of the same kind, and the first suits the chain as it is. */
  lemma WaitingRequestsAlternate(s: State, i: nat)
    requires Reachable(s) && i < |s.net.pending|
    ensures i + 1 < |s.net.pending| ==> s.net.pending[i].kind != s.net.pending[i + 1].kind
    ensures i == 0 ==> (s.net.pending[0].kind.AddCb? <==> Settled(s.net).None?)
  {
    ReachableInv(s);
    PendingAlternates(s.net, i);
  }

  /** With nothing waiting and nothing half done, the graph is exactly one of the two pipelines,
      with main linked just when filtering is enabled. */
  lemma DrainedGraphMatchesFlag(s: State)
    requires Reachable(s) && s.cmd.CmdIdle? && s.net.pending == [] && !s.net.cursor.Sending?
    ensures s.net.links == Graph(s.info.mainElement) && s.net.members == Members(s.info.mainElement)
    ensures s.enabled <==> Prev in s.net.links && s.net.links[Prev].Main?
    ensures !s.enabled <==> s.net.links == map[PrevPrev := Prev, Prev := Next]
  {
    ReachableInv(s);
    assert s.net.accepted[..s.net.applied] == s.net.accepted;
  }

  // ---------------------------------------------------------------------------
  // Linearisation
  // ---------------------------------------------------------------------------

  /** Every delivered item crossed the chain that some prefix of the accepted history produces. The
      prefix covers everything accepted before the item arrived and nothing not yet accepted. */
  lemma DeliveredSeesAPrefix(s: State, i: nat)
    requires Reachable(s) && i < |s.net.delivered|
    ensures var d := s.net.delivered[i];
            && d.u.Stream?
            && d.u.arrived <= d.u.stamp <= |s.net.accepted|
            && d.via == Chain(s.net.initial, s.net.accepted[..d.u.stamp])
            && d.u.pos < |s.net.offered| && d.u.item == s.net.offered[d.u.pos]
  {
    ReachableInv(s);
    assert Flow(s.net)[i] == s.net.delivered[i];
    assert Tracked(s.net, Flow(s.net)[i]);
  }

  /** The prefixes grow along the delivered stream. */
  lemma PrefixesGrow(s: State, i: nat, j: nat)
    requires Reachable(s) && i < j < |s.net.delivered|
    ensures s.net.delivered[i].u.Stream? && s.net.delivered[j].u.Stream?
    ensures s.net.delivered[i].u.stamp <= s.net.delivered[j].u.stamp
  {
    ReachableInv(s);
    DeliveredSeesAPrefix(s, i);
    DeliveredSeesAPrefix(s, j);
    assert Flow(s.net)[i] == s.net.delivered[i] && Flow(s.net)[j] == s.net.delivered[j];
  }

  /** An item that clears the pad sees every request accepted up to that moment. */
  lemma ClearedSeesWholeHistory(s: State)
    requires Reachable(s) && Enabled(s, DoClear)
    ensures Step(s, DoClear).net.cursor.stamp == |s.net.accepted|
    ensures s.net.links == Graph(Chain(s.net.initial, s.net.accepted))
  {
    ReachableInv(s);
    assert s.net.accepted[..s.net.applied] == s.net.accepted;
  }

  /** What happens to the flow and to the item in hand: only a push adds to the flow, and it adds that
      item. The number of requests accepted when an item arrived stays with it. */
  ghost predicate ItemCarried(n: Net, m: Net) {
    && (|| Flow(m) == Flow(n)
        || (n.cursor.Cleared? && Flow(m) == Flow(n) + [Delivery(InHandUnit(n.cursor), InChain(n))]))
    && |n.offered| <= |m.offered|
    && (!m.cursor.Idle? ==>
          || (!n.cursor.Idle? && m.cursor.pos == n.cursor.pos && m.cursor.arrived == n.cursor.arrived)
          || m.cursor.pos == |n.offered|)
  }

  lemma FireCarries(n: Net)
    requires NetInv(n) && n.cursor.AtPad? && n.pending != []
    ensures ItemCarried(n, FireProbe(n))
  {
    hide NetInv, FireProbe, Flow, FlowOk;
    if AddIsNext(n) {
      AddEffect(n);
      AddFlow(n);
    } else {
      PadEffect(n);
      PadFlow(n);
    }
  }

  lemma LeaveCarries(n: Net, bin: nat)
    requires NetInv(n) && CanLeave(n, bin)
    ensures ItemCarried(n, LeaveMain(n, bin))
  {
    hide NetInv, LeaveMain, Flow, FlowOk, DropsOk;
    if n.bins[bin].held[0].Stream? {
      PassEffect(n, bin);
      PassFlow(n, bin);
    } else {
      RemoveEffect(n, bin);
      RemoveFlow(n, bin);
    }
  }

  lemma PushCarries(n: Net)
    requires NetInv(n) && n.cursor.Cleared?
    ensures ItemCarried(n, PushDown(n))
  {
    hide NetInv, PushDown, Flow;
    PushEffect(n);
    PushExtendsFlow(n);
  }

  lemma CommandCarries(s: State, l: Label)
    requires Inv(s) && Enabled(s, l) && (l.DoEnable? || l.DoDisable? || l.DoAdvance?)
    ensures ItemCarried(s.net, Step(s, l).net)
  {
    hide FlowOk, Wired, Queued, CursorOk, DropsOk;
    var n := s.net;
    if l.DoEnable? && Step(s, l).cmd.EnBuilt? {
      NewBinBins(n, Step(s, l).net);
    } else if l.DoAdvance? && (s.cmd.EnGateClosed? || s.cmd.DisGateClosed?) {
      CopyNetKeeps(n, s.info);
    } else if l.DoAdvance? && (s.cmd.EnCopied? || s.cmd.DisCopied?) {
      AppliedIsPast(n);
      InstallKeepsChain(n, if s.cmd.EnCopied? then AddCb else PadCb, s.cmd.copy);
    } else {
      assert Step(s, l).net == n;
    }
  }

  lemma AppliedIsPast(n: Net)
    requires Wired(n)
    ensures n.applied <= |n.accepted|
  {
  }

  lemma StepCarries(s: State, l: Label)
    requires Inv(s) && Enabled(s, l)
    ensures ItemCarried(s.net, Step(s, l).net)
  {
    hide FireProbe, LeaveMain, PushDown, ItemCarried, Advance, BeginEnable, BeginDisable;
    hide Wired, Queued, ArmedOk, BinsOk, FreshAdds, FlowOk, CursorOk, DropsOk, OwnersOk, ControlOk;
    match l
    case DoFire => FireCarries(s.net);
    case DoLeave(b) => LeaveCarries(s.net, b);
    case DoPush => PushCarries(s.net);
    case DoOffer(item) => OfferCarries(s.net, item);
    case DoClear => ClearCarries(s.net);
    case _ => CommandCarries(s, l);
  }

  lemma OfferCarries(n: Net, item: Payload)
    requires NetInv(n) && n.cursor.Idle?
    ensures ItemCarried(n, Offer(n, item))
  {
    hide FlowOk, DropsOk, Wired, Queued, ArmedOk, BinsOk, FreshAdds, CursorOk;
    OfferFlow(n, item);
  }

  lemma ClearCarries(n: Net)
    requires n.cursor.AtPad?
    ensures ItemCarried(n, ClearPad(n))
  {
    assert InChain(ClearPad(n)) == InChain(n);
  }

  /** The item at `pos`, wherever it is, arrived when `arrived` requests had been accepted. */
  ghost predicate ArrivedWith(n: Net, pos: nat, arrived: nat) {
    && pos < |n.offered|
    && (!n.cursor.Idle? && n.cursor.pos == pos ==> n.cursor.arrived == arrived)
    && (forall i :: 0 <= i < |Flow(n)| && Flow(n)[i].u.Stream? && Flow(n)[i].u.pos == pos
          ==> Flow(n)[i].u.arrived == arrived)
  }

  lemma ArrivedCarried(n: Net, m: Net, pos: nat, arrived: nat)
    requires ArrivedWith(n, pos, arrived) && ItemCarried(n, m)
    ensures ArrivedWith(m, pos, arrived)
  {
    hide Flow, InChain;
  }

  lemma {:induction false} ArrivedRun(s: State, ls: seq<Label>, pos: nat, arrived: nat)
    requires Inv(s) && ArrivedWith(s.net, pos, arrived)
    ensures ArrivedWith(Run(s, ls).net, pos, arrived)
    decreases |ls|
  {
    hide Inv, Step, Enabled, ArrivedWith, ItemCarried;
    if ls == [] {
    } else {
      if Enabled(s, ls[0]) {
        StepCarries(s, ls[0]);
        StepKeeps(s, ls[0]);
        ArrivedCarried(s.net, Step(s, ls[0]).net, pos, arrived);
      }
      ArrivedRun(Exec(s, ls[0]), ls[1..], pos, arrived);
    }
  }

  lemma JustArrived(n: Net, item: Payload)
    requires NetInv(n) && n.cursor.Idle?
    ensures ArrivedWith(Offer(n, item), |n.offered|, |n.accepted|)
  {
    OfferFlow(n, item);
    hide Wired, Queued, ArmedOk, BinsOk, FreshAdds, CursorOk, DropsOk;
    forall i | 0 <= i < |Flow(n)| ensures Flow(n)[i].u.Stream? && Flow(n)[i].u.pos < |n.offered| {
      assert Tracked(n, Flow(n)[i]);
    }
    hide Flow;
  }

  /** An item sees everything accepted before it arrived: wherever and whenever it is delivered, the chain
      it crossed is the result of a prefix of the history that includes every request accepted by the time
      it was offered. */
  lemma ItemsSeeEarlierRequests(s: State, item: Payload, ls: seq<Label>, i: nat)
    requires Reachable(s) && Enabled(s, DoOffer(item))
    requires i < |Run(Step(s, DoOffer(item)), ls).net.delivered|
    requires Run(Step(s, DoOffer(item)), ls).net.delivered[i].u.Stream?
    requires Run(Step(s, DoOffer(item)), ls).net.delivered[i].u.pos == |s.net.offered|
    ensures var n := Run(Step(s, DoOffer(item)), ls).net; var d := n.delivered[i];
            && |s.net.accepted| <= d.u.stamp <= |n.accepted|
            && d.via == Chain(n.initial, n.accepted[..d.u.stamp])
  {
    hide Inv, NetInv, Run, ArrivedWith;
    ReachableNet(s);
    ReachableInv(s);
    var t := Step(s, DoOffer(item));
    StepKeeps(s, DoOffer(item));
    JustArrived(s.net, item);
    ArrivedRun(t, ls, |s.net.offered|, |s.net.accepted|);
    RunKeeps(t, ls);
    InvGivesCursor(Run(t, ls));
    ArrivedDelivered(Run(t, ls).net, i, |s.net.offered|, |s.net.accepted|);
  }

  lemma ArrivedDelivered(n: Net, i: nat, pos: nat, arrived: nat)
    requires NetInv(n) && ArrivedWith(n, pos, arrived)
    requires i < |n.delivered| && n.delivered[i].u.Stream? && n.delivered[i].u.pos == pos
    ensures var d := n.delivered[i];
            arrived <= d.u.stamp <= |n.accepted| && d.via == Chain(n.initial, n.accepted[..d.u.stamp])
  {
    hide Wired, Queued, ArmedOk, BinsOk, FreshAdds, CursorOk, DropsOk;
    assert Flow(n)[i] == n.delivered[i];
    assert Tracked(n, Flow(n)[i]);
  }

  // ---------------------------------------------------------------------------
  // Conservation and order
  // ---------------------------------------------------------------------------

  lemma {:induction false} SurvivorsCount(n: nat, gone: set<nat>)
    requires forall p :: p in gone ==> p < n
    ensures |Survivors(n, gone)| + |gone| == n
  {
    if n == 0 {
      assert gone == {};
    } else {
      var rest := gone - {n - 1};
      SurvivorsCount(n - 1, rest);
      if n - 1 in gone {
        assert gone == rest + {n - 1};
        SurvivorsIgnoreLater(n - 1, rest, n - 1);
      } else {
        assert gone == rest;
      }
    }
  }

  lemma {:induction false} SurvivorsAscend(n: nat, gone: set<nat>)
    ensures forall i :: 0 <= i < |Survivors(n, gone)| ==> Survivors(n, gone)[i] < n && Survivors(n, gone)[i] !in gone
    ensures forall i, j :: 0 <= i < j < |Survivors(n, gone)| ==> Survivors(n, gone)[i] < Survivors(n, gone)[j]
    ensures forall p :: 0 <= p < n && p !in gone ==> p in Survivors(n, gone)
  {
    if n == 0 {
    } else {
      SurvivorsAscend(n - 1, gone);
    }
  }

  /** What the bin in the chain still holds of the stream. */
  function HeldItems(n: Net): seq<Delivery> {
    Flow(n)[|n.delivered|..]
  }

  ghost predicate Conserved(n: Net) {
    && Positions(n.delivered) + Positions(HeldItems(n)) + InHand(n.cursor) == Survivors(|n.offered|, n.dropped)
    && |n.offered| == |n.delivered| + |HeldItems(n)| + |InHand(n.cursor)| + |n.dropped|
    && n.applied <= |n.accepted| && |n.dropped| == Adds(n.accepted[..n.applied])
    && n.lost == [] && !n.faulted
  }

  lemma FlowIsConserved(n: Net)
    requires FlowOk(n) && DropsOk(n) && !n.faulted
    ensures Conserved(n)
  {
    assert Flow(n) == n.delivered + HeldItems(n);
    assert Positions(Flow(n)) == Positions(n.delivered) + Positions(HeldItems(n));
    SurvivorsCount(|n.offered|, n.dropped);
  }

  /** Delivered, held and in-hand items are, in order, the offered items minus exactly those that
      fired an add; there is one of those for each completed add. */
  lemma NothingElseIsLost(s: State)
    requires Reachable(s)
    ensures Conserved(s.net)
  {
    hide FlowOk, DropsOk, Conserved, OwnersOk, ControlOk;
    ReachableInv(s);
    FlowIsConserved(s.net);
  }

  lemma FlowInOrder(n: Net, i: nat, j: nat)
    requires NetInv(n) && i < j < |n.delivered|
    ensures n.delivered[i].u.Stream? && n.delivered[j].u.Stream? && n.delivered[i].u.pos < n.delivered[j].u.pos
  {
    hide Wired, Queued, ArmedOk, BinsOk, FreshAdds, CursorOk;
    assert Flow(n)[i] == n.delivered[i] && Flow(n)[j] == n.delivered[j];
    assert Tracked(n, Flow(n)[i]) && Tracked(n, Flow(n)[j]);
    SurvivorsAscend(|n.offered|, n.dropped);
    var all := Survivors(|n.offered|, n.dropped);
    assert all[i] == Positions(Flow(n))[i] && all[j] == Positions(Flow(n))[j];
  }

  /** Delivery is in stream order and at most once. */
  lemma DeliveredInOrder(s: State, i: nat, j: nat)
    requires Reachable(s) && i < j < |s.net.delivered|
    ensures s.net.delivered[i].u.Stream? && s.net.delivered[j].u.Stream?
    ensures s.net.delivered[i].u.pos < s.net.delivered[j].u.pos
  {
    hide NetInv;
    ReachableNet(s);
    FlowInOrder(s.net, i, j);
  }

  /** A removed bin passed on everything that entered it, in order; what it swallowed is the one
      injected end-of-stream, which was the last thing to enter. */
  lemma RemovalLosesNothing(s: State, bin: nat)
    requires Reachable(s) && bin in s.net.bins && s.net.bins[bin].phase.Nulled?
    ensures var m := s.net.bins[bin];
            && m.held == [] && m.entered == m.left + [InjectedEos]
            && (forall i :: 0 <= i < |m.left| ==> m.left[i].Stream?)
  {
    ReachableInv(s);
    assert RetiredMain(s.net.bins[bin]);
  }

  /** The injected end-of-stream never reaches the next element. */
  lemma InjectedEosStaysInside(s: State, d: Delivery)
    requires Reachable(s) && d in s.net.delivered
    ensures d.u.Stream?
  {
    var i :| 0 <= i < |s.net.delivered| && s.net.delivered[i] == d;
    DeliveredSeesAPrefix(s, i);
  }

  /** No stream item enters a bin after the injected end-of-stream. */
  lemma NothingEntersAfterInjectedEos(s: State, bin: nat, i: nat, j: nat)
    requires Reachable(s) && bin in s.net.bins && i < j < |s.net.bins[bin].entered|
    ensures s.net.bins[bin].entered[i].Stream?
  {
    hide FlowOk, DropsOk, CursorOk, Queued, FreshAdds, ArmedOk, Wired, OwnersOk, ControlOk;
    ReachableInv(s);
    var m := s.net.bins[bin];
    match m.phase
    case Created =>
    case Nulled =>
      assert RetiredMain(m);
    case Playing =>
      assert LiveMain(s.net, m);
      if i < |m.left| {
        assert m.entered[i] == m.left[i];
      } else {
        assert m.entered[i] == m.held[i - |m.left|];
        assert i - |m.left| < |StreamPart(m.held)|;
        assert StreamPart(m.held)[i - |m.left|] == m.entered[i];
      }
  }

  // ---------------------------------------------------------------------------
  // Snapshots and ownership
  // ---------------------------------------------------------------------------

  /** A firing add acts on the bin named when its request was accepted, whatever the globals hold by
      now; it finds a direct link and an empty pipeline and leaves that bin spliced in and playing. */
  lemma AddActsOnItsSnapshot(s: State)
    requires Reachable(s) && AddIsNext(s.net)
    ensures Linked(s.net.links, Prev, Next) && s.net.members == {}
    ensures s.net.applied < |s.net.accepted| && s.net.accepted[s.net.applied].main.Some?
    ensures SplicedIn(s.net, Step(s, DoFire).net, s.net.accepted[s.net.applied].main.value)
  {
    hide Inv, NetInv, FireProbe, SplicedIn;
    ReachableNet(s);
    AddSplices(s.net);
  }

  lemma AddSplices(n: Net)
    requires NetInv(n) && AddIsNext(n)
    ensures Linked(n.links, Prev, Next) && n.members == {}
    ensures n.applied < |n.accepted| && n.accepted[n.applied].main.Some?
    ensures SplicedIn(n, FireProbe(n), n.accepted[n.applied].main.value)
  {
    AddEffect(n);
    AfterAddSplices(n, n.accepted[n.applied].main.value);
  }

  ghost predicate SplicedIn(n: Net, m: Net, bin: nat)
    requires n.cursor.AtPad?
  {
    && m.links == Graph(Some(bin)) && m.members == {bin}
    && bin in m.bins && m.bins[bin].phase == Playing && m.bins[bin].entered == []
    && m.cursor.Idle? && m.dropped == n.dropped + {n.cursor.pos} && m.delivered == n.delivered
  }

  lemma AfterAddSplices(n: Net, bin: nat)
    requires AddIsNext(n)
    ensures SplicedIn(n, AfterAdd(n, bin), bin)
  {
  }

  /** A firing removal finds its own bin in the chain and sends the end-of-stream into it. */
  lemma RemoveActsOnItsSnapshot(s: State)
    requires Reachable(s) && RemoveIsNext(s.net)
    ensures s.net.applied < |s.net.accepted| && s.net.accepted[s.net.applied].main.Some?
    ensures SendsInto(s.net, Step(s, DoFire).net, s.net.accepted[s.net.applied].main.value)
  {
    hide Inv, NetInv, FireProbe, SendsInto;
    ReachableNet(s);
    PadSends(s.net);
  }

  ghost predicate SendsInto(n: Net, m: Net, bin: nat)
    requires n.cursor.AtPad?
  {
    && n.links == Graph(Some(bin)) && n.members == {bin}
    && m.links == n.links && m.cursor == Sending(n.cursor.pos, n.cursor.item, n.cursor.arrived, bin)
    && bin in n.bins && !n.bins[bin].eos
    && bin in m.bins && m.bins[bin].held == n.bins[bin].held + [InjectedEos]
  }

  lemma PadSends(n: Net)
    requires NetInv(n) && RemoveIsNext(n)
    ensures n.applied < |n.accepted| && n.accepted[n.applied].main.Some?
    ensures SendsInto(n, FireProbe(n), n.accepted[n.applied].main.value)
  {
    PadEffect(n);
    hide FlowOk, DropsOk, CursorOk, Queued, FreshAdds, ArmedOk, FireProbe;
  }

  /** When the injected end-of-stream comes out, that bin and no other is taken away, empty, and its
      neighbours are linked again; the end-of-stream itself goes no further. */
  lemma RemovalCompletes(s: State, bin: nat)
    requires Reachable(s) && Enabled(s, DoLeave(bin)) && s.net.bins[bin].held[0].InjectedEos?
    ensures s.net.cursor.Sending? && s.net.applied < |s.net.accepted|
    ensures s.net.accepted[s.net.applied] == Request(PadCb, Some(bin))
    ensures TakenOut(s.net, Step(s, DoLeave(bin)).net, bin)
  {
    hide Inv, NetInv, LeaveMain, TakenOut;
    ReachableNet(s);
    LeaveTakesOut(s.net, bin);
  }

  ghost predicate TakenOut(n: Net, m: Net, bin: nat)
    requires n.cursor.Sending? && bin in n.bins
  {
    && n.bins[bin].held == [InjectedEos]
    && m.links == Graph(None) && m.members == {} && m.delivered == n.delivered
    && bin in m.bins && m.bins[bin].phase == Nulled
    && m.cursor == AtPad(n.cursor.pos, n.cursor.item, n.cursor.arrived)
  }

  lemma LeaveTakesOut(n: Net, bin: nat)
    requires NetInv(n) && CanLeave(n, bin) && n.bins[bin].held[0].InjectedEos?
    ensures n.cursor.Sending? && n.applied < |n.accepted| && n.accepted[n.applied] == Request(PadCb, Some(bin))
    ensures TakenOut(n, LeaveMain(n, bin), bin)
  {
    RemoveEffect(n, bin);
    hide NetInv, LeaveMain;
  }

  lemma {:induction false} CopiesCount(ps: seq<Probe>)
    requires DistinctCopies(ps)
    ensures |Copies(ps)| == |ps|
    decreases |ps|
  {
    if ps == [] {
      assert Copies(ps) == {};
    } else {
      CopiesOfTail(ps);
      CopiesCount(ps[1..]);
    }
  }

  /** Each live copy has exactly one holder, so there are as many of them as waiting callbacks,
      plus one while a removal is in progress and one while the command thread has not yet
      installed its own. Nothing is ever freed twice or used after being freed. */
  lemma CopiesAreOwnedOnce(s: State)
    requires Reachable(s)
    ensures |s.net.heap| == |s.net.pending| + (if s.net.cursor.Sending? then 1 else 0)
                            + (if s.cmd.EnCopied? || s.cmd.DisCopied? then 1 else 0)
    ensures OwnersOk(s) && !s.net.faulted
  {
    hide FlowOk, DropsOk, CursorOk, Queued, FreshAdds, Wired, BinsOk, ControlOk;
    ReachableInv(s);
    var n := s.net;
    CopiesCount(n.pending);
    assert |n.heap| == |n.heap.Keys|;
    assert n.heap.Keys == Copies(n.pending) + (ArmedCopies(n) + CommandCopies(s.cmd));
    assert |ArmedCopies(n) + CommandCopies(s.cmd)| == |ArmedCopies(n)| + |CommandCopies(s.cmd)|;
    assert |n.heap.Keys| == |Copies(n.pending)| + |ArmedCopies(n) + CommandCopies(s.cmd)|;
  }

  // ---------------------------------------------------------------------------
  // Progress
  // ---------------------------------------------------------------------------

  /** What the streaming thread, or the bin it is waiting for, can do next. */
  function NextLabel(n: Net): Label
    requires !n.cursor.Idle?
  {
    match n.cursor
    case AtPad(_, _, _) => if n.pending == [] then DoClear else DoFire
    case Sending(_, _, _, bin) => DoLeave(bin)
    case Cleared(_, _, _, _) => DoPush
  }

  function Stage(c: Cursor): nat {
    match c
    case Idle => 0
    case Cleared(_, _, _, _) => 1
    case AtPad(_, _, _) => 2
    case Sending(_, _, _, _) => 3
  }

  function HeldBy(n: Net): nat {
    if n.cursor.Sending? && n.cursor.bin in n.bins then |n.bins[n.cursor.bin].held| else 0
  }

  /** The item in hand is nearer to its end: fewer callbacks wait, or the same ones and a later
      stage, or less to drain. */
  predicate Nearer(n: Net, m: Net) {
    && m.ended == n.ended
    && (|| |m.pending| < |n.pending|
        || (m.pending == n.pending && Stage(m.cursor) < Stage(n.cursor))
        || (m.pending == n.pending && Stage(m.cursor) == Stage(n.cursor) && HeldBy(m) < HeldBy(n)))
    && (n.pending != [] && !n.cursor.Cleared? ==>
          |m.pending| < |n.pending| || (m.pending == n.pending && !m.cursor.Idle? && !m.cursor.Cleared?))
  }

  lemma FireProgress(n: Net)
    requires NetInv(n) && n.cursor.AtPad? && n.pending != []
    ensures Nearer(n, FireProbe(n))
  {
    hide NetInv, FireProbe;
    if AddIsNext(n) { AddEffect(n); } else { PadEffect(n); }
  }

  lemma PushProgress(n: Net)
    requires n.cursor.Cleared?
    ensures Nearer(n, PushDown(n))
  {
  }

  lemma SendingCanLeave(n: Net)
    requires NetInv(n) && n.cursor.Sending?
    ensures CanLeave(n, n.cursor.bin)
  {
    hide FlowOk, DropsOk, CursorOk, Queued, FreshAdds;
    SettledIsPrefix(n);
    assert Accepts(Chain(n.initial, n.accepted[..n.applied]), n.accepted[n.applied]);
  }

  lemma PassNearer(n: Net, bin: nat)
    requires n.cursor.Sending? && n.cursor.bin == bin && CanLeave(n, bin)
    ensures Nearer(n, AfterPass(n, bin))
  {
  }

  lemma RemoveNearer(n: Net, bin: nat)
    requires n.cursor.Sending? && n.cursor.bin == bin && CanLeave(n, bin) && n.bins[bin].srcProbes != []
    ensures Nearer(n, AfterRemove(n, bin))
  {
  }

  lemma LeaveProgress(n: Net)
    requires NetInv(n) && n.cursor.Sending?
    ensures CanLeave(n, n.cursor.bin) && Nearer(n, LeaveMain(n, n.cursor.bin))
  {
    hide NetInv, LeaveMain, Nearer;
    SendingCanLeave(n);
    var bin := n.cursor.bin;
    if n.bins[bin].held[0].Stream? {
      PassEffect(n, bin);
      PassNearer(n, bin);
    } else {
      RemoveEffect(n, bin);
      RemoveNearer(n, bin);
    }
  }

  /** The streaming thread is never stuck, and each of its steps brings the item in hand nearer to
      its end. */
  lemma StreamProgress(s: State)
    requires Inv(s) && !s.net.cursor.Idle?
    ensures Enabled(s, NextLabel(s.net))
    ensures Nearer(s.net, Step(s, NextLabel(s.net)).net) && Step(s, NextLabel(s.net)).cmd == s.cmd
  {
    hide NetInv, OwnersOk, ControlOk, FireProbe, PushDown, LeaveMain;
    match s.net.cursor
    case AtPad(_, _, _) =>
      if s.net.pending != [] { FireProgress(s.net); }
    case Cleared(_, _, _, _) => PushProgress(s.net);
    case Sending(_, _, _, _) => LeaveProgress(s.net);
  }

  predicate IsCommand(l: Label) {
    l.DoEnable? || l.DoDisable? || l.DoAdvance?
  }

  ghost predicate NoCommands(ls: seq<Label>) {
    forall i :: 0 <= i < |ls| ==> !IsCommand(ls[i])
  }

  ghost predicate NearerDone(s: State, t: State) {
    && Inv(t) && t.cmd == s.cmd && t.net.ended == s.net.ended
    && |t.net.pending| <= |s.net.pending|
    && (s.net.pending != [] && !s.net.cursor.Idle? && !s.net.cursor.Cleared? && t.net.cursor.Idle? ==>
          |t.net.pending| < |s.net.pending|)
  }

  /** From any reachable state, the item in hand can be finished without the command thread; if a
      callback was waiting at the pad, fewer wait afterwards. */
  lemma {:induction false} ItemCompletes(s: State) returns (ls: seq<Label>)
    requires Inv(s)
    ensures Run(s, ls).net.cursor.Idle? && NoCommands(ls) && NearerDone(s, Run(s, ls))
    decreases |s.net.pending|, Stage(s.net.cursor), HeldBy(s.net)
  {
    hide Inv, Step, Enabled;
    if s.net.cursor.Idle? {
      ls := [];
    } else {
      var l := NextLabel(s.net);
      StreamProgress(s);
      StepKeeps(s, l);
      var rest := ItemCompletes(Step(s, l));
      ls := [l] + rest;
      assert Run(s, ls) == Run(Step(s, l), rest);
    }
  }

  lemma NextEvent(s: State) returns (t: State)
    requires Inv(s) && s.net.cursor.Idle? && !s.net.ended
    ensures Inv(t) && t == Exec(s, DoOffer(Event(0))) && t.net.cursor.AtPad? && !t.net.ended
    ensures t.net.pending == s.net.pending && t.cmd == s.cmd
  {
    t := Step(s, DoOffer(Event(0)));
    StepKeeps(s, DoOffer(Event(0)));
  }

  /** As long as items keep coming, every accepted request takes effect: some further run, without
      new commands, ends with nothing waiting and the graph the flag asks for. */
  lemma {:induction false} RequestsTakeEffect(s: State) returns (ls: seq<Label>)
    requires Inv(s) && s.cmd.CmdIdle? && !s.net.ended
    ensures NoCommands(ls) && Inv(Run(s, ls))
    ensures Run(s, ls).net.pending == [] && Run(s, ls).net.cursor.Idle? && !Run(s, ls).net.ended
    ensures Run(s, ls).cmd.CmdIdle?
    decreases |s.net.pending|, if s.net.cursor.Idle? then 0 else 1
  {
    hide Inv, Step, Enabled;
    if s.net.cursor.Idle? && s.net.pending == [] {
      ls := [];
    } else if s.net.cursor.Idle? {
      var t := NextEvent(s);
      var first := ItemCompletes(t);
      var rest := RequestsTakeEffect(Run(t, first));
      ls := [DoOffer(Event(0))] + (first + rest);
      RunAppend(t, first, rest);
      assert Run(s, ls) == Run(t, first + rest);
    } else {
      var first := ItemCompletes(s);
      var rest := RequestsTakeEffect(Run(s, first));
      ls := first + rest;
      RunAppend(s, first, rest);
    }
  }

  lemma {:induction false} StreamLeavesCommands(s: State, ls: seq<Label>)
    requires NoCommands(ls)
    ensures var t := Run(s, ls); t.info == s.info && t.enabled == s.enabled && t.cmd == s.cmd
    decreases |ls|
  {
    if ls == [] {
    } else {
      assert !IsCommand(ls[0]);
      LabelLeavesCommands(s, ls[0]);
      StreamLeavesCommands(Exec(s, ls[0]), ls[1..]);
    }
  }

  lemma LabelLeavesCommands(s: State, l: Label)
    requires !IsCommand(l)
    ensures var t := Exec(s, l); t.info == s.info && t.enabled == s.enabled && t.cmd == s.cmd
  {
    hide FireProbe, LeaveMain, PushDown;
  }

  /** Counted from a moment when `o` items had been offered and `p` callbacks waited: every item that is
      through the pad has taken at least one of them with it, unless none was left. */
  predicate Absorbed(n: Net, o: nat, p: nat) {
    n.pending != [] ==> |n.pending| + |n.offered| - (if n.cursor.AtPad? then 1 else 0) <= o + p
  }

  lemma FireAbsorbs(n: Net, o: nat, p: nat)
    requires NetInv(n) && n.cursor.AtPad? && n.pending != [] && Absorbed(n, o, p)
    ensures Absorbed(FireProbe(n), o, p)
  {
    hide NetInv, FireProbe;
    if AddIsNext(n) { AddEffect(n); } else { PadEffect(n); }
  }

  lemma LeaveAbsorbs(n: Net, bin: nat, o: nat, p: nat)
    requires NetInv(n) && CanLeave(n, bin) && Absorbed(n, o, p)
    ensures Absorbed(LeaveMain(n, bin), o, p)
  {
    hide NetInv, LeaveMain;
    if n.bins[bin].held[0].Stream? { PassEffect(n, bin); } else { RemoveEffect(n, bin); }
  }

  lemma PushAbsorbs(n: Net, o: nat, p: nat)
    requires n.cursor.Cleared? && Absorbed(n, o, p)
    ensures Absorbed(PushDown(n), o, p)
  {
  }

  lemma StepAbsorbs(s: State, l: Label, o: nat, p: nat)
    requires Inv(s) && Enabled(s, l) && !IsCommand(l) && Absorbed(s.net, o, p)
    ensures Absorbed(Step(s, l).net, o, p)
  {
    hide NetInv, OwnersOk, ControlOk, FireProbe, LeaveMain, PushDown;
    match l
    case DoFire => FireAbsorbs(s.net, o, p);
    case DoLeave(b) => LeaveAbsorbs(s.net, b, o, p);
    case DoPush => PushAbsorbs(s.net, o, p);
    case DoOffer(_) =>
    case DoClear =>
  }

  lemma {:induction false} RunAbsorbs(s: State, ls: seq<Label>, o: nat, p: nat)
    requires Inv(s) && NoCommands(ls) && Absorbed(s.net, o, p)
    ensures Absorbed(Run(s, ls).net, o, p)
    decreases |ls|
  {
    hide Inv, Step, Enabled, Absorbed;
    if ls == [] {
    } else {
      assert !IsCommand(ls[0]);
      if Enabled(s, ls[0]) {
        StepKeeps(s, ls[0]);
        StepAbsorbs(s, ls[0], o, p);
      }
      RunAbsorbs(Exec(s, ls[0]), ls[1..], o, p);
    }
  }

  /** However items and main's output are interleaved: once as many further items as callbacks were waiting
      have been offered, and none is inside the pad, nothing waits any more and the pipeline is exactly the
      one the flag asks for. */
  lemma EnoughItemsObeyTheFlag(s: State, ls: seq<Label>)
    requires Reachable(s) && s.cmd.CmdIdle? && NoCommands(ls)
    requires Run(s, ls).net.cursor.Idle? || Run(s, ls).net.cursor.Cleared?
    requires |Run(s, ls).net.offered| >= |s.net.offered| + |s.net.pending|
    ensures Run(s, ls).net.pending == [] && Run(s, ls).enabled == s.enabled
    ensures Run(s, ls).net.links == Graph(s.info.mainElement) && Run(s, ls).net.members == Members(s.info.mainElement)
    ensures s.enabled <==> s.info.mainElement.Some?
  {
    hide Inv, NoCommands, Reachable, Run;
    ReachableInv(s);
    RunAbsorbs(s, ls, |s.net.offered|, |s.net.pending|);
    StreamLeavesCommands(s, ls);
    ReachableOn(s, ls);
    WaitingRequestsMeetTheFlag(s);
    DrainedGraphMatchesFlag(Run(s, ls));
  }

  /** And there is always such a continuation: from every reachable state the pipeline can be brought to the
      one the flag asks for by letting items flow, with no further command. */
  lemma FlagIsEventuallyObeyed(s: State) returns (ls: seq<Label>)
    requires Reachable(s) && s.cmd.CmdIdle? && !s.net.ended
    ensures NoCommands(ls) && Run(s, ls).enabled == s.enabled
    ensures Run(s, ls).net.links == Graph(s.info.mainElement)
    ensures s.enabled <==> s.info.mainElement.Some?
  {
    hide Inv, NoCommands, Reachable, Run;
    ReachableInv(s);
    ls := RequestsTakeEffect(s);
    StreamLeavesCommands(s, ls);
    ReachableOn(s, ls);
    WaitingRequestsMeetTheFlag(s);
    DrainedGraphMatchesFlag(Run(s, ls));
  }
}
