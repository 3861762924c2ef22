/** Every step keeps the invariant. */
module LiveLinkSteps {
  import opened Wrappers
  import opened LiveLink
  import opened LiveLinkInvariant

  // ---------------------------------------------------------------------------
  // Small facts
  // ---------------------------------------------------------------------------

  lemma {:induction false} SurvivorsIgnoreLater(n: nat, gone: set<nat>, later: nat)
    requires n <= later
    ensures Survivors(n, gone + {later}) == Survivors(n, gone)
  {
    if n == 0 {
    } else {
      SurvivorsIgnoreLater(n - 1, gone, later);
    }
  }

  lemma InitNetKeeps(configured: bool)
    ensures NetInv(Init(configured).net)
  {
    var n := Init(configured).net;
    assert n.accepted[..0] == [];
    assert Survivors(0, {}) == [];
    assert Positions([]) == [];
    assert Wrap([], InChain(n)) == [];
    if configured {
      assert InChain(n) == Some(0);
    } else {
      assert InChain(n) == None;
    }
  }

  lemma InitKeeps(configured: bool)
    ensures Inv(Init(configured))
  {
    hide NetInv;
    InitNetKeeps(configured);
  }

  // ---------------------------------------------------------------------------
  // Command thread
  // ---------------------------------------------------------------------------

  /** The flow is unaffected by anything that leaves it in place and only extends the history. */
  lemma FlowFrame(n: Net, m: Net)
    requires FlowOk(n) && Flow(m) == Flow(n) && InHand(m.cursor) == InHand(n.cursor)
    requires m.offered == n.offered && m.dropped == n.dropped && m.lost == n.lost && m.initial == n.initial
    requires n.accepted <= m.accepted && n.applied <= m.applied <= |m.accepted|
    ensures FlowOk(m)
  {
    forall i | 0 <= i < |Flow(m)| ensures Tracked(m, Flow(m)[i]) {
      assert Tracked(n, Flow(n)[i]);
      var stamp := Flow(n)[i].u.stamp;
      assert m.accepted[..stamp] == n.accepted[..stamp];
    }
  }

  lemma QueueFrame(n: Net, m: Net)
    requires Queued(n) && m.accepted == n.accepted && m.pending == n.pending && Waiting(m) == Waiting(n)
    requires forall c :: c in n.heap ==> c in m.heap && m.heap[c] == n.heap[c]
    ensures Queued(m)
  {
    forall i | 0 <= i < |m.pending| ensures Answers(m, m.pending[i], m.accepted[Waiting(m) + i]) {
      assert Answers(n, n.pending[i], n.accepted[Waiting(n) + i]);
    }
  }

  lemma NewBinBins(n: Net, m: Net)
    requires BinsOk(n) && FreshAdds(n) && ArmedOk(n)
    requires m == n.(bins := n.bins[n.nextBin := FRESH_MAIN], nextBin := n.nextBin + 1)
    ensures BinsOk(m) && FreshAdds(m) && ArmedOk(m) && Flow(m) == Flow(n)
  {
    assert InChain(m) == InChain(n);
    assert n.nextBin !in n.bins;
  }

  lemma NewBinNetKeeps(n: Net)
    requires NetInv(n)
    ensures NetInv(n.(bins := n.bins[n.nextBin := FRESH_MAIN], nextBin := n.nextBin + 1))
    ensures n.nextBin !in n.bins
  {
    var m := n.(bins := n.bins[n.nextBin := FRESH_MAIN], nextBin := n.nextBin + 1);
    NewBinBins(n, m);
    FlowFrame(n, m);
    QueueFrame(n, m);
  }

  lemma EnableControl(s: State, built: bool)
    requires ControlOk(s) && BinsOk(s.net) && FreshAdds(s.net) && Wired(s.net) && s.cmd.CmdIdle?
    ensures ControlOk(BeginEnable(s, built))
  {
    assert s.net.nextBin !in s.net.bins;
    forall i | s.net.applied <= i < |s.net.accepted| && s.net.accepted[i].kind.AddCb?
      ensures s.net.accepted[i].main != Some(s.net.nextBin)
    {
      assert s.net.accepted[i].main.Some?;
    }
  }

  lemma OwnersFrame(s: State, t: State)
    requires OwnersOk(s) && t.net.pending == s.net.pending && ArmedCopies(t.net) == ArmedCopies(s.net)
    requires CommandCopies(t.cmd) == CommandCopies(s.cmd)
    requires t.net.heap == s.net.heap && t.net.nextCopy == s.net.nextCopy
    ensures OwnersOk(t)
  {
  }

  lemma EnableOwners(s: State, built: bool)
    requires OwnersOk(s) && s.cmd.CmdIdle? && s.net.nextBin !in s.net.bins
    ensures OwnersOk(BeginEnable(s, built))
  {
    OwnersFrame(s, BeginEnable(s, built));
  }

  lemma EnableKeeps(s: State, built: bool)
    requires Inv(s) && s.cmd.CmdIdle?
    ensures Inv(BeginEnable(s, built))
  {
    hide BinsOk, FreshAdds, ControlOk, OwnersOk, FlowOk, Wired, Queued, ArmedOk, CursorOk, DropsOk;
    NewBinNetKeeps(s.net);
    EnableControl(s, built);
    EnableOwners(s, built);
  }

  lemma DisableKeeps(s: State)
    requires Inv(s) && s.cmd.CmdIdle?
    ensures Inv(BeginDisable(s))
  {
  }

  lemma CopyNetKeeps(n: Net, info: LinkUnlinkInfo)
    requires NetInv(n) && n.nextCopy !in n.heap
    ensures NetInv(MakeCopy(n, info)) && Flow(MakeCopy(n, info)) == Flow(n)
  {
    var m := MakeCopy(n, info);
    assert InChain(m) == InChain(n);
    assert Flow(m) == Flow(n);
    FlowFrame(n, m);
    QueueFrame(n, m);
  }

  lemma CopyKeeps(s: State)
    requires Inv(s) && (s.cmd.EnGateClosed? || s.cmd.DisGateClosed?)
    ensures Inv(Advance(s))
  {
    var t := Advance(s);
    CopyNetKeeps(s.net, s.info);
    CopyOwners(s, t);
  }

  lemma CopyOwners(s: State, t: State)
    requires OwnersOk(s) && CommandCopies(s.cmd) == {}
    requires t.net == MakeCopy(s.net, s.info)
    requires (t.cmd == EnCopied(s.net.nextCopy) || t.cmd == DisCopied(s.net.nextCopy))
    ensures OwnersOk(t)
  {
    var n, m := s.net, t.net;
    assert n.nextCopy !in n.heap;
    assert m.heap.Keys == n.heap.Keys + {n.nextCopy};
    assert Copies(m.pending) == Copies(n.pending);
    assert ArmedCopies(m) == ArmedCopies(n);
  }

  lemma AlternatesExtends(initial: Option<nat>, history: seq<Request>, r: Request)
    requires Alternates(initial, history) && Accepts(Chain(initial, history), r)
    ensures Alternates(initial, history + [r])
  {
    var h := history + [r];
    forall i {:trigger h[i]} | 0 <= i < |h| ensures Accepts(Chain(initial, h[..i]), h[i]) {
      if i < |history| {
        assert h[..i] == history[..i];
        assert h[i] == history[i];
      } else {
        assert h[..i] == history;
      }
    }
  }

  /** Appending to the history changes nothing that was already carried out. */
  lemma InstallKeepsChain(n: Net, kind: Kind, copy: nat)
    requires n.applied <= |n.accepted|
    ensures InChain(Install(n, kind, copy)) == InChain(n)
    ensures Flow(Install(n, kind, copy)) == Flow(n)
  {
    var m := Install(n, kind, copy);
    assert m.accepted[..m.applied] == n.accepted[..n.applied];
    assert InChain(m) == InChain(n);
  }

  lemma InstallQueue(n: Net, kind: Kind, copy: nat)
    requires Queued(n) && ArmedOk(n) && copy in n.heap && Endpoints(n.heap[copy]) && n.heap[copy].mainElement.Some?
    ensures Queued(Install(n, kind, copy)) && ArmedOk(Install(n, kind, copy))
  {
    var m := Install(n, kind, copy);
    forall i | 0 <= i < |m.pending| ensures Answers(m, m.pending[i], m.accepted[Waiting(m) + i]) {
      if i < |n.pending| {
        assert Answers(n, n.pending[i], n.accepted[Waiting(n) + i]);
      }
    }
  }

  lemma InstallBins(n: Net, kind: Kind, copy: nat)
    requires BinsOk(n) && n.applied <= |n.accepted|
    ensures BinsOk(Install(n, kind, copy))
  {
    hide Flow, FRESH_MAIN;
    InstallKeepsChain(n, kind, copy);
    var m := Install(n, kind, copy);
    if InChain(n).Some? { assert LiveMain(m, m.bins[InChain(n).value]); }
    hide InChain, LiveMain, RetiredMain;
  }

  /** The request may be installed: it suits the history, and an add brings a bin nobody has asked for yet. */
  ghost predicate MayFollow(n: Net, kind: Kind, copy: nat) {
    && copy in n.heap && Endpoints(n.heap[copy])
    && Accepts(Chain(n.initial, n.accepted), Request(kind, n.heap[copy].mainElement))
    && (kind.AddCb? ==>
          var main := n.heap[copy].mainElement;
          && main.value in n.bins && n.bins[main.value].phase == Created
          && (forall i :: n.applied <= i < |n.accepted| && n.accepted[i].kind.AddCb? ==> n.accepted[i].main != main))
  }

  lemma InstallFresh(n: Net, kind: Kind, copy: nat)
    requires FreshAdds(n) && MayFollow(n, kind, copy)
    ensures FreshAdds(Install(n, kind, copy))
  {
    hide Chain, Endpoints;
  }

  lemma InstallWired(n: Net, kind: Kind, copy: nat)
    requires Wired(n) && MayFollow(n, kind, copy)
    ensures Wired(Install(n, kind, copy))
  {
    hide Flow, Alternates;
    AlternatesExtends(n.initial, n.accepted, Request(kind, n.heap[copy].mainElement));
    InstallKeepsChain(n, kind, copy);
  }

  lemma InstallNetKeeps(n: Net, kind: Kind, copy: nat)
    requires NetInv(n) && MayFollow(n, kind, copy)
    ensures NetInv(Install(n, kind, copy))
  {
    var m := Install(n, kind, copy);
    InstallWired(n, kind, copy);
    InstallKeepsChain(n, kind, copy);
    InstallQueue(n, kind, copy);
    InstallBins(n, kind, copy);
    InstallFresh(n, kind, copy);
    FlowFrame(n, m);
    assert m.accepted[..m.applied] == n.accepted[..n.applied];
    hide Wired, Queued, ArmedOk, BinsOk, FreshAdds, FlowOk, Alternates;
  }

  lemma CopiesAppend(ps: seq<Probe>, p: Probe)
    ensures Copies(ps + [p]) == Copies(ps) + {p.copy}
  {
    var qs := ps + [p];
    assert qs[|ps|] == p;
    forall c | c in Copies(ps) ensures c in Copies(qs) {
      var i :| 0 <= i < |ps| && ps[i].copy == c;
      assert qs[i].copy == c;
    }
  }

  lemma InstallOwners(s: State, t: State, kind: Kind)
    requires OwnersOk(s) && (s.cmd.EnCopied? || s.cmd.DisCopied?)
    requires t.net == Install(s.net, kind, s.cmd.copy)
    requires CommandCopies(t.cmd) == {}
    ensures OwnersOk(t)
  {
    var n, m := s.net, t.net;
    assert forall i :: 0 <= i < |n.pending| ==> n.pending[i].copy in Copies(n.pending) && m.pending[i] == n.pending[i];
    CopiesAppend(n.pending, Probe(kind, s.cmd.copy));
    assert ArmedCopies(m) == ArmedCopies(n);
    hide ArmedCopies, Copies;
  }

  lemma CommandMayFollow(s: State)
    requires Inv(s) && (s.cmd.EnCopied? || s.cmd.DisCopied?)
    ensures MayFollow(s.net, if s.cmd.EnCopied? then AddCb else PadCb, s.cmd.copy)
  {
    hide NetInv, OwnersOk;
  }

  lemma InstallKeeps(s: State)
    requires Inv(s) && (s.cmd.EnCopied? || s.cmd.DisCopied?)
    ensures Inv(Advance(s))
  {
    hide Wired, Queued, ArmedOk, BinsOk, FreshAdds, FlowOk, CursorOk, DropsOk;
    var t := Advance(s);
    var kind := if s.cmd.EnCopied? then AddCb else PadCb;
    assert t.net == Install(s.net, kind, s.cmd.copy);
    CommandMayFollow(s);
    InstallNetKeeps(s.net, kind, s.cmd.copy);
    InstallOwners(s, t, kind);
  }

  lemma AdvanceKeeps(s: State)
    requires Inv(s) && !s.cmd.CmdIdle?
    ensures Inv(Advance(s))
  {
    hide NetInv;
    match s.cmd
    case EnGateClosed => CopyKeeps(s);
    case DisGateClosed => CopyKeeps(s);
    case EnCopied(_) => InstallKeeps(s);
    case DisCopied(_) => InstallKeeps(s);
    case _ => OtherStatementsKeep(s);
  }

  /** The statements that only change the command thread's globals. */
  lemma OtherStatementsKeep(s: State)
    requires Inv(s)
    requires (s.cmd.EnBuilt? || s.cmd.EnInstalled? || s.cmd.DisFlagged? || s.cmd.DisInstalled? || s.cmd.DisForgotten?)
    ensures Inv(Advance(s))
  {
    hide NetInv, MakeCopy, Install;
    OwnersFrame(s, Advance(s));
    hide OwnersOk;
  }

  // ---------------------------------------------------------------------------
  // Streaming thread: arriving, clearing, pushing
  // ---------------------------------------------------------------------------

  lemma OfferFlow(n: Net, item: Payload)
    requires FlowOk(n) && DropsOk(n) && n.cursor.Idle?
    ensures FlowOk(Offer(n, item)) && Flow(Offer(n, item)) == Flow(n)
  {
    var m := Offer(n, item);
    assert InChain(m) == InChain(n);
    assert Flow(m) == Flow(n);
    forall i | 0 <= i < |Flow(m)| ensures Tracked(m, Flow(m)[i]) {
      assert Tracked(n, Flow(n)[i]);
    }
    assert |n.offered| !in n.dropped;
    assert Survivors(|m.offered|, m.dropped) == Survivors(|n.offered|, n.dropped) + [|n.offered|];
  }

  lemma OfferKeeps(n: Net, item: Payload)
    requires NetInv(n) && n.cursor.Idle? && !n.ended
    ensures NetInv(Offer(n, item))
  {
    var m := Offer(n, item);
    assert InChain(m) == InChain(n);
    OfferFlow(n, item);
    QueueFrame(n, m);
    hide FlowOk, Queued;
  }

  lemma ClearKeeps(n: Net)
    requires NetInv(n) && n.cursor.AtPad? && n.pending == []
    ensures NetInv(ClearPad(n))
  {
    var m := ClearPad(n);
    assert InChain(m) == InChain(n);
    assert Flow(m) == Flow(n);
    FlowFrame(n, m);
    QueueFrame(n, m);
    hide FlowOk;
  }

  lemma PositionsAppend(ds: seq<Delivery>, d: Delivery)
    ensures d.u.Stream? ==> Positions(ds + [d]) == Positions(ds) + [d.u.pos]
  {
  }

  function InHandUnit(c: Cursor): Unit
    requires c.Cleared?
  {
    Stream(c.pos, c.item, c.arrived, c.stamp)
  }

  function Entered(m: MainState, u: Unit): MainState {
    m.(held := m.held + [u], entered := m.entered + [u], eos := u.IsEos())
  }

  function AfterPush(n: Net, main: Option<nat>): Net
    requires n.cursor.Cleared? && (main.Some? ==> main.value in n.bins)
  {
    var u := InHandUnit(n.cursor);
    match main
    case None => n.(cursor := Idle, delivered := n.delivered + [Delivery(u, None)])
    case Some(b) => n.(cursor := Idle, bins := n.bins[b := Entered(n.bins[b], u)])
  }

  /** Pushing always finds somewhere to go: the next element, or a playing bin that still takes items. */
  lemma PushEffect(n: Net)
    requires NetInv(n) && n.cursor.Cleared?
    ensures (InChain(n).Some? ==> InChain(n).value in n.bins) && PushDown(n) == AfterPush(n, InChain(n))
  {
    hide FlowOk, DropsOk, Queued, ArmedOk, FreshAdds;
  }

  /** What pushing does under the invariant: the item joins the flow. */
  lemma PushExtendsFlow(n: Net)
    requires NetInv(n) && n.cursor.Cleared?
    ensures PushDown(n).lost == n.lost && InChain(PushDown(n)) == InChain(n)
    ensures Flow(PushDown(n)) == Flow(n) + [Delivery(InHandUnit(n.cursor), InChain(n))]
  {
    hide FlowOk, DropsOk, Queued, ArmedOk, FreshAdds, PushDown;
    PushEffect(n);
    var m := AfterPush(n, InChain(n));
    assert InChain(m) == InChain(n);
    if InChain(n).Some? {
      var held := n.bins[InChain(n).value].held;
      assert StreamPart(held) == held;
      assert Wrap(held + [InHandUnit(n.cursor)], InChain(n))
        == Wrap(held, InChain(n)) + [Delivery(InHandUnit(n.cursor), InChain(n))];
    }
  }

  lemma EnterLive(n: Net, m: Net, x: MainState, u: Unit)
    requires LiveMain(n, x) && !n.cursor.Sending? && u.Stream? && !x.eos
    requires m.cursor.Idle? && (u.item.Eos? ==> m.ended)
    requires n.cursor.Cleared?
    ensures LiveMain(m, Entered(x, u))
  {
    assert x.left + (x.held + [u]) == (x.left + x.held) + [u];
  }

  lemma PushBins(n: Net)
    requires NetInv(n) && n.cursor.Cleared?
    ensures BinsOk(PushDown(n))
  {
    hide FlowOk, DropsOk, Queued, ArmedOk, FreshAdds, PushDown, LiveMain;
    PushEffect(n);
    var m := AfterPush(n, InChain(n));
    assert InChain(m) == InChain(n);
    if InChain(n).Some? {
      StillTakesItems(n);
      EnterLive(n, m, n.bins[InChain(n).value], InHandUnit(n.cursor));
    }
    hide Wired, CursorOk;
  }

  lemma PushFreshAdds(n: Net)
    requires NetInv(n) && n.cursor.Cleared?
    ensures FreshAdds(PushDown(n))
  {
    hide FlowOk, DropsOk, Queued, ArmedOk, PushDown, LiveMain, Wired, CursorOk;
    PushEffect(n);
  }

  lemma StillTakesItems(n: Net)
    requires NetInv(n) && n.cursor.Cleared? && InChain(n).Some?
    ensures InChain(n).value in n.bins && n.bins[InChain(n).value].phase == Playing && !n.bins[InChain(n).value].eos
    ensures n.cursor.item.Eos? ==> n.ended
  {
    hide FlowOk, DropsOk, Queued, ArmedOk, FreshAdds;
  }

  lemma PushFlow(n: Net)
    requires NetInv(n) && n.cursor.Cleared?
    ensures FlowOk(PushDown(n))
  {
    hide DropsOk, Queued, ArmedOk, FreshAdds, PushDown, BinsOk;
    PushEffect(n);
    PushExtendsFlow(n);
    var d := Delivery(InHandUnit(n.cursor), InChain(n));
    FlowExtends(n, AfterPush(n, InChain(n)), d);
  }

  lemma FlowExtends(n: Net, m: Net, d: Delivery)
    requires FlowOk(n) && CursorOk(n) && Flow(m) == Flow(n) + [d] && n.cursor.Cleared? && m.cursor.Idle?
    requires d == Delivery(InHandUnit(n.cursor), InChain(n)) && n.applied <= |n.accepted|
    requires m.offered == n.offered && m.dropped == n.dropped && m.lost == n.lost && m.initial == n.initial
    requires m.accepted == n.accepted && m.applied == n.applied
    ensures FlowOk(m)
  {
    PositionsAppend(Flow(n), d);
    forall i | 0 <= i < |Flow(m)| ensures Tracked(m, Flow(m)[i]) {
      if i < |Flow(n)| { assert Tracked(n, Flow(n)[i]); }
    }
    forall i, j | 0 <= i < j < |Flow(m)|
        ensures Flow(m)[i].u.Stream? && Flow(m)[j].u.Stream? ==> Flow(m)[i].u.stamp <= Flow(m)[j].u.stamp {
      assert Tracked(n, Flow(n)[i]);
    }
  }

  lemma PushKeeps(n: Net)
    requires NetInv(n) && n.cursor.Cleared?
    ensures NetInv(PushDown(n))
  {
    hide FlowOk, BinsOk, FreshAdds, Queued, PushDown;
    PushEffect(n);
    PushBins(n);
    PushFreshAdds(n);
    PushFlow(n);
    QueueFrame(n, PushDown(n));
    assert InChain(PushDown(n)) == InChain(n);
  }

  // ---------------------------------------------------------------------------
  // Streaming thread: a waiting add fires
  // ---------------------------------------------------------------------------

  predicate AddIsNext(n: Net) {
    n.cursor.AtPad? && n.pending != [] && n.pending[0].kind.AddCb?
  }

  /** What the oldest probe finds: its request is the next one of the history and its snapshot is intact. */
  lemma OldestProbe(n: Net)
    requires NetInv(n) && n.cursor.AtPad? && n.pending != []
    ensures n.applied < |n.accepted| && Answers(n, n.pending[0], n.accepted[n.applied])
    ensures Accepts(InChain(n), n.accepted[n.applied])
  {
    assert Answers(n, n.pending[0], n.accepted[Waiting(n)]);
  }

  function AfterAdd(n: Net, bin: nat): Net
    requires AddIsNext(n)
  {
    n.(pending := n.pending[1..], links := Graph(Some(bin)), members := {bin},
       bins := n.bins[bin := FRESH_MAIN.(phase := Playing)], heap := n.heap - {n.pending[0].copy},
       applied := n.applied + 1, cursor := Idle, dropped := n.dropped + {n.cursor.pos})
  }

  /** A firing add finds the previous element linked straight to the next and no bin in the pipeline,
      so its unlink and both links succeed. */
  lemma AddEffect(n: Net)
    requires NetInv(n) && AddIsNext(n)
    ensures n.applied < |n.accepted| && n.accepted[n.applied].main.Some?
    ensures InChain(n) == None && n.links == Graph(None) && n.members == {}
    ensures FireProbe(n) == AfterAdd(n, n.accepted[n.applied].main.value)
    ensures n.accepted[n.applied].kind == AddCb
  {
    hide FlowOk, DropsOk, CursorOk, ArmedOk;
    OldestProbe(n);
    var bin := n.accepted[n.applied].main.value;
    var cut := n.links - {Prev};
    assert cut == map[PrevPrev := Prev];
    assert cut[Prev := Main(bin)][Main(bin) := Next] == Graph(Some(bin));
    assert CanLink(cut, {bin}, Prev, Main(bin));
    assert CanLink(cut[Prev := Main(bin)], {bin}, Main(bin), Next);
    assert n.bins[bin] == FRESH_MAIN;
  }

  lemma ChainAfterNext(n: Net, m: Net)
    requires n.applied < |n.accepted| && m.accepted == n.accepted
    requires m.initial == n.initial && m.applied == n.applied + 1
    ensures InChain(m) == if n.accepted[n.applied].kind.AddCb? then n.accepted[n.applied].main else None
    ensures Adds(m.accepted[..m.applied])
      == Adds(n.accepted[..n.applied]) + if n.accepted[n.applied].kind.AddCb? then 1 else 0
  {
    var h := m.accepted[..m.applied];
    assert h[..|h| - 1] == n.accepted[..n.applied];
  }

  /** Dropping the item in hand takes its position, the last one, out of the survivors. */
  lemma DropLast(before: seq<nat>, n: nat, gone: set<nat>)
    requires n > 0 && n - 1 !in gone && before + [n - 1] == Survivors(n, gone)
    ensures before == Survivors(n, gone + {n - 1})
  {
    SurvivorsIgnoreLater(n - 1, gone, n - 1);
    assert before + [n - 1] == Survivors(n - 1, gone) + [n - 1];
    assert before == (before + [n - 1])[..|before|];
    assert Survivors(n - 1, gone) == (Survivors(n - 1, gone) + [n - 1])[..|Survivors(n - 1, gone)|];
  }

  lemma AddDrops(n: Net)
    requires NetInv(n) && AddIsNext(n)
    ensures DropsOk(FireProbe(n)) && CursorOk(FireProbe(n))
  {
    AddEffect(n);
    ChainAfterNext(n, FireProbe(n));
  }

  lemma AddFlow(n: Net)
    requires NetInv(n) && AddIsNext(n)
    ensures FlowOk(FireProbe(n)) && Flow(FireProbe(n)) == Flow(n)
  {
    hide BinsOk, Queued, ArmedOk, FreshAdds, FireProbe;
    var m := FireProbe(n);
    AddEffect(n);
    ChainAfterNext(n, m);
    assert Flow(m) == Flow(n);
    DropLast(Positions(Flow(n)), |n.offered|, n.dropped);
    forall i | 0 <= i < |Flow(m)| ensures Tracked(m, Flow(m)[i]) {
      assert Tracked(n, Flow(n)[i]);
    }
  }

  predicate DistinctCopies(ps: seq<Probe>) {
    forall i, j :: 0 <= i < j < |ps| ==> ps[i].copy != ps[j].copy
  }

  /** Removing the oldest probe and releasing its copy leaves the others waiting. */
  lemma QueueAfterFirst(n: Net, m: Net)
    requires Queued(n) && n.pending != [] && DistinctCopies(n.pending)
    requires m.pending == n.pending[1..] && m.accepted == n.accepted && Waiting(m) == Waiting(n) + 1
    requires m.heap == n.heap || m.heap == n.heap - {n.pending[0].copy}
    ensures Queued(m)
  {
    forall i | 0 <= i < |m.pending| ensures Answers(m, m.pending[i], m.accepted[Waiting(m) + i]) {
      assert Answers(n, n.pending[i + 1], n.accepted[Waiting(n) + i + 1]);
    }
  }

  lemma AddBins(n: Net)
    requires NetInv(n) && AddIsNext(n)
    ensures BinsOk(FireProbe(n)) && FreshAdds(FireProbe(n))
  {
    var m := FireProbe(n);
    AddEffect(n);
    ChainAfterNext(n, m);
    forall i | m.applied <= i < |m.accepted| && m.accepted[i].kind.AddCb? && m.accepted[i].main.Some?
      ensures m.accepted[i].main.value in m.bins && m.bins[m.accepted[i].main.value].phase == Created
    {
      assert m.accepted[i].main != n.accepted[n.applied].main;
    }
  }

  lemma AddKeeps(n: Net)
    requires NetInv(n) && AddIsNext(n) && DistinctCopies(n.pending)
    ensures NetInv(FireProbe(n))
  {
    var m := FireProbe(n);
    AddEffect(n);
    ChainAfterNext(n, m);
    QueueAfterFirst(n, m);
    AddBins(n);
    AddDrops(n);
    AddFlow(n);
  }

  // ---------------------------------------------------------------------------
  // Streaming thread: a waiting removal fires
  // ---------------------------------------------------------------------------

  predicate RemoveIsNext(n: Net) {
    n.cursor.AtPad? && n.pending != [] && n.pending[0].kind.PadCb?
  }

  function AfterPad(n: Net, bin: nat): Net
    requires RemoveIsNext(n) && bin in n.bins
  {
    var m := n.bins[bin];
    n.(pending := n.pending[1..],
       bins := n.bins[bin := MainState(Playing, true, m.held + [InjectedEos], m.entered + [InjectedEos],
          m.left, [n.pending[0].copy])],
       cursor := Sending(n.cursor.pos, n.cursor.item, n.cursor.arrived, bin))
  }

  /** A firing removal finds its own bin in the chain, playing and not yet ended. */
  lemma PadEffect(n: Net)
    requires NetInv(n) && RemoveIsNext(n)
    ensures n.applied < |n.accepted| && n.accepted[n.applied].main.Some? && InChain(n) == n.accepted[n.applied].main
    ensures InChain(n).value in n.bins && FireProbe(n) == AfterPad(n, InChain(n).value)
    ensures n.bins[InChain(n).value].phase == Playing
    ensures n.accepted[n.applied].kind == PadCb
  {
    hide FlowOk, DropsOk, CursorOk, ArmedOk;
    OldestProbe(n);
    assert n.bins[InChain(n).value].srcProbes + [n.pending[0].copy] == [n.pending[0].copy];
  }

  lemma PadFlow(n: Net)
    requires NetInv(n) && RemoveIsNext(n)
    ensures InChain(FireProbe(n)) == InChain(n) && FlowOk(FireProbe(n)) && Flow(FireProbe(n)) == Flow(n)
  {
    var m := FireProbe(n);
    PadEffect(n);
    assert InChain(m) == InChain(n);
    var b := InChain(n).value;
    assert StreamPart(m.bins[b].held) == n.bins[b].held;
    assert StreamPart(n.bins[b].held) == n.bins[b].held;
    assert Flow(m) == Flow(n);
    FlowFrame(n, m);
  }

  lemma PadBins(n: Net)
    requires NetInv(n) && RemoveIsNext(n)
    ensures BinsOk(FireProbe(n)) && FreshAdds(FireProbe(n))
  {
    var m := FireProbe(n);
    PadEffect(n);
    assert InChain(m) == InChain(n);
    var b := InChain(n).value;
    var x := n.bins[b];
    assert x.left + (x.held + [InjectedEos]) == (x.left + x.held) + [InjectedEos];
    assert StreamPart(m.bins[b].held) == x.held;
    assert LiveMain(m, m.bins[b]);
  }

  lemma PadArmed(n: Net)
    requires NetInv(n) && RemoveIsNext(n)
    ensures ArmedOk(FireProbe(n))
  {
    PadEffect(n);
    assert Answers(n, n.pending[0], n.accepted[Waiting(n)]);
  }

  lemma PadKeeps(n: Net)
    requires NetInv(n) && RemoveIsNext(n) && DistinctCopies(n.pending)
    ensures NetInv(FireProbe(n))
  {
    var m := FireProbe(n);
    PadEffect(n);
    PadFlow(n);
    PadBins(n);
    PadArmed(n);
    QueueAfterFirst(n, m);
  }

  // ---------------------------------------------------------------------------
  // Main element: a unit leaves its source pad
  // ---------------------------------------------------------------------------

  predicate CanLeave(n: Net, bin: nat) {
    bin in n.bins && n.bins[bin].phase == Playing && n.bins[bin].held != []
  }

  function AfterPass(n: Net, bin: nat): Net
    requires CanLeave(n, bin)
  {
    var x := n.bins[bin];
    n.(bins := n.bins[bin := x.(held := x.held[1..], left := x.left + [x.held[0]])],
       delivered := n.delivered + [Delivery(x.held[0], Some(bin))])
  }

  /** A stream item that leaves the bin in the chain is delivered, armed probe or not. */
  lemma PassEffect(n: Net, bin: nat)
    requires NetInv(n) && CanLeave(n, bin) && n.bins[bin].held[0].Stream?
    ensures InChain(n) == Some(bin) && LeaveMain(n, bin) == AfterPass(n, bin)
  {
    hide FlowOk, DropsOk, CursorOk, Queued, FreshAdds;
    var x := n.bins[bin];
    if n.cursor.Sending? {
      assert !x.held[0].item.Eos?;
    }
    assert Linked(n.links, Main(bin), Next);
  }

  lemma WrapHead(us: seq<Unit>, via: Option<nat>)
    requires us != []
    ensures Wrap(us, via) == [Delivery(us[0], via)] + Wrap(us[1..], via)
  {
  }

  lemma StreamPartTail(held: seq<Unit>)
    requires held != [] && held[0].Stream?
    ensures StreamPart(held) != [] && StreamPart(held)[0] == held[0] && StreamPart(held[1..]) == StreamPart(held)[1..]
  {
  }

  lemma PassFlow(n: Net, bin: nat)
    requires NetInv(n) && CanLeave(n, bin) && n.bins[bin].held[0].Stream?
    ensures FlowOk(LeaveMain(n, bin)) && Flow(LeaveMain(n, bin)) == Flow(n)
  {
    hide NetInv, StreamPart, LeaveMain, FlowOk;
    var m := LeaveMain(n, bin);
    PassEffect(n, bin);
    assert InChain(m) == InChain(n);
    var held := n.bins[bin].held;
    StreamPartTail(held);
    WrapHead(StreamPart(held), Some(bin));
    assert Flow(m) == Flow(n);
    FlowIsOk(n);
    FlowFrame(n, m);
  }

  lemma FlowIsOk(n: Net)
    requires NetInv(n)
    ensures FlowOk(n) && n.applied <= |n.accepted|
  {
  }

  lemma PassLive(n: Net, m: Net, x: MainState)
    requires LiveMain(n, x) && x.held != [] && x.held[0].Stream?
    requires m.cursor == n.cursor && m.ended == n.ended
    ensures LiveMain(m, x.(held := x.held[1..], left := x.left + [x.held[0]]))
  {
    var y := x.(held := x.held[1..], left := x.left + [x.held[0]]);
    assert x.held == [x.held[0]] + x.held[1..];
    assert y.left + y.held == x.left + x.held;
    assert StreamPart(y.held) == StreamPart(x.held)[1..];
  }

  lemma PassBins(n: Net, bin: nat)
    requires NetInv(n) && CanLeave(n, bin) && n.bins[bin].held[0].Stream?
    ensures BinsOk(LeaveMain(n, bin)) && FreshAdds(LeaveMain(n, bin)) && ArmedOk(LeaveMain(n, bin))
  {
    var m := LeaveMain(n, bin);
    PassEffect(n, bin);
    assert InChain(m) == InChain(n);
    PassLive(n, m, n.bins[bin]);
  }

  lemma PassKeeps(n: Net, bin: nat)
    requires NetInv(n) && CanLeave(n, bin) && n.bins[bin].held[0].Stream?
    ensures NetInv(LeaveMain(n, bin))
  {
    var m := LeaveMain(n, bin);
    PassEffect(n, bin);
    PassFlow(n, bin);
    PassBins(n, bin);
    assert InChain(m) == InChain(n);
    QueueFrame(n, m);
  }

  function AfterRemove(n: Net, bin: nat): Net
    requires n.cursor.Sending? && CanLeave(n, bin) && n.bins[bin].srcProbes != []
  {
    n.(bins := n.bins[bin := n.bins[bin].(phase := Nulled, held := [], srcProbes := [])],
       members := {}, links := Graph(None), heap := n.heap - {n.bins[bin].srcProbes[0]},
       applied := n.applied + 1, cursor := AtPad(n.cursor.pos, n.cursor.item, n.cursor.arrived))
  }

  lemma LoneInjected(held: seq<Unit>)
    requires held != [] && held[|held| - 1].InjectedEos? && AllStream(StreamPart(held))
    ensures |held| == 1 || held[0].Stream?
  {
    if |held| > 1 {
      assert StreamPart(held)[0] == held[0];
    }
  }

  lemma InjectedIsAlone(n: Net, bin: nat)
    requires NetInv(n) && CanLeave(n, bin) && n.bins[bin].held[0].InjectedEos?
    ensures InChain(n) == Some(bin) && n.cursor.Sending? && n.cursor.bin == bin
    ensures n.bins[bin].held == [InjectedEos] && |n.bins[bin].srcProbes| == 1
  {
    hide FlowOk, DropsOk, CursorOk, Queued, FreshAdds;
    var x := n.bins[bin];
    assert n.cursor.Sending?;
    LoneInjected(x.held);
  }

  lemma RelinkNeighbours(bin: nat)
    ensures ElementLink(WithoutElem(Graph(Some(bin)), Main(bin)), {}, Prev, Next) == Graph(None)
  {
    var cut := WithoutElem(Graph(Some(bin)), Main(bin));
    assert cut == map[PrevPrev := Prev];
    assert cut[Prev := Next] == Graph(None);
    assert CanLink(cut, {}, Prev, Next);
  }

  /** The injected end-of-stream leaves last: nothing is held any more when the bin goes to NULL. */
  lemma RemoveEffect(n: Net, bin: nat)
    requires NetInv(n) && CanLeave(n, bin) && n.bins[bin].held[0].InjectedEos?
    ensures InChain(n) == Some(bin) && n.cursor.Sending? && n.cursor.bin == bin && n.bins[bin].srcProbes != []
    ensures n.bins[bin].held == [InjectedEos]
    ensures n.applied < |n.accepted| && n.accepted[n.applied] == Request(PadCb, Some(bin))
    ensures LeaveMain(n, bin) == AfterRemove(n, bin)
  {
    hide FlowOk, DropsOk, CursorOk, Queued, FreshAdds, ElementLink, WithoutElem, Graph;
    InjectedIsAlone(n, bin);
    var x := n.bins[bin];
    assert Answers(n, Probe(PadCb, x.srcProbes[0]), n.accepted[n.applied]);
    RelinkNeighbours(bin);
    assert n.members - {bin} == {};
    var popped := n.bins[bin := x.(held := [])];
    var unarmed := popped[bin := x.(held := [], srcProbes := [])];
    assert x.held[1..] == [] && x.srcProbes[1..] == [];
    assert unarmed[bin := x.(held := [], srcProbes := [], phase := Nulled)]
        == n.bins[bin := x.(phase := Nulled, held := [], srcProbes := [])];
    assert n.lost + [] == n.lost;
  }

  lemma RemoveFlow(n: Net, bin: nat)
    requires NetInv(n) && CanLeave(n, bin) && n.bins[bin].held[0].InjectedEos?
    ensures InChain(LeaveMain(n, bin)) == None && FlowOk(LeaveMain(n, bin)) && DropsOk(LeaveMain(n, bin))
    ensures Flow(LeaveMain(n, bin)) == Flow(n)
  {
    var m := LeaveMain(n, bin);
    RemoveEffect(n, bin);
    ChainAfterNext(n, m);
    assert StreamPart(n.bins[bin].held) == [];
    assert Flow(m) == Flow(n);
    FlowFrame(n, m);
  }

  lemma RemoveBins(n: Net, bin: nat)
    requires NetInv(n) && CanLeave(n, bin) && n.bins[bin].held[0].InjectedEos?
    ensures BinsOk(LeaveMain(n, bin)) && FreshAdds(LeaveMain(n, bin))
  {
    var m := LeaveMain(n, bin);
    RemoveEffect(n, bin);
    ChainAfterNext(n, m);
    assert RetiredMain(m.bins[bin]);
  }

  lemma RemoveQueue(n: Net, m: Net, copy: nat)
    requires Queued(n) && m.pending == n.pending && m.accepted == n.accepted && Waiting(m) == Waiting(n)
    requires m.heap == n.heap - {copy} && (forall i :: 0 <= i < |n.pending| ==> n.pending[i].copy != copy)
    ensures Queued(m)
  {
    forall i | 0 <= i < |m.pending| ensures Answers(m, m.pending[i], m.accepted[Waiting(m) + i]) {
      assert Answers(n, n.pending[i], n.accepted[Waiting(n) + i]);
    }
  }

  lemma RemoveKeeps(n: Net, bin: nat)
    requires NetInv(n) && CanLeave(n, bin) && n.bins[bin].held[0].InjectedEos?
    requires Copies(n.pending) !! ArmedCopies(n)
    ensures NetInv(LeaveMain(n, bin))
  {
    var m := LeaveMain(n, bin);
    RemoveEffect(n, bin);
    RemoveFlow(n, bin);
    RemoveBins(n, bin);
    var copy := n.bins[bin].srcProbes[0];
    forall i | 0 <= i < |n.pending| ensures n.pending[i].copy != copy {
      assert n.pending[i].copy in Copies(n.pending);
      assert copy in ArmedCopies(n);
    }
    RemoveQueue(n, m, copy);
  }

  // ---------------------------------------------------------------------------
  // Ownership and control across the streaming thread's steps
  // ---------------------------------------------------------------------------

  lemma CopiesOfTail(ps: seq<Probe>)
    requires ps != [] && DistinctCopies(ps)
    ensures Copies(ps) == Copies(ps[1..]) + {ps[0].copy} && ps[0].copy !in Copies(ps[1..])
  {
    forall c | c in Copies(ps) ensures c in Copies(ps[1..]) + {ps[0].copy} {
      var i :| 0 <= i < |ps| && ps[i].copy == c;
      if i > 0 { assert ps[1..][i - 1].copy == c; }
    }
    forall c | c in Copies(ps[1..]) ensures c in Copies(ps) && c != ps[0].copy {
      var i :| 0 <= i < |ps[1..]| && ps[1..][i].copy == c;
      assert ps[i + 1].copy == c;
    }
  }

  /** The globals of the command thread are not touched by the streaming thread. */
  lemma ControlFrame(s: State, t: State)
    requires ControlOk(s) && t == s.(net := t.net)
    requires t.net.initial == s.net.initial && t.net.accepted == s.net.accepted && s.net.applied <= t.net.applied
    requires forall c :: c in CommandCopies(s.cmd) && c in s.net.heap ==>
               c in t.net.heap && t.net.heap[c] == s.net.heap[c]
    requires forall b ::
      b in s.net.bins && s.net.bins[b].phase == Created && Some(b) == s.info.mainElement
      && !RequestInstalled(s.cmd) && Chain(s.net.initial, s.net.accepted) == None ==>
        b in t.net.bins && t.net.bins[b].phase == Created
    ensures ControlOk(t)
  {
  }

  lemma AddOwners(s: State)
    requires Inv(s) && AddIsNext(s.net)
    ensures OwnersOk(s.(net := FireProbe(s.net)))
  {
    hide Wired, Queued, ArmedOk, BinsOk, FreshAdds, FlowOk, CursorOk, DropsOk, FireProbe, ControlOk;
    AddEffect(s.net);
    CopiesOfTail(s.net.pending);
  }

  lemma PadOwners(s: State)
    requires Inv(s) && RemoveIsNext(s.net)
    ensures OwnersOk(s.(net := FireProbe(s.net)))
  {
    hide Wired, Queued, ArmedOk, BinsOk, FreshAdds, FlowOk, CursorOk, DropsOk, FireProbe, ControlOk;
    PadEffect(s.net);
    CopiesOfTail(s.net.pending);
  }

  lemma FireControl(s: State)
    requires Inv(s) && s.net.cursor.AtPad? && s.net.pending != []
    ensures ControlOk(s.(net := FireProbe(s.net)))
  {
    hide Wired, Queued, ArmedOk, BinsOk, FreshAdds, FlowOk, CursorOk, DropsOk, FireProbe;
    var n := s.net;
    CopiesOfTail(n.pending);
    assert n.pending[0].copy in Copies(n.pending);
    if AddIsNext(n) { AddEffect(n); } else { PadEffect(n); }
    ControlFrame(s, s.(net := FireProbe(n)));
  }

  lemma FireKeeps(s: State)
    requires Inv(s) && s.net.cursor.AtPad? && s.net.pending != []
    ensures Inv(s.(net := FireProbe(s.net)))
  {
    hide Wired, Queued, ArmedOk, BinsOk, FreshAdds, FlowOk, CursorOk, DropsOk, FireProbe, ControlOk;
    ArmedIsSeparate(s);
    if AddIsNext(s.net) {
      AddKeeps(s.net);
      AddOwners(s);
    } else {
      PadKeeps(s.net);
      PadOwners(s);
    }
    FireControl(s);
  }

  lemma RemoveOwners(s: State, bin: nat)
    requires Inv(s) && CanLeave(s.net, bin) && s.net.bins[bin].held[0].InjectedEos?
    ensures OwnersOk(s.(net := LeaveMain(s.net, bin)))
  {
    hide Wired, Queued, ArmedOk, BinsOk, FreshAdds, FlowOk, CursorOk, DropsOk, LeaveMain, ControlOk;
    RemoveEffect(s.net, bin);
    RemoveArmed(s.net, bin);
    AfterRemoveOwners(s, bin);
  }

  lemma AfterRemoveOwners(s: State, bin: nat)
    requires OwnersOk(s) && s.net.cursor.Sending? && s.net.cursor.bin == bin && CanLeave(s.net, bin)
    requires |s.net.bins[bin].srcProbes| == 1
    ensures OwnersOk(s.(net := AfterRemove(s.net, bin)))
  {
    var m := AfterRemove(s.net, bin);
    assert ArmedCopies(m) == {};
    assert Copies(m.pending) == Copies(s.net.pending);
  }

  lemma RemoveArmed(n: Net, bin: nat)
    requires NetInv(n) && n.cursor.Sending? && n.cursor.bin == bin
    ensures bin in n.bins && |n.bins[bin].srcProbes| == 1 && ArmedCopies(n) == {n.bins[bin].srcProbes[0]}
  {
  }

  lemma RemoveControl(s: State, bin: nat)
    requires Inv(s) && CanLeave(s.net, bin) && s.net.bins[bin].held[0].InjectedEos?
    ensures ControlOk(s.(net := LeaveMain(s.net, bin)))
  {
    RemoveEffect(s.net, bin);
    RemoveArmed(s.net, bin);
    hide Wired, Queued, ArmedOk, BinsOk, FreshAdds, FlowOk, CursorOk, DropsOk, LeaveMain;
    ControlFrame(s, s.(net := LeaveMain(s.net, bin)));
  }

  lemma PassArmed(n: Net, bin: nat)
    requires CanLeave(n, bin)
    ensures ArmedCopies(AfterPass(n, bin)) == ArmedCopies(n)
  {
  }

  lemma PassOwners(s: State, bin: nat)
    requires Inv(s) && CanLeave(s.net, bin) && s.net.bins[bin].held[0].Stream?
    ensures OwnersOk(s.(net := LeaveMain(s.net, bin)))
    ensures ControlOk(s.(net := LeaveMain(s.net, bin)))
  {
    PassEffect(s.net, bin);
    PassArmed(s.net, bin);
    ArmedIsSeparate(s);
    hide Wired, Queued, ArmedOk, BinsOk, FreshAdds, FlowOk, CursorOk, DropsOk, LeaveMain, OwnersOk;
    var t := s.(net := LeaveMain(s.net, bin));
    OwnersFrame(s, t);
    ControlFrame(s, t);
  }

  lemma ArmedIsSeparate(s: State)
    requires OwnersOk(s)
    ensures Copies(s.net.pending) !! ArmedCopies(s.net) && DistinctCopies(s.net.pending)
  {
  }

  lemma LeaveKeeps(s: State, bin: nat)
    requires Inv(s) && CanLeave(s.net, bin)
    ensures Inv(s.(net := LeaveMain(s.net, bin)))
  {
    hide Wired, Queued, ArmedOk, BinsOk, FreshAdds, FlowOk, CursorOk, DropsOk, LeaveMain, ControlOk, OwnersOk;
    if s.net.bins[bin].held[0].Stream? {
      PassKeeps(s.net, bin);
      PassOwners(s, bin);
    } else {
      ArmedIsSeparate(s);
      RemoveKeeps(s.net, bin);
      RemoveOwners(s, bin);
      RemoveControl(s, bin);
    }
  }

  lemma PushFrame(n: Net)
    requires NetInv(n) && n.cursor.Cleared?
    ensures var m := PushDown(n);
            && m.pending == n.pending && m.heap == n.heap && m.nextCopy == n.nextCopy
            && m.initial == n.initial && m.accepted == n.accepted && m.applied == n.applied
            && ArmedCopies(m) == ArmedCopies(n)
            && (forall b :: b in n.bins ==> b in m.bins && m.bins[b].phase == n.bins[b].phase)
  {
    hide NetInv, PushDown;
    PushEffect(n);
  }

  lemma PushOwners(s: State)
    requires Inv(s) && s.net.cursor.Cleared?
    ensures OwnersOk(s.(net := PushDown(s.net))) && ControlOk(s.(net := PushDown(s.net)))
  {
    PushFrame(s.net);
    hide Wired, Queued, ArmedOk, BinsOk, FreshAdds, FlowOk, CursorOk, DropsOk, PushDown, OwnersOk;
    var t := s.(net := PushDown(s.net));
    OwnersFrame(s, t);
    ControlFrame(s, t);
  }

  // ---------------------------------------------------------------------------
  // What the callbacks leave alone, in any state
  // ---------------------------------------------------------------------------

  predicate SameHistory(n: Net, m: Net) {
    m.accepted == n.accepted && m.delivered == n.delivered
  }

  lemma AddLeavesHistory(n: Net, copy: nat)
    ensures SameHistory(n, AddElemProbeCb(n, copy))
  {
    hide ElementLinkMany, BinAdd, WithPhase, Linked;
  }

  lemma PadLeavesHistory(n: Net, copy: nat)
    requires n.cursor.AtPad?
    ensures SameHistory(n, PadProbeCb(n, copy))
  {
  }

  lemma FireLeavesHistory(n: Net)
    requires n.cursor.AtPad? && n.pending != []
    ensures SameHistory(n, FireProbe(n))
  {
    hide AddElemProbeCb, PadProbeCb;
    var n1 := n.(pending := n.pending[1..]);
    match n.pending[0].kind
    case AddCb => AddLeavesHistory(n1, n.pending[0].copy);
    case PadCb => PadLeavesHistory(n1, n.pending[0].copy);
  }

  // ---------------------------------------------------------------------------
  // Every step, every run
  // ---------------------------------------------------------------------------

  lemma StepKeeps(s: State, l: Label)
    requires Inv(s) && Enabled(s, l)
    ensures Inv(Step(s, l))
  {
    hide Wired, Queued, ArmedOk, BinsOk, FreshAdds, FlowOk, CursorOk, DropsOk,
      LeaveMain, PushDown, FireProbe, Advance, BeginEnable;
    match l
    case DoEnable(built) => EnableKeeps(s, built);
    case DoDisable => DisableKeeps(s);
    case DoAdvance => AdvanceKeeps(s);
    case DoOffer(item) =>
      var t := s.(net := Offer(s.net, item));
      OfferKeeps(s.net, item); OwnersFrame(s, t); ControlFrame(s, t);
    case DoFire => FireKeeps(s);
    case DoClear =>
      var t := s.(net := ClearPad(s.net));
      ClearKeeps(s.net); OwnersFrame(s, t); ControlFrame(s, t);
    case DoPush => PushKeeps(s.net); PushOwners(s);
    case DoLeave(b) => LeaveKeeps(s, b);
  }

  /** In every reachable state of every interleaving, from either configuration. */
  lemma {:induction false} RunKeeps(s: State, ls: seq<Label>)
    requires Inv(s)
    ensures Inv(Run(s, ls))
    decreases |ls|
  {
    if ls == [] {
    } else {
      if Enabled(s, ls[0]) { StepKeeps(s, ls[0]); }
      RunKeeps(Exec(s, ls[0]), ls[1..]);
    }
  }
}
