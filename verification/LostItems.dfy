/** Exactly which items the reconfiguration protocol loses, over every run. */
module LostItems {
  import opened Wrappers
  import opened LiveLink
  import opened LiveLinkInvariant
  import opened LiveLinkSteps
  import opened LiveLinkTheorems

  predicate AddWaits(ps: seq<Probe>) {
    exists i :: 0 <= i < |ps| && ps[i].kind.AddCb?
  }

  predicate Holds(c: Cursor, pos: nat) {
    !c.Idle? && c.pos == pos
  }

  lemma PushKeepsHistory(n: Net)
    requires n.cursor.Cleared?
    ensures PushDown(n).accepted == n.accepted
  {
  }

  lemma RemoveKeepsHistory(n: Net, owner: nat, copy: nat)
    requires owner in n.bins && n.bins[owner].srcProbes != []
    ensures RemoveElemProbeCb(n, owner, copy).accepted == n.accepted
  {
  }

  lemma LeaveKeepsHistory(n: Net, bin: nat)
    requires bin in n.bins && n.bins[bin].held != []
    ensures LeaveMain(n, bin).accepted == n.accepted
  {
    hide RemoveElemProbeCb;
    if n.bins[bin].srcProbes != [] {
      RemoveKeepsHistory(n.(bins := n.bins[bin := n.bins[bin].(held := n.bins[bin].held[1..])]),
        bin, n.bins[bin].srcProbes[0]);
    }
  }

  lemma AcceptedOnlyGrows(s: State, l: Label)
    requires Enabled(s, l)
    ensures s.net.accepted <= Step(s, l).net.accepted
  {
    hide FireProbe, LeaveMain, PushDown, Advance;
    match l
    case DoFire => FireLeavesHistory(s.net);
    case DoLeave(b) => LeaveKeepsHistory(s.net, b);
    case DoPush => PushKeepsHistory(s.net);
    case DoAdvance => AdvanceMayInstall(s);
    case _ =>
  }

  lemma {:induction false} AcceptedOnlyGrowsRun(s: State, ls: seq<Label>)
    ensures s.net.accepted <= Run(s, ls).net.accepted
    decreases |ls|
  {
    if ls == [] {
    } else {
      if Enabled(s, ls[0]) { AcceptedOnlyGrows(s, ls[0]); }
      AcceptedOnlyGrowsRun(Exec(s, ls[0]), ls[1..]);
    }
  }

  /** The item at `pos` is on its way through the pad's callbacks, and an add is still among them. */
  predicate FacesAdd(n: Net, pos: nat) {
    Holds(n.cursor, pos) && !n.cursor.Cleared? && AddWaits(n.pending)
  }

  /** At some moment of the run the item at `pos` faces an add. */
  predicate MeetsAdd(s: State, ls: seq<Label>, pos: nat)
    decreases |ls|
  {
    FacesAdd(s.net, pos) || (ls != [] && MeetsAdd(Exec(s, ls[0]), ls[1..], pos))
  }

  /** What a step does to the item at `pos`. While it stays in hand an add it faces does not go away, and
      only a newly accepted request brings one; it leaves the streaming thread's hands dropped if and only
      if it faced one. */
  predicate FateKept(n: Net, m: Net, pos: nat) {
    if Holds(m.cursor, pos)
    then (FacesAdd(n, pos) ==> FacesAdd(m, pos)) && (m.accepted == n.accepted && FacesAdd(m, pos) ==> FacesAdd(n, pos))
    else pos < |m.offered| && (pos in m.dropped <==> FacesAdd(n, pos))
  }

  lemma FateFire(n: Net, pos: nat)
    requires NetInv(n) && n.cursor.AtPad? && n.pending != [] && n.cursor.pos == pos
    ensures FateKept(n, FireProbe(n), pos)
  {
    if AddIsNext(n) {
      AddEffect(n);
      assert n.pending[0].kind.AddCb?;
    } else {
      PadEffect(n);
      TailAddWaits(n.pending);
    }
  }

  lemma FateLeave(n: Net, bin: nat, pos: nat)
    requires NetInv(n) && CanLeave(n, bin) && Holds(n.cursor, pos)
    ensures FateKept(n, LeaveMain(n, bin), pos)
  {
    hide NetInv, LeaveMain;
    if n.bins[bin].held[0].Stream? { PassEffect(n, bin); } else { RemoveEffect(n, bin); }
  }

  lemma FatePush(n: Net, pos: nat)
    requires CursorOk(n) && Holds(n.cursor, pos) && n.cursor.Cleared?
    ensures FateKept(n, PushDown(n), pos)
  {
  }

  /** A command leaves the stream alone and at most installs one more callback, which is a request. */
  predicate MayInstall(n: Net, m: Net) {
    && m.cursor == n.cursor && m.offered == n.offered && m.dropped == n.dropped
    && n.accepted <= m.accepted
    && (m.pending == n.pending || (n.pending <= m.pending && m.accepted != n.accepted))
  }

  lemma AdvanceMayInstall(s: State)
    ensures MayInstall(s.net, Advance(s).net)
  {
    if s.cmd.EnCopied? {
      assert Advance(s).net == Install(s.net, AddCb, s.cmd.copy);
    } else if s.cmd.DisCopied? {
      assert Advance(s).net == Install(s.net, PadCb, s.cmd.copy);
    } else if s.cmd.EnGateClosed? || s.cmd.DisGateClosed? {
      assert Advance(s).net == MakeCopy(s.net, s.info);
    } else {
      assert Advance(s).net == s.net;
    }
  }

  lemma FateCommand(s: State, l: Label, pos: nat)
    requires Enabled(s, l) && IsCommand(l) && Holds(s.net.cursor, pos)
    ensures FateKept(s.net, Step(s, l).net, pos)
  {
    hide Advance;
    if l.DoAdvance? { AdvanceMayInstall(s); }
    if AddWaits(s.net.pending) {
      var i :| 0 <= i < |s.net.pending| && s.net.pending[i].kind.AddCb?;
      assert Step(s, l).net.pending[i].kind.AddCb?;
    }
  }

  lemma FateStep(s: State, l: Label, pos: nat)
    requires Inv(s) && Enabled(s, l) && Holds(s.net.cursor, pos)
    ensures FateKept(s.net, Step(s, l).net, pos)
  {
    hide NetInv, OwnersOk, ControlOk, FireProbe, LeaveMain, PushDown;
    InvGivesCursor(s);
    match l
    case DoFire => FateFire(s.net, pos);
    case DoLeave(b) => FateLeave(s.net, b, pos);
    case DoPush => FatePush(s.net, pos);
    case DoClear =>
    case DoOffer(_) =>
    case _ => FateCommand(s, l, pos);
  }

  lemma TailAddWaits(ps: seq<Probe>)
    requires ps != [] && ps[0].kind.PadCb?
    ensures AddWaits(ps[1..]) <==> AddWaits(ps)
  {
    if AddWaits(ps) {
      var i :| 0 <= i < |ps| && ps[i].kind.AddCb?;
      assert ps[1..][i - 1].kind.AddCb?;
    }
  }

  /** Once it is out of the streaming thread's hands, an item's fate does not change. */
  predicate Sealed(n: Net, m: Net, pos: nat) {
    pos < |m.offered| && !Holds(m.cursor, pos) && (pos in m.dropped <==> pos in n.dropped)
  }

  lemma SealedStep(s: State, l: Label, pos: nat)
    requires Inv(s) && Enabled(s, l) && pos < |s.net.offered| && !Holds(s.net.cursor, pos)
    ensures Sealed(s.net, Step(s, l).net, pos)
  {
    hide NetInv, OwnersOk, ControlOk, FireProbe, LeaveMain, PushDown, Advance;
    match l
    case DoFire => SealedFire(s.net, pos);
    case DoLeave(b) => SealedLeave(s.net, b, pos);
    case DoPush => SealedPush(s.net, pos);
    case DoAdvance => AdvanceKeepsStream(s);
    case _ =>
  }

  predicate SameStream(n: Net, m: Net) {
    m.offered == n.offered && m.cursor == n.cursor && m.dropped == n.dropped && m.ended == n.ended
  }

  lemma AdvanceKeepsStream(s: State)
    ensures SameStream(s.net, Advance(s).net)
  {
    if s.cmd.EnCopied? {
      assert Advance(s).net == Install(s.net, AddCb, s.cmd.copy);
    } else if s.cmd.DisCopied? {
      assert Advance(s).net == Install(s.net, PadCb, s.cmd.copy);
    } else if s.cmd.EnGateClosed? || s.cmd.DisGateClosed? {
      assert Advance(s).net == MakeCopy(s.net, s.info);
    } else {
      assert Advance(s).net == s.net;
    }
  }

  lemma SealedPush(n: Net, pos: nat)
    requires n.cursor.Cleared? && pos < |n.offered| && !Holds(n.cursor, pos)
    ensures Sealed(n, PushDown(n), pos)
  {
  }

  lemma SealedFire(n: Net, pos: nat)
    requires NetInv(n) && n.cursor.AtPad? && n.pending != [] && pos < |n.offered| && !Holds(n.cursor, pos)
    ensures Sealed(n, FireProbe(n), pos)
  {
    hide NetInv, FireProbe;
    if AddIsNext(n) { AddEffect(n); } else { PadEffect(n); }
  }

  lemma SealedLeave(n: Net, bin: nat, pos: nat)
    requires NetInv(n) && CanLeave(n, bin) && pos < |n.offered| && !Holds(n.cursor, pos)
    ensures Sealed(n, LeaveMain(n, bin), pos)
  {
    hide NetInv, LeaveMain;
    if n.bins[bin].held[0].Stream? { PassEffect(n, bin); } else { RemoveEffect(n, bin); }
  }

  lemma {:induction false} SealedRun(s: State, ls: seq<Label>, pos: nat)
    requires Inv(s) && pos < |s.net.offered| && !Holds(s.net.cursor, pos)
    ensures pos in Run(s, ls).net.dropped <==> pos in s.net.dropped
    decreases |ls|
  {
    if ls == [] {
    } else {
      var t := Exec(s, ls[0]);
      if Enabled(s, ls[0]) {
        StepKeeps(s, ls[0]);
        SealedStep(s, ls[0], pos);
      }
      SealedRun(t, ls[1..], pos);
    }
  }

  /** An item that is through meets no more adds. */
  lemma {:induction false} MeetsNoneAfterwards(s: State, ls: seq<Label>, pos: nat)
    requires Inv(s) && pos < |s.net.offered| && !Holds(s.net.cursor, pos)
    ensures !MeetsAdd(s, ls, pos)
    decreases |ls|
  {
    if ls == [] {
    } else {
      if Enabled(s, ls[0]) {
        StepKeeps(s, ls[0]);
        SealedStep(s, ls[0], pos);
      }
      MeetsNoneAfterwards(Exec(s, ls[0]), ls[1..], pos);
    }
  }

  lemma {:induction false} FateRun(s: State, ls: seq<Label>, pos: nat)
    requires Inv(s) && Holds(s.net.cursor, pos) && !Holds(Run(s, ls).net.cursor, pos)
    ensures pos in Run(s, ls).net.dropped <==> MeetsAdd(s, ls, pos)
    decreases |ls|
  {
    if ls == [] {
      assert false;
    } else {
      hide Inv, Step, FateKept, FacesAdd;
      var t := Exec(s, ls[0]);
      if Enabled(s, ls[0]) {
        StepKeeps(s, ls[0]);
        FateStep(s, ls[0], pos);
      }
      FateUnfold(s, t, ls, pos);
    }
  }

  lemma FateUnfold(s: State, t: State, ls: seq<Label>, pos: nat)
    requires Inv(t) && ls != [] && t == Exec(s, ls[0]) && Holds(s.net.cursor, pos)
    requires t == s || FateKept(s.net, t.net, pos)
    requires !Holds(Run(t, ls[1..]).net.cursor, pos)
    ensures pos in Run(t, ls[1..]).net.dropped <==> MeetsAdd(s, ls, pos)
    decreases |ls|, 0
  {
    if Holds(t.net.cursor, pos) {
      FateRun(t, ls[1..], pos);
    } else {
      SealedRun(t, ls[1..], pos);
      MeetsNoneAfterwards(t, ls[1..], pos);
    }
  }

  /** In every run, with commands coming at any moment: an item that has reached the pad and is through is
      lost if and only if, at some moment before it cleared the pad, an add was among the callbacks waiting
      there. This holds of events and of the stream's own end as much as of buffers. */
  lemma ItemLostIffItMeetsAnAdd(s: State, ls: seq<Label>, pos: nat)
    requires Reachable(s) && Holds(s.net.cursor, pos) && !Holds(Run(s, ls).net.cursor, pos)
    ensures pos in Run(s, ls).net.dropped <==> MeetsAdd(s, ls, pos)
  {
    ReachableInv(s);
    FateRun(s, ls, pos);
  }

  /** Without a further request, an item meets only an add that waits for it already. */
  lemma {:induction false} MeetsWhatWaits(s: State, ls: seq<Label>, pos: nat)
    requires Inv(s) && Holds(s.net.cursor, pos) && Run(s, ls).net.accepted == s.net.accepted && MeetsAdd(s, ls, pos)
    ensures FacesAdd(s.net, pos)
    decreases |ls|
  {
    if ls == [] || FacesAdd(s.net, pos) {
    } else {
      var t := Exec(s, ls[0]);
      if Enabled(s, ls[0]) {
        AcceptedOnlyGrows(s, ls[0]);
        StepKeeps(s, ls[0]);
        FateStep(s, ls[0], pos);
      }
      AcceptedOnlyGrowsRun(t, ls[1..]);
      if Holds(t.net.cursor, pos) {
        MeetsWhatWaits(t, ls[1..], pos);
      } else {
        MeetsNoneAfterwards(t, ls[1..], pos);
      }
    }
  }

  /** In particular, if no further request is accepted before an item at the pad is through, what waits
      when it arrives decides. */
  lemma ItemLostIffAddWaits(s: State, ls: seq<Label>)
    requires Reachable(s) && s.net.cursor.AtPad?
    requires Run(s, ls).net.accepted == s.net.accepted && !Holds(Run(s, ls).net.cursor, s.net.cursor.pos)
    ensures s.net.cursor.pos in Run(s, ls).net.dropped <==> AddWaits(s.net.pending)
  {
    ReachableInv(s);
    FateRun(s, ls, s.net.cursor.pos);
    if MeetsAdd(s, ls, s.net.cursor.pos) { MeetsWhatWaits(s, ls, s.net.cursor.pos); }
  }

  lemma Go(s: State, l: Label) returns (t: State)
    requires Reachable(s)
    ensures Reachable(t) && Inv(t) && t == Exec(s, l)
  {
    hide Exec, Inv;
    ReachableOn(s, [l]);
    assert Run(s, [l]) == Exec(s, l) by { assert [l][1..] == []; }
    t := Exec(s, l);
    ReachableInv(t);
  }

  lemma Begin(configured: bool) returns (s: State)
    ensures Reachable(s) && s == Init(configured)
  {
    s := Init(configured);
    assert s == Run(Init(configured), []);
  }

  /** A disable from the start, and an item at the pad: only the removal waits. */
  lemma ItemAfterDisable(item: Payload) returns (s: State)
    ensures Reachable(s) && s.cmd.CmdIdle? && !s.enabled
    ensures s.net.pending == [Probe(PadCb, 0)] && s.net.cursor == AtPad(0, item, 1) && s.net.nextCopy == 1
    ensures InChain(s.net) == Some(0) && 0 in s.net.bins && s.net.bins[0].held == [] && s.net.nextBin == 1
  {
    hide Reachable, FireProbe, LeaveMain, PushDown, Inv;
    s := Begin(true);
    s := Go(s, DoDisable);
    s := Go(s, DoAdvance);
    s := Go(s, DoAdvance);
    assert s.cmd == DisCopied(0);
    s := Go(s, DoAdvance);
    assert s.cmd.DisInstalled? && s.net.pending == [Probe(PadCb, 0)];
    s := Go(s, DoAdvance);
    s := Go(s, DoAdvance);
    s := Go(s, DoOffer(item));
  }

  /** An enable, up to the installation of its probe. */
  lemma EnableInstalls(s: State) returns (t: State)
    requires Reachable(s) && s.cmd.CmdIdle? && !s.enabled && s.net.pending == []
    ensures Reachable(t) && t.net.cursor == s.net.cursor
    ensures t == Exec(Exec(Exec(Exec(s, DoEnable(true)), DoAdvance), DoAdvance), DoAdvance)
    ensures t.net.pending == [Probe(AddCb, s.net.nextCopy)]
    ensures forall b :: b in s.net.bins && b != s.net.nextBin ==> b in t.net.bins && t.net.bins[b] == s.net.bins[b]
  {
    hide Reachable, FireProbe, LeaveMain, PushDown, Inv;
    t := Go(s, DoEnable(true));
    t := Go(t, DoAdvance);
    assert t.cmd.EnGateClosed? && t.net.nextCopy == s.net.nextCopy;
    t := Go(t, DoAdvance);
    assert t.cmd == EnCopied(s.net.nextCopy) && t.net.pending == [];
    t := Go(t, DoAdvance);
  }

  /** The removal at the pad of `ItemAfterDisable` fires. */
  lemma RemovalFires(s: State, item: Payload) returns (t: State)
    requires Reachable(s) && s.cmd.CmdIdle? && !s.enabled
    requires s.net.pending == [Probe(PadCb, 0)] && s.net.cursor == AtPad(0, item, 1)
    requires InChain(s.net) == Some(0) && 0 in s.net.bins && s.net.bins[0].held == []
    ensures Reachable(t) && t == Exec(s, DoFire) && t.cmd.CmdIdle? && !t.enabled && t.net.pending == []
    ensures t.net.cursor == Sending(0, item, 1, 0) && t.net.nextBin == s.net.nextBin
    ensures 0 in t.net.bins && t.net.bins[0].phase == Playing && t.net.bins[0].held == [InjectedEos]
  {
    hide Reachable, FireProbe, Inv, NetInv;
    ReachableNet(s);
    PadEffect(s.net);
    t := Go(s, DoFire);
  }

  /** The end-of-stream comes out, and the add that has come in meanwhile fires. */
  lemma AddFollowsRemoval(s: State, item: Payload)
    requires Reachable(s) && s.net.cursor == Sending(0, item, 1, 0)
    requires |s.net.pending| == 1 && s.net.pending[0].kind.AddCb?
    requires 0 in s.net.bins && s.net.bins[0].phase == Playing && s.net.bins[0].held == [InjectedEos]
    ensures 0 in Exec(Exec(s, DoLeave(0)), DoFire).net.dropped
  {
    hide FireProbe, LeaveMain, Inv, NetInv, Reachable;
    ReachableNet(s);
    RemoveEffect(s.net, 0);
    var t := Exec(s, DoLeave(0));
    assert t.net.cursor == AtPad(0, item, 1);
    FireAddDrops(t.net);
  }

  /** A request accepted while an item is at the pad acts on that very item: no add waits when it arrives,
      an enable comes in while the removal drains main, and the item is dropped. */
  lemma LateAddTakesTheItem(item: Payload) returns (s: State, ls: seq<Label>)
    ensures Reachable(s) && s.net.cursor.AtPad? && !AddWaits(s.net.pending)
    ensures s.net.cursor.item == item && s.net.cursor.pos in Run(s, ls).net.dropped
  {
    hide Reachable, Exec, Run;
    s := ItemAfterDisable(item);
    ls := [DoFire, DoEnable(true), DoAdvance, DoAdvance, DoAdvance, DoLeave(0), DoFire];
    UnrollSeven(s, ls);
    var t := RemovalFires(s, item);
    var u := EnableInstalls(t);
    AddFollowsRemoval(u, item);
  }

  /** The application quits its main loop when the stream's end reaches the sink. Enabling the filter
      just before the end loses it for good: no continuation ever delivers anything. */
  lemma EndOfStreamCanBeLost(more: seq<Label>)
    ensures var prefix := [DoEnable(true), DoAdvance, DoAdvance, DoAdvance, DoAdvance, DoOffer(Eos), DoFire];
            && Run(Init(false), prefix).net.offered == [Eos]
            && Run(Init(false), prefix + more).net.delivered == []
  {
    var prefix := [DoEnable(true), DoAdvance, DoAdvance, DoAdvance, DoAdvance, DoOffer(Eos), DoFire];
    LastItemDropped(prefix);
    InitKeeps(false);
    RunKeeps(Init(false), prefix);
    RunAppend(Init(false), prefix, more);
    LostEnd(Run(Init(false), prefix), more);
  }

  /** Enabling from the start: one add waits, and nothing has flowed yet. */
  lemma FirstEnable()
    ensures var s2 := Exec(Exec(Init(false), DoEnable(true)), DoAdvance);
            var s := Exec(Exec(Exec(s2, DoAdvance), DoAdvance), DoAdvance);
            && s.net.pending == [Probe(AddCb, 0)] && |s.net.accepted| == 1
            && s.net.cursor.Idle? && !s.net.ended && s.net.offered == [] && s.net.dropped == {}
  {
    hide FireProbe, LeaveMain, PushDown;
    var s2 := Exec(Exec(Init(false), DoEnable(true)), DoAdvance);
    assert s2.cmd.EnGateClosed? && s2.net.cursor.Idle? && !s2.net.ended && s2.net.offered == [] && s2.net.dropped == {};
    var s3 := Exec(s2, DoAdvance);
    assert s3.cmd == EnCopied(0);
    var s4 := Exec(s3, DoAdvance);
    assert s4.cmd.EnInstalled?;
  }

  lemma LastItemDropped(prefix: seq<Label>)
    requires prefix == [DoEnable(true), DoAdvance, DoAdvance, DoAdvance, DoAdvance, DoOffer(Eos), DoFire]
    ensures var n := Run(Init(false), prefix).net;
            n.offered == [Eos] && n.dropped == {0} && n.ended && n.cursor.Idle?
  {
    hide FireProbe, LeaveMain, PushDown, Advance, BeginEnable, BeginDisable, Init;
    UnrollSeven(Init(false), prefix);
    FirstEnable();
    var s5 := Exec(Exec(Exec(Exec(Exec(Init(false), DoEnable(true)), DoAdvance), DoAdvance), DoAdvance), DoAdvance);
    var s6 := Exec(s5, DoOffer(Eos));
    assert s6.net.cursor == AtPad(0, Eos, 1) && s6.net.dropped == {};
    FireAddDrops(s6.net);
  }

  lemma FireAddDrops(n: Net)
    requires AddIsNext(n)
    ensures var m := FireProbe(n);
            m.offered == n.offered && m.dropped == n.dropped + {n.cursor.pos} && m.ended == n.ended && m.cursor.Idle?
  {
  }

  /** If the stream's end was dropped and was the only item, nothing is ever delivered. */
  lemma LostEnd(s: State, more: seq<Label>)
    requires Inv(s) && s.net.ended && s.net.cursor.Idle? && |s.net.offered| == 1 && s.net.dropped == {0}
    ensures Run(s, more).net.delivered == []
  {
    NothingAfterTheEnd(s, more);
    RunKeeps(s, more);
    SealedRun(s, more, 0);
    OnlyItemDropped(Run(s, more).net);
  }

  lemma OnlyItemDropped(n: Net)
    requires FlowOk(n) && |n.offered| == 1 && 0 in n.dropped
    ensures n.delivered == []
  {
    assert Survivors(1, n.dropped) == Survivors(0, n.dropped) == [];
    assert |Positions(Flow(n))| == 0;
  }

  lemma UnrollSeven(s: State, ls: seq<Label>)
    requires |ls| == 7
    ensures Run(s, ls) == Exec(Exec(Exec(Exec(Exec(Exec(Exec(s, ls[0]), ls[1]), ls[2]), ls[3]), ls[4]), ls[5]), ls[6])
  {
    assert ls[1..][1..] == ls[2..];
    assert ls[2..][1..] == ls[3..];
    assert ls[3..][1..] == ls[4..];
    assert ls[4..][1..] == ls[5..];
    assert ls[5..][1..] == ls[6..];
    assert ls[6..][1..] == [];
    calc {
      Run(s, ls);
      Run(Exec(s, ls[0]), ls[1..]);
      Run(Exec(Exec(s, ls[0]), ls[1]), ls[2..]);
    }
    var t := Exec(Exec(s, ls[0]), ls[1]);
    calc {
      Run(t, ls[2..]);
      Run(Exec(t, ls[2]), ls[3..]);
      Run(Exec(Exec(t, ls[2]), ls[3]), ls[4..]);
    }
    var u := Exec(Exec(t, ls[2]), ls[3]);
    calc {
      Run(u, ls[4..]);
      Run(Exec(u, ls[4]), ls[5..]);
      Run(Exec(Exec(u, ls[4]), ls[5]), ls[6..]);
      Run(Exec(Exec(Exec(u, ls[4]), ls[5]), ls[6]), []);
    }
  }

  lemma RemoveKeepsStream(n: Net, owner: nat, copy: nat)
    requires owner in n.bins && n.bins[owner].srcProbes != []
    ensures SameStream(n, RemoveElemProbeCb(n, owner, copy))
  {
  }

  lemma LeaveAfterTheEnd(n: Net, bin: nat)
    requires bin in n.bins && n.bins[bin].held != [] && n.cursor.Idle?
    ensures SameStream(n, LeaveMain(n, bin))
  {
    hide RemoveElemProbeCb;
    if n.bins[bin].srcProbes != [] {
      RemoveKeepsStream(n.(bins := n.bins[bin := n.bins[bin].(held := n.bins[bin].held[1..])]),
        bin, n.bins[bin].srcProbes[0]);
    }
  }

  lemma StepAfterTheEnd(s: State, l: Label)
    requires s.net.ended && s.net.cursor.Idle? && Enabled(s, l)
    ensures var m := Step(s, l).net; m.offered == s.net.offered && m.cursor.Idle? && m.ended
  {
    hide FireProbe, LeaveMain, PushDown, Advance;
    match l
    case DoLeave(b) => LeaveAfterTheEnd(s.net, b);
    case DoAdvance => AdvanceKeepsStream(s);
    case DoEnable(_) =>
    case DoDisable =>
  }

  /** After the stream's end has been dealt with, nothing more is offered. */
  lemma {:induction false} NothingAfterTheEnd(s: State, ls: seq<Label>)
    requires s.net.ended && s.net.cursor.Idle?
    ensures Run(s, ls).net.offered == s.net.offered && Run(s, ls).net.cursor.Idle? && Run(s, ls).net.ended
    decreases |ls|
  {
    hide Step, Enabled;
    if ls == [] {
    } else {
      if Enabled(s, ls[0]) { StepAfterTheEnd(s, ls[0]); }
      NothingAfterTheEnd(Exec(s, ls[0]), ls[1..]);
    }
  }

  // ---------------------------------------------------------------------------
  // A dropped end of the stream, in any run
  // ---------------------------------------------------------------------------

  /** Only the last item offered can be the stream's end, and it is when the stream has ended. */
  predicate EndIsLast(n: Net) {
    && (forall i :: 0 <= i < |n.offered| - 1 ==> !n.offered[i].Eos?)
    && (n.ended <==> n.offered != [] && n.offered[|n.offered| - 1].Eos?)
  }

  predicate SameOffers(n: Net, m: Net) {
    m.offered == n.offered && m.ended == n.ended
  }

  lemma FireOffersNothing(n: Net)
    requires NetInv(n) && n.cursor.AtPad? && n.pending != []
    ensures SameOffers(n, FireProbe(n))
  {
    hide NetInv, FireProbe;
    if AddIsNext(n) { AddEffect(n); } else { PadEffect(n); }
  }

  lemma LeaveOffersNothing(n: Net, bin: nat)
    requires NetInv(n) && CanLeave(n, bin)
    ensures SameOffers(n, LeaveMain(n, bin))
  {
    hide NetInv, LeaveMain;
    if n.bins[bin].held[0].Stream? { PassEffect(n, bin); } else { RemoveEffect(n, bin); }
  }

  lemma PushOffersNothing(n: Net)
    requires n.cursor.Cleared?
    ensures SameOffers(n, PushDown(n))
  {
  }

  lemma EndStaysLast(s: State, l: Label)
    requires Inv(s) && Enabled(s, l) && EndIsLast(s.net)
    ensures EndIsLast(Step(s, l).net)
  {
    hide NetInv, OwnersOk, ControlOk, FireProbe, LeaveMain, PushDown, Advance;
    match l
    case DoFire => FireOffersNothing(s.net);
    case DoLeave(b) => LeaveOffersNothing(s.net, b);
    case DoPush => PushOffersNothing(s.net);
    case DoAdvance => AdvanceKeepsStream(s);
    case _ =>
  }

  lemma {:induction false} EndIsLastInRuns(s: State, ls: seq<Label>)
    requires Inv(s) && EndIsLast(s.net)
    ensures EndIsLast(Run(s, ls).net)
    decreases |ls|
  {
    hide Inv, Step, Enabled, EndIsLast;
    if ls == [] {
    } else {
      if Enabled(s, ls[0]) {
        StepKeeps(s, ls[0]);
        EndStaysLast(s, ls[0]);
      }
      EndIsLastInRuns(Exec(s, ls[0]), ls[1..]);
    }
  }

  lemma ReachableEndIsLast(s: State)
    requires Reachable(s)
    ensures EndIsLast(s.net)
  {
    hide Inv;
    var configured, ls :| s == Run(Init(configured), ls);
    InitKeeps(configured);
    EndIsLastInRuns(Init(configured), ls);
  }

  /** A delivered item is one of those offered and not dropped. */
  lemma DeliveredWasKept(n: Net, i: nat)
    requires FlowOk(n) && i < |n.delivered|
    ensures var u := n.delivered[i].u;
            u.Stream? && u.pos < |n.offered| && u.item == n.offered[u.pos] && u.pos !in n.dropped
  {
    assert Flow(n)[i] == n.delivered[i];
    assert Tracked(n, Flow(n)[i]);
    SurvivorsAscend(|n.offered|, n.dropped);
    assert Survivors(|n.offered|, n.dropped)[i] == Positions(Flow(n))[i];
  }

  lemma DroppedIsNotInHand(n: Net)
    requires CursorOk(n) && n.offered != [] && |n.offered| - 1 in n.dropped
    ensures n.cursor.Idle?
  {
  }

  /** Once the stream's end has been dropped, whatever was offered before it, it never arrives: in every
      continuation nothing more is offered, and no end-of-stream is among what is delivered. */
  lemma DroppedEndNeverArrives(s: State, more: seq<Label>)
    requires Reachable(s) && s.net.offered != [] && s.net.offered[|s.net.offered| - 1].Eos?
    requires |s.net.offered| - 1 in s.net.dropped
    ensures Run(s, more).net.offered == s.net.offered
    ensures forall i :: 0 <= i < |Run(s, more).net.delivered| ==>
              Run(s, more).net.delivered[i].u.Stream? && !Run(s, more).net.delivered[i].u.item.Eos?
  {
    hide Run, Reachable, Inv, NetInv, FlowOk;
    ReachableInv(s);
    InvGivesCursor(s);
    ReachableEndIsLast(s);
    DroppedIsNotInHand(s.net);
    NothingAfterTheEnd(s, more);
    SealedRun(s, more, |s.net.offered| - 1);
    ReachableOn(s, more);
    ReachableNet(Run(s, more));
    NetGivesFlow(Run(s, more).net);
    var n := Run(s, more).net;
    forall i | 0 <= i < |n.delivered| ensures n.delivered[i].u.Stream? && !n.delivered[i].u.item.Eos? {
      DeliveredWasKept(n, i);
      assert n.delivered[i].u.pos < |n.offered| - 1;
    }
  }

  lemma NetGivesFlow(n: Net)
    requires NetInv(n)
    ensures FlowOk(n)
  {
  }
}
