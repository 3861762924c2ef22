/** What is not dropped arrives: main never keeps an item for good. */
module Arrival {
  import opened Wrappers
  import opened LiveLink
  import opened LiveLinkInvariant
  import opened LiveLinkSteps
  import opened LiveLinkTheorems
  import opened LostItems

  /** How much the bin in the chain holds. */
  function HeldInChain(n: Net): (held: nat)
    ensures held > 0 ==> InChain(n).Some?
  {
    if InChain(n).Some? && InChain(n).value in n.bins then |n.bins[InChain(n).value].held| else 0
  }

  /** In every reachable state, a bin in the chain that holds something can pass it on. */
  lemma MainCanDrain(s: State)
    requires Reachable(s) && HeldInChain(s.net) > 0
    ensures Enabled(s, DoLeave(InChain(s.net).value))
  {
    ReachableInv(s);
    ChainPlays(s.net);
  }

  lemma ChainPlays(n: Net)
    requires NetInv(n) && HeldInChain(n) > 0
    ensures CanLeave(n, InChain(n).value)
  {
  }

  /** With nothing in hand, the items offered and not dropped have all been delivered, in order, if and only if
      main holds nothing. */
  lemma AllArrivedIffNothingHeld(s: State)
    requires Reachable(s) && s.net.cursor.Idle?
    ensures Positions(s.net.delivered) == Survivors(|s.net.offered|, s.net.dropped) <==> HeldInChain(s.net) == 0
  {
    ReachableInv(s);
    FlowLength(s.net);
  }

  lemma FlowLength(n: Net)
    requires NetInv(n) && n.cursor.Idle?
    ensures |Flow(n)| == |n.delivered| + HeldInChain(n)
    ensures Positions(Flow(n)) == Survivors(|n.offered|, n.dropped)
    ensures HeldInChain(n) == 0 ==> Flow(n) == n.delivered
  {
    hide Wired, Queued, ArmedOk, FreshAdds, CursorOk, DropsOk;
    if InChain(n).Some? {
      var held := n.bins[InChain(n).value].held;
      assert LiveMain(n, n.bins[InChain(n).value]);
      assert StreamPart(held) == held;
    }
  }

  lemma PassDrains(n: Net, bin: nat)
    requires CanLeave(n, bin) && InChain(n) == Some(bin)
    ensures var m := AfterPass(n, bin);
            && HeldInChain(m) == HeldInChain(n) - 1 && SameOffers(n, m)
            && m.dropped == n.dropped && m.cursor == n.cursor
  {
    assert InChain(AfterPass(n, bin)) == InChain(n);
    hide InChain;
  }

  lemma NetDrains(n: Net)
    requires NetInv(n) && n.cursor.Idle? && HeldInChain(n) > 0
    ensures var b := InChain(n).value;
            && CanLeave(n, b)
            && var m := LeaveMain(n, b);
               && HeldInChain(m) == HeldInChain(n) - 1 && SameOffers(n, m)
               && m.dropped == n.dropped && m.cursor == n.cursor
  {
    hide NetInv, LeaveMain, HeldInChain, InChain;
    ChainPlays(n);
    IdlePasses(n);
    PassEffect(n, InChain(n).value);
    PassDrains(n, InChain(n).value);
  }

  lemma InvGivesNet(s: State)
    requires Inv(s)
    ensures NetInv(s.net)
  {
  }

  /** A unit that leaves makes the bin hold one less and the streaming thread none the worse. */
  lemma LeaveDrains(s: State)
    requires Inv(s) && s.net.cursor.Idle? && HeldInChain(s.net) > 0
    ensures var b := InChain(s.net).value; var t := Step(s, DoLeave(b));
            && Enabled(s, DoLeave(b)) && t.net.cursor.Idle? && HeldInChain(t.net) == HeldInChain(s.net) - 1
            && SameOffers(s.net, t.net) && t.net.dropped == s.net.dropped
  {
    hide Inv, NetInv, LeaveMain, HeldInChain, InChain;
    InvGivesNet(s);
    NetDrains(s.net);
  }

  lemma IdlePasses(n: Net)
    requires NetInv(n) && n.cursor.Idle? && HeldInChain(n) > 0
    ensures n.bins[InChain(n).value].held[0].Stream?
  {
    hide FlowOk, DropsOk, CursorOk, Queued, FreshAdds;
    assert LiveMain(n, n.bins[InChain(n).value]);
  }

  ghost predicate NoOffers(ls: seq<Label>) {
    forall i :: 0 <= i < |ls| ==> !ls[i].DoOffer?
  }

  lemma NextOffersNothing(s: State)
    requires Inv(s) && !s.net.cursor.Idle?
    ensures !NextLabel(s.net).DoOffer? && !IsCommand(NextLabel(s.net))
    ensures Enabled(s, NextLabel(s.net)) ==> SameOffers(s.net, Step(s, NextLabel(s.net)).net)
  {
    hide NetInv, OwnersOk, ControlOk, FireProbe, PushDown, LeaveMain;
    if Enabled(s, NextLabel(s.net)) {
      match s.net.cursor
      case AtPad(_, _, _) => if s.net.pending != [] { FireOffersNothing(s.net); }
      case Cleared(_, _, _, _) => PushOffersNothing(s.net);
      case Sending(_, _, _, bin) => LeaveOffersNothing(s.net, bin);
    }
  }

  lemma {:induction false} DrainRun(s: State) returns (ls: seq<Label>)
    requires Inv(s)
    ensures Inv(Run(s, ls)) && NoCommands(ls) && NoOffers(ls)
    ensures Run(s, ls).net.cursor.Idle? && HeldInChain(Run(s, ls).net) == 0 && SameOffers(s.net, Run(s, ls).net)
    decreases |s.net.pending|, Stage(s.net.cursor), HeldBy(s.net), HeldInChain(s.net)
  {
    hide Inv, Step, Enabled, HeldInChain, HeldBy, Stage;
    var l;
    if !s.net.cursor.Idle? {
      l := NextLabel(s.net);
      StreamProgress(s);
      NextOffersNothing(s);
    } else if HeldInChain(s.net) > 0 {
      l := DoLeave(InChain(s.net).value);
      LeaveDrains(s);
      LeaveWaits(s);
    } else {
      ls := [];
      return;
    }
    StepKeeps(s, l);
    var rest := DrainRun(Step(s, l));
    ls := [l] + rest;
    assert Run(s, ls) == Run(Step(s, l), rest);
  }

  lemma LeaveWaits(s: State)
    requires Inv(s) && s.net.cursor.Idle? && HeldInChain(s.net) > 0 && Enabled(s, DoLeave(InChain(s.net).value))
    ensures var t := Step(s, DoLeave(InChain(s.net).value));
            && t.net.pending == s.net.pending && Stage(t.net.cursor) == Stage(s.net.cursor)
            && HeldBy(t.net) == HeldBy(s.net)
  {
    hide NetInv, OwnersOk, ControlOk, LeaveMain;
    ChainPlays(s.net);
    IdlePasses(s.net);
    PassEffect(s.net, InChain(s.net).value);
  }

  /** From every reachable state there is a continuation without commands and without further items after
      which every item offered and not dropped has been delivered, in order. */
  lemma EverythingArrives(s: State) returns (ls: seq<Label>)
    requires Reachable(s)
    ensures NoCommands(ls) && NoOffers(ls)
    ensures var n := Run(s, ls).net;
            && n.offered == s.net.offered
            && Positions(n.delivered) == Survivors(|n.offered|, n.dropped)
  {
    hide Inv, Run, NoCommands, NoOffers, HeldInChain, Reachable;
    ReachableInv(s);
    ls := DrainRun(s);
    ReachableOn(s, ls);
    AllArrivedIffNothingHeld(Run(s, ls));
  }
}
