/** The command thread by itself: what it leaves behind depends on its own statements alone, however the
    streaming thread and main's output are interleaved with them. */
module CommandThread {
  import opened Wrappers
  import opened LiveLink
  import opened LiveLinkInvariant
  import opened LiveLinkSteps
  import opened LiveLinkTheorems
  import opened Prompts

  /** What the command thread has decided so far. */
  datatype View = View(enabled: bool, info: LinkUnlinkInfo, fpfilterBin: Option<nat>, cmd: CmdPc,
                       accepted: seq<Request>, nextBin: nat, nextCopy: nat)

  function ViewOf(s: State): View {
    View(s.enabled, s.info, s.fpfilterBin, s.cmd, s.net.accepted, s.net.nextBin, s.net.nextCopy)
  }

  /** The command thread's labels of a run, in order. */
  function Commands(ls: seq<Label>): seq<Label>
    decreases |ls|
  {
    if ls == [] then [] else (if IsCommand(ls[0]) then [ls[0]] else []) + Commands(ls[1..])
  }

  predicate SameRequests(n: Net, m: Net) {
    m.accepted == n.accepted && m.nextBin == n.nextBin && m.nextCopy == n.nextCopy
  }

  lemma FireRequestsNothing(n: Net)
    requires NetInv(n) && n.cursor.AtPad? && n.pending != []
    ensures SameRequests(n, FireProbe(n))
  {
    hide NetInv, FireProbe;
    if AddIsNext(n) { AddEffect(n); } else { PadEffect(n); }
  }

  lemma LeaveRequestsNothing(n: Net, bin: nat)
    requires NetInv(n) && CanLeave(n, bin)
    ensures SameRequests(n, LeaveMain(n, bin))
  {
    hide NetInv, LeaveMain;
    if n.bins[bin].held[0].Stream? { PassEffect(n, bin); } else { RemoveEffect(n, bin); }
  }

  lemma PushRequestsNothing(n: Net)
    requires n.cursor.Cleared?
    ensures SameRequests(n, PushDown(n))
  {
  }

  /** The streaming thread and main's output do not touch what the command thread sees. */
  lemma OthersLeaveView(s: State, l: Label)
    requires Inv(s) && !IsCommand(l)
    ensures ViewOf(Exec(s, l)) == ViewOf(s)
  {
    hide NetInv, OwnersOk, ControlOk, FireProbe, LeaveMain, PushDown;
    if Enabled(s, l) {
      match l
      case DoFire => FireRequestsNothing(s.net);
      case DoLeave(b) => LeaveRequestsNothing(s.net, b);
      case DoPush => PushRequestsNothing(s.net);
      case DoOffer(_) =>
      case DoClear =>
    }
  }

  /** The copy the command thread is about to install still holds what it put there. */
  lemma CopyIsIntact(s: State)
    requires Inv(s) && (s.cmd.EnCopied? || s.cmd.DisCopied?)
    ensures s.cmd.copy in s.net.heap && s.net.heap[s.cmd.copy] == s.info
  {
    hide NetInv, OwnersOk;
  }

  /** A statement of a handler, as a function of what the command thread sees. */
  function AdvanceView(v: View): View {
    match v.cmd
    case CmdIdle => v
    case EnBuilt => v.(cmd := EnGateClosed)
    case EnGateClosed => v.(nextCopy := v.nextCopy + 1, cmd := EnCopied(v.nextCopy))
    case EnCopied(_) => v.(accepted := v.accepted + [Request(AddCb, v.info.mainElement)], cmd := EnInstalled)
    case EnInstalled => v.(enabled := true, cmd := CmdIdle)
    case DisFlagged => v.(cmd := DisGateClosed)
    case DisGateClosed => v.(nextCopy := v.nextCopy + 1, cmd := DisCopied(v.nextCopy))
    case DisCopied(_) => v.(accepted := v.accepted + [Request(PadCb, v.info.mainElement)], cmd := DisInstalled)
    case DisInstalled => v.(fpfilterBin := None, cmd := DisForgotten)
    case DisForgotten => v.(info := v.info.(mainElement := None), cmd := CmdIdle)
  }

  lemma AddInstallSeen(s: State)
    requires s.cmd.EnCopied? && s.cmd.copy in s.net.heap && s.net.heap[s.cmd.copy] == s.info
    ensures ViewOf(Advance(s)) == AdvanceView(ViewOf(s))
  {
    assert Advance(s) == s.(net := Install(s.net, AddCb, s.cmd.copy), cmd := EnInstalled);
    hide Advance;
  }

  lemma RemoveInstallSeen(s: State)
    requires s.cmd.DisCopied? && s.cmd.copy in s.net.heap && s.net.heap[s.cmd.copy] == s.info
    ensures ViewOf(Advance(s)) == AdvanceView(ViewOf(s))
  {
    assert Advance(s) == s.(net := Install(s.net, PadCb, s.cmd.copy), cmd := DisInstalled);
    hide Advance;
  }

  lemma CopySeen(s: State)
    requires s.cmd.EnGateClosed? || s.cmd.DisGateClosed?
    ensures ViewOf(Advance(s)) == AdvanceView(ViewOf(s))
  {
    var c := s.net.nextCopy;
    assert Advance(s) ==
      s.(net := MakeCopy(s.net, s.info), cmd := if s.cmd.EnGateClosed? then EnCopied(c) else DisCopied(c));
    hide Advance;
  }

  lemma OtherStatementsSeen(s: State)
    requires !s.cmd.EnGateClosed? && !s.cmd.DisGateClosed? && !s.cmd.EnCopied? && !s.cmd.DisCopied?
    ensures ViewOf(Advance(s)) == AdvanceView(ViewOf(s))
  {
    hide MakeCopy, Install;
    assert Advance(s).net == s.net;
  }

  lemma AdvanceSeen(s: State)
    requires Inv(s)
    ensures ViewOf(Advance(s)) == AdvanceView(ViewOf(s))
  {
    hide Inv, Advance, AdvanceView, ViewOf;
    if s.cmd.EnCopied? {
      CopyIsIntact(s);
      AddInstallSeen(s);
    } else if s.cmd.DisCopied? {
      CopyIsIntact(s);
      RemoveInstallSeen(s);
    } else if s.cmd.EnGateClosed? || s.cmd.DisGateClosed? {
      CopySeen(s);
    } else {
      OtherStatementsSeen(s);
    }
  }

  /** The command thread's own steps look at nothing else. */
  lemma CommandSeesItsView(s: State, t: State, l: Label)
    requires Inv(s) && Inv(t) && ViewOf(s) == ViewOf(t) && IsCommand(l)
    ensures ViewOf(Exec(s, l)) == ViewOf(Exec(t, l))
  {
    hide Inv, Advance, AdvanceView;
    if l.DoAdvance? {
      AdvanceSeen(s);
      AdvanceSeen(t);
    }
  }

  lemma {:induction false} ViewsAgree(s: State, t: State, ls: seq<Label>)
    requires Inv(s) && Inv(t) && ViewOf(s) == ViewOf(t)
    ensures ViewOf(Run(s, ls)) == ViewOf(Run(t, Commands(ls)))
    decreases |ls|
  {
    hide Inv, Exec, IsCommand, ViewOf;
    if ls == [] {
    } else {
      var l := ls[0];
      ExecKeeps(s, l);
      if IsCommand(l) {
        ExecKeeps(t, l);
        CommandSeesItsView(s, t, l);
        ViewsAgree(Exec(s, l), Exec(t, l), ls[1..]);
        assert Commands(ls)[0] == l && Commands(ls)[1..] == Commands(ls[1..]);
      } else {
        OthersLeaveView(s, l);
        ViewsAgree(Exec(s, l), t, ls[1..]);
        assert Commands(ls) == Commands(ls[1..]);
      }
    }
  }

  lemma ExecKeeps(s: State, l: Label)
    requires Inv(s)
    ensures Inv(Exec(s, l))
  {
    hide Inv, Step, Enabled;
    if Enabled(s, l) { StepKeeps(s, l); }
  }

  /** In every run: the flag, the remembered bin, the request record, the position in the handler and the
      requests accepted are those of the run in which nothing but the command thread moves. */
  lemma CommandsDecideAlone(s: State, ls: seq<Label>)
    requires Reachable(s)
    ensures ViewOf(Run(s, ls)) == ViewOf(Run(s, Commands(ls)))
  {
    hide Inv;
    ReachableInv(s);
    ViewsAgree(s, s, ls);
  }

  // ---------------------------------------------------------------------------
  // Messages under every interleaving
  // ---------------------------------------------------------------------------

  lemma {:induction false} AllCommands(ls: seq<Label>)
    requires forall i :: 0 <= i < |ls| ==> IsCommand(ls[i])
    ensures Commands(ls) == ls
    decreases |ls|
  {
    if ls == [] {
    } else {
      AllCommands(ls[1..]);
      assert ls == [ls[0]] + ls[1..];
    }
  }

  /** The statements of a message's handling. */
  lemma {:induction false} MessageStatements(a: AppState, ps: seq<Prompt>) returns (cs: seq<Label>)
    requires a.link.cmd.CmdIdle?
    ensures HandleAll(a, ps).link == Run(a.link, cs)
    ensures forall i :: 0 <= i < |cs| ==> IsCommand(cs[i])
    decreases |ps|
  {
    hide Handle, Exec;
    if ps == [] {
      cs := [];
    } else {
      var first := HandleIsRun(a, ps[0]);
      HandleSwitches(a, ps[0]);
      var rest := MessageStatements(Handle(a, ps[0]), ps[1..]);
      cs := first + rest;
      RunAppend(a.link, first, rest);
    }
  }

  /** A message has the same outcome for the command thread under every interleaving: whenever its statements
      are the commands of a run, flag, bin, record and accepted requests are those of the fold. */
  lemma MessageUnderEveryInterleaving(a: AppState, ps: seq<Prompt>) returns (cs: seq<Label>)
    requires Reachable(a.link) && a.link.cmd.CmdIdle?
    ensures forall ls :: Commands(ls) == cs ==> ViewOf(Run(a.link, ls)) == ViewOf(HandleAll(a, ps).link)
    ensures Commands(cs) == cs && HandleAll(a, ps).link == Run(a.link, cs)
  {
    hide HandleAll, Run, ViewOf, Reachable;
    cs := MessageStatements(a, ps);
    AllCommands(cs);
    forall ls | Commands(ls) == cs ensures ViewOf(Run(a.link, ls)) == ViewOf(HandleAll(a, ps).link) {
      CommandsDecideAlone(a.link, ls);
    }
  }

  // ---------------------------------------------------------------------------
  // Handlers finish
  // ---------------------------------------------------------------------------

  /** Statements left in the handler. */
  function StatementsLeft(cmd: CmdPc): nat {
    match cmd
    case CmdIdle => 0
    case EnBuilt => 4
    case EnGateClosed => 3
    case EnCopied(_) => 2
    case EnInstalled => 1
    case DisFlagged => 5
    case DisGateClosed => 4
    case DisCopied(_) => 3
    case DisInstalled => 2
    case DisForgotten => 1
  }

  function Statements(ls: seq<Label>): nat {
    if ls == [] then 0 else (if ls[0].DoAdvance? then 1 else 0) + Statements(ls[1..])
  }

  lemma OneStatementLess(s: State)
    requires !s.cmd.CmdIdle?
    ensures StatementsLeft(Exec(s, DoAdvance).cmd) == StatementsLeft(s.cmd) - 1
  {
    hide MakeCopy, Install;
  }

  /** A handler waits for nobody: in every run that gives the command thread its at most five statements, it
      comes to an end, whatever else moves. */
  lemma {:induction false} HandlersFinish(s: State, ls: seq<Label>)
    requires Statements(ls) >= StatementsLeft(s.cmd)
    ensures exists n :: 0 <= n <= |ls| && Run(s, ls[..n]).cmd.CmdIdle?
    decreases |ls|
  {
    hide Exec;
    if s.cmd.CmdIdle? {
      assert ls[..0] == [];
      assert Run(s, ls[..0]).cmd.CmdIdle?;
    } else if ls == [] {
      assert false;
    } else {
      var l := ls[0];
      if l.DoAdvance? {
        OneStatementLess(s);
      } else if IsCommand(l) {
        BusyIgnoresCommands(s, l);
      } else {
        LabelLeavesCommands(s, l);
      }
      HandlersFinish(Exec(s, l), ls[1..]);
      var n :| 0 <= n <= |ls[1..]| && Run(Exec(s, l), ls[1..][..n]).cmd.CmdIdle?;
      assert ls[..n + 1][1..] == ls[1..][..n];
      assert Run(s, ls[..n + 1]) == Run(Exec(s, l), ls[1..][..n]);
    }
  }

  lemma BusyIgnoresCommands(s: State, l: Label)
    requires !s.cmd.CmdIdle? && (l.DoEnable? || l.DoDisable?)
    ensures Exec(s, l) == s
  {
  }
}
