/** A user message handled by the command thread is a run of the whole system, gate and timers included. */
module MessageRuns {
  import opened Wrappers
  import opened FrameSelection
  import LiveLink
  import SaveGate
  import opened Prompts
  import EndToEnd

  /** The part of the system a message acts on. */
  function AppOf(s: EndToEnd.Sys): AppState {
    AppState(s.link, s.gate)
  }

  /** The system with that part replaced: scan, worker and checks are as they were. */
  function WithApp(s: EndToEnd.Sys, a: AppState): EndToEnd.Sys {
    s.(link := a.link, gate := a.gate)
  }

  lemma RunOne(s: EndToEnd.Sys, l: EndToEnd.Label)
    ensures EndToEnd.Run(s, [l]) == EndToEnd.Exec(s, l)
  {
    hide EndToEnd.Exec;
    assert [l][1..] == [];
  }

  lemma RunThen(s: EndToEnd.Sys, a: seq<EndToEnd.Label>, b: seq<EndToEnd.Label>, t: EndToEnd.Sys, u: EndToEnd.Sys)
    requires t == EndToEnd.Run(s, a) && u == EndToEnd.Run(t, b)
    ensures u == EndToEnd.Run(s, a + b)
  {
    EndToEnd.RunAppend(s, a, b);
  }

  function Shut(g: SaveGate.Gate): SaveGate.Gate {
    SaveGate.Step(g, SaveGate.SetClosed)
  }

  /** One statement of a handler. */
  lemma AdvanceIsStep(s: EndToEnd.Sys)
    requires !s.link.cmd.CmdIdle?
    ensures var gate := if s.link.cmd.EnBuilt? || s.link.cmd.DisFlagged? then Shut(s.gate) else s.gate;
            EndToEnd.Exec(s, EndToEnd.LinkStep(LiveLink.DoAdvance)) ==
              WithApp(s, AppState(LiveLink.Advance(s.link), gate))
  {
    hide LiveLink.Advance;
    EndToEnd.AdvanceDelivers(s.link);
  }

  function LinkAdvances(n: nat): seq<EndToEnd.Label> {
    seq(n, _ => EndToEnd.LinkStep(LiveLink.DoAdvance))
  }

  /** The handler's remaining statements, from the one that closes the gate. */
  lemma CompleteIsRun(s: EndToEnd.Sys) returns (ls: seq<EndToEnd.Label>)
    requires s.link.cmd.EnBuilt? || s.link.cmd.DisFlagged?
    ensures EndToEnd.Run(s, ls) == WithApp(s, AppState(Complete(s.link), Shut(s.gate)))
  {
    hide LiveLink.MakeCopy, LiveLink.Install, EndToEnd.Exec;
    var l := EndToEnd.LinkStep(LiveLink.DoAdvance);
    var s1 := WithApp(s, AppState(LiveLink.Advance(s.link), Shut(s.gate)));
    AdvanceIsStep(s);
    RunOne(s, l);
    ls := [l] + LinkAdvances(4);
    RunThen(s, [l], LinkAdvances(4), s1, EndToEnd.Run(s1, LinkAdvances(4)));
    PastTheGate(s.link);
    RestIsRun(s1);
  }

  lemma PastTheGate(s: LiveLink.State)
    requires s.cmd.EnBuilt? || s.cmd.DisFlagged?
    ensures LiveLink.Advance(s).cmd.EnGateClosed? || LiveLink.Advance(s).cmd.DisGateClosed?
  {
  }

  predicate GateIsShut(cmd: LiveLink.CmdPc) {
    !cmd.EnBuilt? && !cmd.DisFlagged?
  }

  /** A statement past the closing of the gate, if there is one left. */
  lemma AdvanceIfAny(s: EndToEnd.Sys)
    requires GateIsShut(s.link.cmd)
    ensures EndToEnd.Exec(s, EndToEnd.LinkStep(LiveLink.DoAdvance)) == s.(link := LiveLink.Advance(s.link))
    ensures GateIsShut(LiveLink.Advance(s.link).cmd)
  {
    hide LiveLink.MakeCopy, LiveLink.Install;
    if !s.link.cmd.CmdIdle? { AdvanceIsStep(s); }
  }

  function AdvanceTimes(s: LiveLink.State, n: nat): LiveLink.State
    decreases n
  {
    if n == 0 then s else AdvanceTimes(LiveLink.Advance(s), n - 1)
  }

  lemma {:induction false} AdvancesAreRun(s: EndToEnd.Sys, n: nat)
    requires GateIsShut(s.link.cmd)
    ensures EndToEnd.Run(s, LinkAdvances(n)) == s.(link := AdvanceTimes(s.link, n))
    decreases n
  {
    hide EndToEnd.Exec, LiveLink.Advance, GateIsShut;
    var ls := LinkAdvances(n);
    if n == 0 {
      assert ls == [];
    } else {
      AdvanceIfAny(s);
      var t := s.(link := LiveLink.Advance(s.link));
      assert ls[1..] == LinkAdvances(n - 1);
      AdvancesAreRun(t, n - 1);
    }
  }

  lemma RestIsRun(s: EndToEnd.Sys)
    requires GateIsShut(s.link.cmd)
    ensures var s4 := LiveLink.Advance(LiveLink.Advance(LiveLink.Advance(LiveLink.Advance(s.link))));
            EndToEnd.Run(s, LinkAdvances(4)) == s.(link := s4)
  {
    hide LiveLink.Advance;
    AdvancesAreRun(s, 4);
    var s2 := LiveLink.Advance(LiveLink.Advance(s.link));
    assert AdvanceTimes(s.link, 4) == AdvanceTimes(LiveLink.Advance(s.link), 3) == AdvanceTimes(s2, 2);
    assert AdvanceTimes(s2, 2) == AdvanceTimes(LiveLink.Advance(s2), 1);
  }

  lemma SwitchBegins(s: EndToEnd.Sys, l: LiveLink.Label)
    requires s.link.cmd.CmdIdle? && (l.DoEnable? || l.DoDisable?)
    ensures EndToEnd.Exec(s, EndToEnd.LinkStep(l)) == s.(link := LiveLink.Step(s.link, l))
  {
  }

  lemma SwitchIsRun(s: EndToEnd.Sys, l: LiveLink.Label) returns (ls: seq<EndToEnd.Label>)
    requires s.link.cmd.CmdIdle? && (l.DoEnable? || l.DoDisable?)
    requires var link := LiveLink.Step(s.link, l); link.cmd.EnBuilt? || link.cmd.DisFlagged?
    ensures EndToEnd.Run(s, ls) == WithApp(s, AppState(Complete(LiveLink.Step(s.link, l)), Shut(s.gate)))
  {
    hide LiveLink.Step, LiveLink.Advance, EndToEnd.Exec, Complete;
    SwitchBegins(s, l);
    RunOne(s, EndToEnd.LinkStep(l));
    var t := s.(link := LiveLink.Step(s.link, l));
    var rest := CompleteIsRun(t);
    ls := [EndToEnd.LinkStep(l)] + rest;
    RunThen(s, [EndToEnd.LinkStep(l)], rest, t, EndToEnd.Run(t, rest));
  }

  lemma GateIsRun(s: EndToEnd.Sys, g: SaveGate.Label)
    requires s.link.cmd.CmdIdle? && SaveGate.Enabled(s.gate, g)
    ensures EndToEnd.Run(s, [EndToEnd.GateStep(g)]) == s.(gate := SaveGate.Step(s.gate, g))
  {
    hide SaveGate.Enabled, SaveGate.Step;
    RunOne(s, EndToEnd.GateStep(g));
  }

  lemma SaveEnableIsRun(s: EndToEnd.Sys, duration: Option<int>) returns (ls: seq<EndToEnd.Label>)
    requires s.link.cmd.CmdIdle?
    ensures EndToEnd.Run(s, ls) == WithApp(s, SaveEnable(AppOf(s), duration))
  {
    hide EndToEnd.Run;
    var opening := [EndToEnd.GateStep(SaveGate.SetOpen)];
    GateIsRun(s, SaveGate.SetOpen);
    if duration.None? {
      ls := opening;
    } else {
      var t := s.(gate := SaveGate.Step(s.gate, SaveGate.SetOpen));
      var d: Word := duration.value % WORD;
      GateIsRun(t, SaveGate.StartTimer(d));
      var timing := [EndToEnd.GateStep(SaveGate.StartTimer(d))];
      ls := opening + timing;
      RunThen(s, opening, timing, t, EndToEnd.Run(t, timing));
    }
  }

  /** Handling one entry is a run of the system: the one in which no other thread moves. It changes the
      filter's state, the gate and the timers as the entry says, and nothing else. */
  lemma HandleIsRun(s: EndToEnd.Sys, p: Prompt) returns (ls: seq<EndToEnd.Label>)
    requires s.link.cmd.CmdIdle?
    ensures EndToEnd.Run(s, ls) == WithApp(s, Handle(AppOf(s), p))
  {
    hide Complete, EndToEnd.Exec, SaveEnable;
    if p.target != Some("fpfilter") || p.action.None? {
      ls := [];
    } else if p.action.value == "enable" {
      if s.link.enabled || !p.binBuilt {
        SwitchBegins(s, LiveLink.DoEnable(p.binBuilt));
        RunOne(s, EndToEnd.LinkStep(LiveLink.DoEnable(p.binBuilt)));
        ls := [EndToEnd.LinkStep(LiveLink.DoEnable(p.binBuilt))];
      } else {
        ls := SwitchIsRun(s, LiveLink.DoEnable(true));
      }
    } else if p.action.value == "disable" {
      if s.link.enabled {
        ls := SwitchIsRun(s, LiveLink.DoDisable);
      } else {
        ls := [];
      }
    } else if p.action.value == "save-fp-enable" {
      ls := SaveEnableIsRun(s, p.duration);
    } else if p.action.value == "save-fp-disable" {
      GateIsRun(s, SaveGate.SetClosed);
      ls := [EndToEnd.GateStep(SaveGate.SetClosed)];
    } else {
      ls := [];
    }
  }

  /** A whole message is a run of the system. */
  lemma {:induction false} MessageIsRun(s: EndToEnd.Sys, ps: seq<Prompt>) returns (ls: seq<EndToEnd.Label>)
    requires s.link.cmd.CmdIdle?
    ensures EndToEnd.Run(s, ls) == WithApp(s, HandleAll(AppOf(s), ps))
    ensures HandleAll(AppOf(s), ps).link.cmd.CmdIdle?
    decreases |ps|
  {
    hide Handle, EndToEnd.Exec;
    if ps == [] {
      ls := [];
    } else {
      var first := HandleIsRun(s, ps[0]);
      var t := WithApp(s, Handle(AppOf(s), ps[0]));
      HandleSwitches(AppOf(s), ps[0]);
      var rest := MessageIsRun(t, ps[1..]);
      ls := first + rest;
      RunThen(s, first, rest, t, EndToEnd.Run(t, rest));
    }
  }

  /** So everything proved of the system's reachable states holds while messages are handled between other
      threads' steps. */
  lemma MessageKeepsReachable(s: EndToEnd.Sys, ps: seq<Prompt>)
    requires EndToEnd.Reachable(s) && s.link.cmd.CmdIdle?
    ensures EndToEnd.Reachable(WithApp(s, HandleAll(AppOf(s), ps)))
  {
    hide EndToEnd.Run, HandleAll;
    var configured, lag, before :| s == EndToEnd.Run(EndToEnd.Start(configured, lag), before);
    var ls := MessageIsRun(s, ps);
    RunThen(EndToEnd.Start(configured, lag), before, ls, s, EndToEnd.Run(s, ls));
  }

  /** The application starts as the system does. */
  lemma StartsAlike(configured: bool, lag: nat)
    ensures AppOf(EndToEnd.Start(configured, lag)) == Start(configured, lag)
    ensures !Start(configured, lag).gate.open && Start(configured, lag).gate.timers == []
  {
  }
}
