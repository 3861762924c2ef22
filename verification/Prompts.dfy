/** What a message from the user does: a fold of its commands over the filter's state and the save gate. */
module Prompts {
  import opened Wrappers
  import opened FrameSelection
  import LiveLink
  import LiveLinkTheorems
  import SaveGate

  /** One entry of the parsed command array. A target or action of the wrong JSON type reads as NULL and
      matches nothing, like an absent one; a duration of the wrong type is present and reads as 0, which is
      `Some(0)` here. `binBuilt` is whether the filter bin can be created, should the entry ask for it. */
  datatype Prompt = Prompt(target: Option<string>, action: Option<string>, duration: Option<int>, binBuilt: bool)

  datatype AppState = AppState(link: LiveLink.State, gate: SaveGate.Gate)

  /** Runs the command in progress to its end. No command has more than five statements left. */
  function Complete(s: LiveLink.State): LiveLink.State {
    LiveLink.Advance(LiveLink.Advance(LiveLink.Advance(LiveLink.Advance(LiveLink.Advance(s)))))
  }

  function Enable(a: AppState, built: bool): AppState {
    if a.link.enabled || !built then a.(link := LiveLink.BeginEnable(a.link, built))
    else AppState(Complete(LiveLink.BeginEnable(a.link, true)), SaveGate.Step(a.gate, SaveGate.SetClosed))
  }

  function Disable(a: AppState): AppState {
    if !a.link.enabled then a
    else AppState(Complete(LiveLink.BeginDisable(a.link)), SaveGate.Step(a.gate, SaveGate.SetClosed))
  }

  /** The duration is cast to a `guint`. */
  function SaveEnable(a: AppState, duration: Option<int>): AppState {
    match duration
    case None => a.(gate := SaveGate.Step(a.gate, SaveGate.SetOpen))
    case Some(ms) => a.(gate := SaveGate.OpenFor(a.gate, ms % WORD))
  }

  function SaveDisable(a: AppState): AppState {
    a.(gate := SaveGate.Step(a.gate, SaveGate.SetClosed))
  }

  function Handle(a: AppState, p: Prompt): AppState {
    if p.target != Some("fpfilter") || p.action.None? then a
    else if p.action.value == "enable" then Enable(a, p.binBuilt)
    else if p.action.value == "disable" then Disable(a)
    else if p.action.value == "save-fp-enable" then SaveEnable(a, p.duration)
    else if p.action.value == "save-fp-disable" then SaveDisable(a)
    else a
  }

  function HandleAll(a: AppState, ps: seq<Prompt>): AppState
    decreases |ps|
  {
    if ps == [] then a else HandleAll(Handle(a, ps[0]), ps[1..])
  }

  function Start(configured: bool, lag: nat): AppState {
    AppState(LiveLink.Init(configured), SaveGate.Closed(lag))
  }

  // ---------------------------------------------------------------------------
  // Messages compose
  // ---------------------------------------------------------------------------

  /** One message holding two lists of commands does what two messages would. */
  lemma {:induction false} MessagesCompose(a: AppState, ps: seq<Prompt>, qs: seq<Prompt>)
    ensures HandleAll(a, ps + qs) == HandleAll(HandleAll(a, ps), qs)
    decreases |ps|
  {
    hide Handle;
    if ps == [] {
      assert ps + qs == qs;
    } else {
      assert (ps + qs)[1..] == ps[1..] + qs;
      MessagesCompose(Handle(a, ps[0]), ps[1..], qs);
    }
  }

  predicate NamesAnAction(p: Prompt) {
    p.target.Some? && p.action.Some?
  }

  /** Entries lacking a target or an action may as well not be there. */
  function WithoutIncomplete(ps: seq<Prompt>): seq<Prompt>
    decreases |ps|
  {
    if ps == [] then []
    else if NamesAnAction(ps[0]) then [ps[0]] + WithoutIncomplete(ps[1..])
    else WithoutIncomplete(ps[1..])
  }

  lemma {:induction false} IncompleteEntriesDoNothing(a: AppState, ps: seq<Prompt>)
    ensures HandleAll(a, ps) == HandleAll(a, WithoutIncomplete(ps))
    decreases |ps|
  {
    hide Enable, Disable, SaveEnable, SaveDisable;
    if ps == [] {
    } else {
      IncompleteEntriesDoNothing(Handle(a, ps[0]), ps[1..]);
      if NamesAnAction(ps[0]) {
        assert WithoutIncomplete(ps)[1..] == WithoutIncomplete(ps[1..]);
      } else {
        assert Handle(a, ps[0]) == a;
      }
    }
  }

  // ---------------------------------------------------------------------------
  // The filter's flag
  // ---------------------------------------------------------------------------

  function Advances(n: nat): seq<LiveLink.Label> {
    seq(n, _ => LiveLink.DoAdvance)
  }

  lemma AdvanceIdle(s: LiveLink.State)
    ensures LiveLink.Exec(s, LiveLink.DoAdvance) == LiveLink.Advance(s)
  {
    hide LiveLink.MakeCopy, LiveLink.Install;
  }

  /** Handling a command is one of its interleavings: the one in which nothing else moves. */
  lemma CompleteIsRun(s: LiveLink.State)
    ensures Complete(s) == LiveLink.Run(s, Advances(5))
  {
    hide LiveLink.Advance, LiveLink.Exec;
    var s1 := LiveLink.Advance(s);
    var s2 := LiveLink.Advance(s1);
    var s3 := LiveLink.Advance(s2);
    var s4 := LiveLink.Advance(s3);
    AdvanceIdle(s);
    AdvanceIdle(s1);
    AdvanceIdle(s2);
    AdvanceIdle(s3);
    AdvanceIdle(s4);
    assert Advances(5)[1..] == Advances(4) && Advances(4)[1..] == Advances(3) && Advances(3)[1..] == Advances(2);
    assert Advances(2)[1..] == Advances(1) && Advances(1)[1..] == [];
    assert LiveLink.Run(s4, Advances(1)) == LiveLink.Advance(s4);
    assert LiveLink.Run(s3, Advances(2)) == LiveLink.Run(s4, Advances(1));
    assert LiveLink.Run(s2, Advances(3)) == LiveLink.Run(s3, Advances(2));
    assert LiveLink.Run(s1, Advances(4)) == LiveLink.Run(s2, Advances(3));
  }

  lemma EnableOutcome(s: LiveLink.State)
    requires s.cmd.CmdIdle? && !s.enabled
    ensures var t := Complete(LiveLink.BeginEnable(s, true));
            && t.cmd.CmdIdle? && t.enabled
            && |t.net.accepted| == |s.net.accepted| + 1 && t.net.accepted[|s.net.accepted|].kind.AddCb?
  {
    var s1 := LiveLink.Advance(LiveLink.BeginEnable(s, true));
    assert s1.cmd.EnGateClosed? && s1.net.accepted == s.net.accepted;
    var s2 := LiveLink.Advance(s1);
    assert s2.cmd.EnCopied? && s2.net.accepted == s.net.accepted;
    var s3 := LiveLink.Advance(s2);
    assert s3.cmd.EnInstalled?;
  }

  lemma DisableOutcome(s: LiveLink.State)
    requires s.cmd.CmdIdle? && s.enabled
    ensures var t := Complete(LiveLink.BeginDisable(s));
            && t.cmd.CmdIdle? && !t.enabled
            && |t.net.accepted| == |s.net.accepted| + 1 && t.net.accepted[|s.net.accepted|].kind.PadCb?
  {
    var s1 := LiveLink.Advance(LiveLink.BeginDisable(s));
    assert s1.cmd.DisGateClosed? && s1.net.accepted == s.net.accepted;
    var s2 := LiveLink.Advance(s1);
    assert s2.cmd.DisCopied? && s2.net.accepted == s.net.accepted;
    var s3 := LiveLink.Advance(s2);
    assert s3.cmd.DisInstalled? && !s3.enabled;
  }

  /** All that enabling does, once a bin could be built. */
  lemma EnableClosedForm(s: LiveLink.State)
    requires s.cmd.CmdIdle? && !s.enabled
    ensures var bin := s.net.nextBin;
            var info := s.info.(mainElement := Some(bin));
            var net := s.net.(bins := s.net.bins[bin := LiveLink.FRESH_MAIN], nextBin := bin + 1);
            Complete(LiveLink.BeginEnable(s, true)) ==
              LiveLink.State(LiveLink.Install(LiveLink.MakeCopy(net, info), LiveLink.AddCb, net.nextCopy),
                             true, info, Some(bin), LiveLink.CmdIdle)
  {
    hide LiveLink.MakeCopy, LiveLink.Install;
    var s2 := LiveLink.Advance(LiveLink.Advance(LiveLink.BeginEnable(s, true)));
    assert s2.cmd == LiveLink.EnCopied(s.net.nextCopy);
  }

  lemma DisableClosedForm(s: LiveLink.State)
    requires s.cmd.CmdIdle? && s.enabled
    ensures Complete(LiveLink.BeginDisable(s)) ==
              LiveLink.State(LiveLink.Install(LiveLink.MakeCopy(s.net, s.info), LiveLink.PadCb, s.net.nextCopy),
                             false, s.info.(mainElement := None), None, LiveLink.CmdIdle)
  {
    hide LiveLink.MakeCopy, LiveLink.Install;
    var s2 := LiveLink.Advance(LiveLink.Advance(LiveLink.BeginDisable(s)));
    assert s2.cmd == LiveLink.DisCopied(s.net.nextCopy);
  }

  /** What an entry asks of the flag, if anything. */
  function Switch(p: Prompt): Option<bool> {
    if p.target != Some("fpfilter") || p.action.None? then None
    else if p.action.value == "enable" && p.binBuilt then Some(true)
    else if p.action.value == "disable" then Some(false)
    else None
  }

  /** The flag an entry leaves, and how many requests it makes. */
  lemma HandleSwitches(a: AppState, p: Prompt)
    requires a.link.cmd.CmdIdle?
    ensures var b := Handle(a, p);
            && b.link.cmd.CmdIdle?
            && b.link.enabled == (if Switch(p).Some? then Switch(p).value else a.link.enabled)
            && |b.link.net.accepted| == |a.link.net.accepted| + (if b.link.enabled != a.link.enabled then 1 else 0)
  {
    hide Complete;
    if a.link.enabled { DisableOutcome(a.link); } else { EnableOutcome(a.link); }
  }

  /** An entry for somebody else, an unknown action, and an enable whose bin cannot be built change nothing
      at all. */
  lemma IdleEntriesDoNothing(a: AppState, p: Prompt)
    requires LiveLinkTheorems.Reachable(a.link) && a.link.cmd.CmdIdle? && Switch(p).None? && Saves(p).None?
    ensures Handle(a, p) == a
  {
    hide LiveLinkTheorems.Reachable;
    LiveLinkTheorems.WaitingRequestsMeetTheFlag(a.link);
  }

  /** The flag after a run of entries: the last one that says anything decides. */
  function LastSwitch(enabled: bool, ps: seq<Prompt>): bool
    decreases |ps|
  {
    if ps == [] then enabled
    else if Switch(ps[|ps| - 1]).Some? then Switch(ps[|ps| - 1]).value
    else LastSwitch(enabled, ps[..|ps| - 1])
  }

  /** How often the flag changes along the way. */
  function Changes(enabled: bool, ps: seq<Prompt>): nat
    decreases |ps|
  {
    if ps == [] then 0
    else
      var before := LastSwitch(enabled, ps[..|ps| - 1]);
      Changes(enabled, ps[..|ps| - 1]) + (if LastSwitch(enabled, ps) != before then 1 else 0)
  }

  lemma HandleLast(a: AppState, ps: seq<Prompt>)
    requires ps != []
    ensures HandleAll(a, ps) == Handle(HandleAll(a, ps[..|ps| - 1]), ps[|ps| - 1])
  {
    hide Handle;
    var front, last := ps[..|ps| - 1], [ps[|ps| - 1]];
    assert ps == front + last && last[1..] == [];
    MessagesCompose(a, front, last);
  }

  /** A message leaves the flag its last effective switch asks for and schedules one graph change for
      each time the flag changes along the way; asking for what already holds schedules nothing. */
  lemma {:induction false} MessageSwitchesFlag(a: AppState, ps: seq<Prompt>)
    requires a.link.cmd.CmdIdle?
    ensures var b := HandleAll(a, ps);
            && b.link.cmd.CmdIdle?
            && b.link.enabled == LastSwitch(a.link.enabled, ps)
            && |b.link.net.accepted| == |a.link.net.accepted| + Changes(a.link.enabled, ps)
    decreases |ps|
  {
    hide Handle, Switch;
    if ps == [] {
    } else {
      var front := ps[..|ps| - 1];
      MessageSwitchesFlag(a, front);
      HandleLast(a, ps);
      HandleSwitches(HandleAll(a, front), ps[|ps| - 1]);
    }
  }

  /** Enabling twice is enabling once, provided the first attempt could build its bin; disabling twice
      is disabling once. */
  lemma SwitchingTwiceIsOnce(a: AppState, p: Prompt, q: Prompt)
    requires a.link.cmd.CmdIdle? && Switch(p).Some? && Switch(q) == Switch(p)
    ensures Handle(Handle(a, p), q) == Handle(a, p)
  {
    hide Complete;
    HandleSwitches(a, p);
  }

  // ---------------------------------------------------------------------------
  // The save gate
  // ---------------------------------------------------------------------------

  /** What an entry asks of the gate directly. */
  function Saves(p: Prompt): Option<bool> {
    if p.target != Some("fpfilter") then None
    else if p.action == Some("save-fp-enable") then Some(true)
    else if p.action == Some("save-fp-disable") then Some(false)
    else None
  }

  /** The timer an entry starts, as a delay. */
  function Delay(p: Prompt): Option<nat> {
    if Saves(p) == Some(true) && p.duration.Some? then Some(p.duration.value % WORD) else None
  }

  /** The gate after a run of entries: the last one that changes the flag closes it, the last one
      that asks for saving or not has its way, whichever comes later. */
  function LastSetting(open: bool, enabled: bool, ps: seq<Prompt>): bool
    decreases |ps|
  {
    if ps == [] then open
    else
      var front, p := ps[..|ps| - 1], ps[|ps| - 1];
      if LastSwitch(enabled, ps) != LastSwitch(enabled, front) then false
      else if Saves(p).Some? then Saves(p).value
      else LastSetting(open, enabled, front)
  }

  function Delays(ps: seq<Prompt>): seq<nat>
    decreases |ps|
  {
    if ps == [] then []
    else if Delay(ps[|ps| - 1]).Some? then Delays(ps[..|ps| - 1]) + [Delay(ps[|ps| - 1]).value]
    else Delays(ps[..|ps| - 1])
  }

  ghost predicate TimersAdded(g: SaveGate.Gate, h: SaveGate.Gate, delays: seq<nat>) {
    && h.now == g.now && |h.timers| == |g.timers| + |delays| && g.timers <= h.timers
    && (forall i :: 0 <= i < |delays| ==> h.timers[|g.timers| + i].due == g.now + delays[i])
  }

  lemma HandleSets(a: AppState, p: Prompt)
    requires a.link.cmd.CmdIdle?
    ensures var b := Handle(a, p);
            && b.gate.open == (if b.link.enabled != a.link.enabled then false
                               else if Saves(p).Some? then Saves(p).value else a.gate.open)
            && TimersAdded(a.gate, b.gate, if Delay(p).Some? then [Delay(p).value] else [])
  {
    hide Complete;
    if a.link.enabled { DisableOutcome(a.link); } else { EnableOutcome(a.link); }
  }

  lemma TimersAddedTwice(g: SaveGate.Gate, h: SaveGate.Gate, k: SaveGate.Gate, d: seq<nat>, e: seq<nat>)
    requires TimersAdded(g, h, d) && TimersAdded(h, k, e)
    ensures TimersAdded(g, k, d + e)
  {
    forall i | 0 <= i < |d + e| ensures k.timers[|g.timers| + i].due == g.now + (d + e)[i] {
      if i < |d| {
        assert k.timers[|g.timers| + i] == h.timers[|g.timers| + i];
      } else {
        assert k.timers[|h.timers| + (i - |d|)].due == h.now + e[i - |d|];
      }
    }
  }

  /** What a message does to the gate, and the timers it leaves behind: one for each entry that asks for
      saving with a duration, in order. */
  lemma {:induction false} MessageSetsGate(a: AppState, ps: seq<Prompt>)
    requires a.link.cmd.CmdIdle?
    ensures HandleAll(a, ps).gate.open == LastSetting(a.gate.open, a.link.enabled, ps)
    ensures TimersAdded(a.gate, HandleAll(a, ps).gate, Delays(ps))
    decreases |ps|
  {
    hide Handle, TimersAdded, Switch, Saves, Delay;
    if ps == [] {
      NoTimersAdded(a.gate);
    } else {
      var front, p := ps[..|ps| - 1], ps[|ps| - 1];
      MessageSetsGate(a, front);
      MessageSwitchesFlag(a, front);
      MessageSwitchesFlag(a, ps);
      HandleLast(a, ps);
      HandleSets(HandleAll(a, front), p);
      TimersAddedTwice(a.gate, HandleAll(a, front).gate, HandleAll(a, ps).gate, Delays(front),
                       if Delay(p).Some? then [Delay(p).value] else []);
      assert Delays(front) + [] == Delays(front);
    }
  }

  lemma NoTimersAdded(g: SaveGate.Gate)
    ensures TimersAdded(g, g, [])
  {
  }

  // ---------------------------------------------------------------------------
  // Messages are runs of the protocol
  // ---------------------------------------------------------------------------

  lemma RunTwo(s: LiveLink.State, l: LiveLink.Label, t: LiveLink.State)
    requires LiveLink.Enabled(s, l) && t == Complete(LiveLink.Step(s, l))
    ensures t == LiveLink.Run(s, [l] + Advances(5))
  {
    hide LiveLink.Step, LiveLink.Enabled;
    CompleteIsRun(LiveLink.Step(s, l));
    assert ([l] + Advances(5))[1..] == Advances(5);
  }

  /** Every command handled between other threads' steps keeps the protocol reachable, so everything
      proved of reachable states holds while messages are handled. */
  lemma HandleIsRun(a: AppState, p: Prompt) returns (ls: seq<LiveLink.Label>)
    requires a.link.cmd.CmdIdle?
    ensures Handle(a, p).link == LiveLink.Run(a.link, ls)
    ensures forall i :: 0 <= i < |ls| ==> LiveLinkTheorems.IsCommand(ls[i])
  {
    hide Complete, LiveLink.BeginEnable, LiveLink.BeginDisable;
    if Handle(a, p).link == a.link {
      ls := [];
    } else if p.action.value == "enable" {
      if a.link.enabled || !p.binBuilt {
        ls := [LiveLink.DoEnable(p.binBuilt)];
        assert ls[1..] == [];
      } else {
        ls := [LiveLink.DoEnable(true)] + Advances(5);
        RunTwo(a.link, LiveLink.DoEnable(true), Handle(a, p).link);
      }
    } else {
      ls := [LiveLink.DoDisable] + Advances(5);
      RunTwo(a.link, LiveLink.DoDisable, Handle(a, p).link);
    }
  }

  lemma {:induction false} MessageKeepsReachable(a: AppState, ps: seq<Prompt>)
    requires LiveLinkTheorems.Reachable(a.link) && a.link.cmd.CmdIdle?
    ensures LiveLinkTheorems.Reachable(HandleAll(a, ps).link) && HandleAll(a, ps).link.cmd.CmdIdle?
    decreases |ps|
  {
    hide Handle, LiveLinkTheorems.Reachable;
    if ps == [] {
    } else {
      HandleSwitches(a, ps[0]);
      var ls := HandleIsRun(a, ps[0]);
      LiveLinkTheorems.ReachableOn(a.link, ls);
      MessageKeepsReachable(Handle(a, ps[0]), ps[1..]);
    }
  }
}
