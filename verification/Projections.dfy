/** A run of the whole system is, seen from each of its parts, a run of that part; so what is proved of the
    parts holds inside the system. */
module Projections {
  import FrameSelection
  import opened EndToEnd
  import LiveLink
  import LiveLinkTheorems
  import SaveGate
  import SaveWorker

  /** What one step is to the protocol, to the gate and to the worker: at most one step of each. */
  function LinkPart(s: Sys, l: Label): seq<LiveLink.Label> {
    if Enabled(s, l) && l.LinkStep? then [l.l] else []
  }

  function GatePart(s: Sys, l: Label): seq<SaveGate.Label> {
    if !Enabled(s, l) then []
    else if l.GateStep? then [l.g]
    else if l == LinkStep(LiveLink.DoAdvance) && (s.link.cmd.EnBuilt? || s.link.cmd.DisFlagged?)
      then [SaveGate.SetClosed]
    else []
  }

  function WorkerPart(s: Sys, l: Label): seq<SaveWorker.Label<Ticket>> {
    if !Enabled(s, l) then []
    else match l
      case PushFrame =>
        [SaveWorker.Push(Ticket(s.scan.at, s.scan.k, s.link.net.delivered[s.scan.at].u.item.frames[s.scan.k]))]
      case CountFrame => [SaveWorker.CountPush]
      case SaveStep(x) => [x]
      case _ => []
  }

  function LinkRun(s: Sys, ls: seq<Label>): seq<LiveLink.Label>
    decreases |ls|
  {
    if ls == [] then [] else LinkPart(s, ls[0]) + LinkRun(Exec(s, ls[0]), ls[1..])
  }

  function GateRun(s: Sys, ls: seq<Label>): seq<SaveGate.Label>
    decreases |ls|
  {
    if ls == [] then [] else GatePart(s, ls[0]) + GateRun(Exec(s, ls[0]), ls[1..])
  }

  function WorkerRun(s: Sys, ls: seq<Label>): seq<SaveWorker.Label<Ticket>>
    decreases |ls|
  {
    if ls == [] then [] else WorkerPart(s, ls[0]) + WorkerRun(Exec(s, ls[0]), ls[1..])
  }

  lemma LinkPartRuns(s: Sys, l: Label, rest: seq<LiveLink.Label>)
    ensures LiveLink.Run(s.link, LinkPart(s, l) + rest) == LiveLink.Run(Exec(s, l).link, rest)
  {
    hide LiveLink.Step, LiveLink.Enabled, IsBuffer, FrameSelection.PassesRatio, SaveWorker.Step, SaveGate.Step;
    var part := LinkPart(s, l);
    if part == [] {
      assert part + rest == rest;
    } else {
      assert (part + rest)[1..] == rest;
    }
  }

  lemma GatePartRuns(s: Sys, l: Label, rest: seq<SaveGate.Label>)
    ensures SaveGate.Run(s.gate, GatePart(s, l) + rest) == SaveGate.Run(Exec(s, l).gate, rest)
    ensures SaveGate.Possible(s.gate, GatePart(s, l) + rest) <==> SaveGate.Possible(Exec(s, l).gate, rest)
  {
    hide LiveLink.Step, LiveLink.Enabled, IsBuffer, FrameSelection.PassesRatio, SaveWorker.Step, SaveWorker.Enabled;
    var part := GatePart(s, l);
    if part == [] {
      assert part + rest == rest;
    } else {
      assert (part + rest)[1..] == rest;
    }
    hide SaveGate.Step;
  }

  lemma WorkerPartRuns(s: Sys, l: Label, rest: seq<SaveWorker.Label<Ticket>>)
    ensures SaveWorker.Run(s.worker, WorkerPart(s, l) + rest) == SaveWorker.Run(Exec(s, l).worker, rest)
  {
    hide LiveLink.Step, LiveLink.Enabled, IsBuffer, SaveWorker.WorkerNext, SaveWorker.StopperNext, SaveGate.Step;
    var part := WorkerPart(s, l);
    if part == [] {
      assert part + rest == rest;
    } else {
      assert (part + rest)[1..] == rest;
      CountIsEnabled(s, l);
    }
    hide SaveWorker.Step;
  }

  lemma CountIsEnabled(s: Sys, l: Label)
    requires WorkerPart(s, l) != []
    ensures SaveWorker.Enabled(s.worker, WorkerPart(s, l)[0])
  {
    hide SaveWorker.Step, LiveLink.Step;
  }

  /** Whatever the threads do together, the link, the gate and the worker each make a run of their own, with
      no gate label where it is not possible. */
  lemma {:induction false} RunProjects(s: Sys, ls: seq<Label>)
    ensures Run(s, ls).link == LiveLink.Run(s.link, LinkRun(s, ls))
    ensures Run(s, ls).gate == SaveGate.Run(s.gate, GateRun(s, ls)) && SaveGate.Possible(s.gate, GateRun(s, ls))
    ensures Run(s, ls).worker == SaveWorker.Run(s.worker, WorkerRun(s, ls))
    decreases |ls|
  {
    hide Exec, LinkPart, GatePart, WorkerPart;
    if ls == [] {
    } else {
      var t := Exec(s, ls[0]);
      RunProjects(t, ls[1..]);
      LinkPartRuns(s, ls[0], LinkRun(t, ls[1..]));
      GatePartRuns(s, ls[0], GateRun(t, ls[1..]));
      WorkerPartRuns(s, ls[0], WorkerRun(t, ls[1..]));
    }
  }

  /** So in every reachable state of the system each part is in a reachable state of its own, and all that is
      proved of those applies. */
  lemma PartsAreReachable(s: Sys)
    requires Reachable(s)
    ensures LiveLinkTheorems.Reachable(s.link) && SaveWorker.Reachable(s.worker)
    ensures exists lag: nat, gs: seq<SaveGate.Label> ::
              SaveGate.Possible(SaveGate.Closed(lag), gs) && s.gate == SaveGate.Run(SaveGate.Closed(lag), gs)
  {
    hide Run;
    var configured, lag, ls :| s == Run(Start(configured, lag), ls);
    var start := Start(configured, lag);
    RunProjects(start, ls);
    assert s.link == LiveLink.Run(LiveLink.Init(configured), LinkRun(start, ls));
    assert s.worker == SaveWorker.Run(SaveWorker.Start(), WorkerRun(start, ls));
    assert s.gate == SaveGate.Run(SaveGate.Closed(lag), GateRun(start, ls));
  }

  /** The parts hold each other back in two places only: an item may go into the next element only when no scan
      is going on there, and the gate's own commands wait while a handler is at work. Everything else a part
      can do by itself it can do in the system. */
  lemma PartsMoveFreely(s: Sys, x: LiveLink.Label, g: SaveGate.Label, w: SaveWorker.Label<Ticket>)
    ensures LiveLink.Enabled(s.link, x) && (x.DoPush? || x.DoLeave? ==> s.scan.NoScan?) ==>
              Enabled(s, LinkStep(x))
    ensures SaveGate.Enabled(s.gate, g) && (g.FireTimer? || g.Tick? || s.link.cmd.CmdIdle?) ==>
              Enabled(s, GateStep(g))
    ensures SaveWorker.Enabled(s.worker, w) && (w.WorkerStep? || w.StopperStep? || w.CallStop?) ==>
              Enabled(s, SaveStep(w))
  {
    hide LiveLink.Enabled, SaveGate.Enabled, SaveWorker.Enabled;
  }
}
