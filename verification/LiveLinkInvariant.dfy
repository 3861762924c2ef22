/** What every step of the reconfiguration protocol keeps. */
module LiveLinkInvariant {
  import opened Wrappers
  import opened LiveLink

  // ---------------------------------------------------------------------------
  // What a history of requests means
  // ---------------------------------------------------------------------------

  /** The bin in the chain once a history has been carried out: its last request decides. */
  function Chain(initial: Option<nat>, history: seq<Request>): Option<nat> {
    if history == [] then initial
    else if history[|history| - 1].kind.AddCb? then history[|history| - 1].main
    else None
  }

  /** An add needs an empty chain, a remove needs its own bin in it. */
  predicate Accepts(current: Option<nat>, r: Request) {
    && r.main.Some?
    && (if r.kind.AddCb? then current.None? else current == r.main)
  }

  ghost predicate Alternates(initial: Option<nat>, history: seq<Request>) {
    forall i {:trigger history[i]} :: 0 <= i < |history| ==> Accepts(Chain(initial, history[..i]), history[i])
  }

  function Adds(history: seq<Request>): nat {
    if history == [] then 0
    else Adds(history[..|history| - 1]) + (if history[|history| - 1].kind.AddCb? then 1 else 0)
  }

  /** The positions below `n` that are not in `gone`, in order. */
  function Survivors(n: nat, gone: set<nat>): seq<nat> {
    if n == 0 then [] else Survivors(n - 1, gone) + (if n - 1 in gone then [] else [n - 1])
  }

  // ---------------------------------------------------------------------------
  // Views of the network
  // ---------------------------------------------------------------------------

  /** The bin the applied part of the history leaves in the chain. */
  function InChain(n: Net): Option<nat> {
    if n.applied <= |n.accepted| then Chain(n.initial, n.accepted[..n.applied]) else None
  }

  /** The first accepted request that is still waiting in the probe list. */
  function Waiting(n: Net): nat {
    n.applied + (if n.cursor.Sending? then 1 else 0)
  }

  function Wrap(us: seq<Unit>, via: Option<nat>): seq<Delivery> {
    seq(|us|, i requires 0 <= i < |us| => Delivery(us[i], via))
  }

  /** The stream items a bin holds: everything but an injected end-of-stream, which comes last. */
  function StreamPart(held: seq<Unit>): seq<Unit> {
    if held != [] && held[|held| - 1].InjectedEos? then held[..|held| - 1] else held
  }

  /** The items that entered the chain and were not lost: delivered, then still held. */
  function Flow(n: Net): seq<Delivery> {
    if InChain(n).Some? && InChain(n).value in n.bins
    then n.delivered + Wrap(StreamPart(n.bins[InChain(n).value].held), InChain(n))
    else n.delivered
  }

  function Positions(ds: seq<Delivery>): seq<nat> {
    seq(|ds|, i requires 0 <= i < |ds| => if ds[i].u.Stream? then ds[i].u.pos else 0)
  }

  function InHand(c: Cursor): seq<nat> {
    if c.Idle? then [] else [c.pos]
  }

  predicate AllStream(us: seq<Unit>) {
    forall i :: 0 <= i < |us| ==> us[i].Stream?
  }

  function Copies(ps: seq<Probe>): set<nat> {
    set i | 0 <= i < |ps| :: ps[i].copy
  }

  function ArmedCopies(n: Net): set<nat> {
    if n.cursor.Sending? && n.cursor.bin in n.bins && |n.bins[n.cursor.bin].srcProbes| == 1
    then {n.bins[n.cursor.bin].srcProbes[0]} else {}
  }

  function CommandCopies(cmd: CmdPc): set<nat> {
    if cmd.EnCopied? || cmd.DisCopied? then {cmd.copy} else {}
  }

  // ---------------------------------------------------------------------------
  // The invariant, part by part
  // ---------------------------------------------------------------------------

  predicate Endpoints(info: LinkUnlinkInfo) {
    info.prev == Prev && info.prevPrev == PrevPrev && info.next == Next
  }

  /** The graph is the one the applied history asks for. */
  ghost predicate Wired(n: Net) {
    && n.applied <= |n.accepted|
    && Alternates(n.initial, n.accepted)
    && n.links == Graph(InChain(n))
    && n.members == Members(InChain(n))
  }

  predicate Answers(n: Net, p: Probe, r: Request) {
    && p.kind == r.kind && p.copy in n.heap
    && n.heap[p.copy].mainElement == r.main && r.main.Some? && Endpoints(n.heap[p.copy])
  }

  /** The waiting probes are the rest of the history, each with its own snapshot. */
  ghost predicate Queued(n: Net) {
    && |n.accepted| == Waiting(n) + |n.pending|
    && (forall i :: 0 <= i < |n.pending| ==> Answers(n, n.pending[i], n.accepted[Waiting(n) + i]))
  }

  /** While an end-of-stream is being sent, the bin it went into carries the removal's snapshot. */
  ghost predicate ArmedOk(n: Net) {
    n.cursor.Sending? ==>
      && n.applied < |n.accepted|
      && n.accepted[n.applied] == Request(PadCb, Some(n.cursor.bin))
      && n.cursor.bin in n.bins
      && |n.bins[n.cursor.bin].srcProbes| == 1
      && Answers(n, Probe(PadCb, n.bins[n.cursor.bin].srcProbes[0]), n.accepted[n.applied])
  }

  /** The bin in the chain: it plays, keeps what entered it in order, and accepts items unless the
      stream or a removal has ended it. */
  predicate LiveMain(n: Net, m: MainState) {
    && m.phase == Playing
    && m.entered == m.left + m.held
    && AllStream(m.left)
    && AllStream(StreamPart(m.held))
    && (n.cursor.Sending? ==> m.eos && m.held != [] && m.held[|m.held| - 1].InjectedEos?)
    && (!n.cursor.Sending? ==> m.srcProbes == [] && AllStream(m.held))
    && (m.eos && !n.cursor.Sending? ==> n.ended && n.cursor.Idle?)
    && (forall i :: 0 <= i < |m.held| && m.held[i].Stream? && m.held[i].item.Eos? ==> n.ended && n.cursor.Idle?)
  }

  /** A removed bin: everything that entered it left it, in order, and last came the injected end. */
  predicate RetiredMain(m: MainState) {
    && m.phase == Nulled
    && m.entered == m.left + [InjectedEos]
    && AllStream(m.left)
    && m.held == [] && m.srcProbes == []
  }

  ghost predicate BinsOk(n: Net) {
    && (forall b :: b in n.bins ==> b < n.nextBin)
    && (forall b :: b in n.bins ==>
          match n.bins[b].phase
          case Created => n.bins[b] == FRESH_MAIN
          case Playing => InChain(n) == Some(b)
          case Nulled => RetiredMain(n.bins[b]))
    && (InChain(n).Some? ==> InChain(n).value in n.bins && LiveMain(n, n.bins[InChain(n).value]))
  }

  /** Bins waiting to be added are untouched and all different. */
  ghost predicate FreshAdds(n: Net) {
    && (forall i :: n.applied <= i < |n.accepted| && n.accepted[i].kind.AddCb? && n.accepted[i].main.Some? ==>
          n.accepted[i].main.value in n.bins && n.bins[n.accepted[i].main.value].phase == Created)
    && (forall i, j :: n.applied <= i < j < |n.accepted| && n.accepted[i].kind.AddCb? && n.accepted[j].kind.AddCb? ==>
          n.accepted[i].main != n.accepted[j].main)
  }

  ghost predicate Tracked(n: Net, d: Delivery) {
    && d.u.Stream?
    && d.u.pos < |n.offered| && d.u.item == n.offered[d.u.pos]
    && d.u.arrived <= d.u.stamp <= n.applied <= |n.accepted|
    && d.via == Chain(n.initial, n.accepted[..d.u.stamp])
  }

  /** Where every offered item is, and which part of the history it saw. */
  ghost predicate FlowOk(n: Net) {
    && (forall i :: 0 <= i < |Flow(n)| ==> Tracked(n, Flow(n)[i]))
    && (forall i, j :: 0 <= i < j < |Flow(n)| && Flow(n)[i].u.Stream? && Flow(n)[j].u.Stream? ==>
          Flow(n)[i].u.stamp <= Flow(n)[j].u.stamp)
    && Positions(Flow(n)) + InHand(n.cursor) == Survivors(|n.offered|, n.dropped)
    && n.lost == []
  }

  ghost predicate CursorOk(n: Net) {
    && (!n.cursor.Idle? ==> n.cursor.pos + 1 == |n.offered| && n.cursor.item == n.offered[n.cursor.pos]
                            && n.cursor.arrived <= |n.accepted| && n.cursor.pos !in n.dropped)
    && (n.cursor.Cleared? ==> n.cursor.arrived <= n.cursor.stamp == n.applied)
    && (!n.cursor.Idle? ==> n.ended == n.cursor.item.Eos?)
  }

  ghost predicate DropsOk(n: Net) {
    && (forall p :: p in n.dropped ==> p < |n.offered|)
    && n.applied <= |n.accepted| && |n.dropped| == Adds(n.accepted[..n.applied])
  }

  ghost predicate NetInv(n: Net) {
    && Wired(n) && Queued(n) && ArmedOk(n) && BinsOk(n) && FreshAdds(n)
    && FlowOk(n) && CursorOk(n) && DropsOk(n)
    && !n.faulted
  }

  /** Every live copy has exactly one owner: a waiting probe, the armed probe or the command thread. */
  ghost predicate OwnersOk(s: State) {
    var n := s.net;
    && (forall i, j :: 0 <= i < j < |n.pending| ==> n.pending[i].copy != n.pending[j].copy)
    && Copies(n.pending) !! ArmedCopies(n)
    && Copies(n.pending) !! CommandCopies(s.cmd)
    && ArmedCopies(n) !! CommandCopies(s.cmd)
    && n.heap.Keys == Copies(n.pending) + ArmedCopies(n) + CommandCopies(s.cmd)
    && (forall c :: c in n.heap ==> c < n.nextCopy)
  }

  predicate RequestInstalled(cmd: CmdPc) {
    cmd.EnInstalled? || cmd.DisInstalled? || cmd.DisForgotten?
  }

  /** The command thread's globals against the accepted history. */
  ghost predicate ControlOk(s: State) {
    var n := s.net;
    var target := Chain(n.initial, n.accepted);
    && Endpoints(s.info)
    && match s.cmd
       case CmdIdle =>
         s.enabled == s.info.mainElement.Some? && s.fpfilterBin == s.info.mainElement && target == s.info.mainElement
       case EnBuilt => Enabling(s)
       case EnGateClosed => Enabling(s)
       case EnCopied(c) => Enabling(s) && c in n.heap && n.heap[c] == s.info
       case EnInstalled => !s.enabled && s.info.mainElement.Some?
         && s.fpfilterBin == s.info.mainElement && target == s.info.mainElement
       case DisFlagged => Disabling(s)
       case DisGateClosed => Disabling(s)
       case DisCopied(c) => Disabling(s) && c in n.heap && n.heap[c] == s.info
       case DisInstalled => !s.enabled && target == None && s.info.mainElement.Some?
       case DisForgotten => !s.enabled && target == None && s.fpfilterBin == None
  }

  ghost predicate Enabling(s: State) {
    && !s.enabled && s.info.mainElement.Some? && s.fpfilterBin == s.info.mainElement
    && Chain(s.net.initial, s.net.accepted) == None
    && s.info.mainElement.value in s.net.bins && s.net.bins[s.info.mainElement.value].phase == Created
    && (forall i :: s.net.applied <= i < |s.net.accepted| && s.net.accepted[i].kind.AddCb? ==>
          s.net.accepted[i].main != s.info.mainElement)
  }

  ghost predicate Disabling(s: State) {
    && !s.enabled && s.info.mainElement.Some? && s.fpfilterBin == s.info.mainElement
    && Chain(s.net.initial, s.net.accepted) == s.info.mainElement
  }

  ghost predicate Inv(s: State) {
    NetInv(s.net) && OwnersOk(s) && ControlOk(s)
  }
}
