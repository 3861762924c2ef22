/** The live reconfiguration protocol: a command thread schedules graph changes by installing
    probes, and the streaming thread carries them out when an item reaches the pad.

    Everything here is a pure step system; `LinkRuntime` and `App` are the classes that
    change state in place and are proved to take exactly these steps. */
module LiveLink {
  import opened Wrappers
  import opened FrameSelection

  // ---------------------------------------------------------------------------
  // State
  // ---------------------------------------------------------------------------

  datatype Elem = PrevPrev | Prev | Next | Main(bin: nat)

  /** The request record. The pipeline and main loop pointers never vary and are left out. */
  datatype LinkUnlinkInfo = LinkUnlinkInfo(mainElement: Option<nat>, prev: Elem, prevPrev: Elem, next: Elem)

  datatype Phase = Created | Playing | Nulled

  /** What can travel over a pad. */
  datatype Payload = Buffer(frames: seq<Frame>) | Event(kind: nat) | Eos

  /** A travelling item. A stream item remembers its position in the offered stream, how many
      requests had been accepted when it arrived, and how many had been applied to the graph
      when it left the probed pad. The end-of-stream that a removal injects is kept apart. */
  datatype Unit = Stream(pos: nat, item: Payload, arrived: nat, stamp: nat) | InjectedEos
  {
    predicate IsEos() { InjectedEos? || item.Eos? }
  }

  /** A filter bin. `entered` and `left` are histories of its sink and source pads. */
  datatype MainState = MainState(phase: Phase, eos: bool, held: seq<Unit>,
                                 entered: seq<Unit>, left: seq<Unit>, srcProbes: seq<nat>)

  const FRESH_MAIN := MainState(Created, false, [], [], [], [])

  datatype Kind = AddCb | PadCb

  /** A blocking probe on the pad before the previous element, with its private copy. */
  datatype Probe = Probe(kind: Kind, copy: nat)

  /** An accepted request, as recorded in the history. */
  datatype Request = Request(kind: Kind, main: Option<nat>)

  /** An item handed to the next element, and the bin it crossed on the way. */
  datatype Delivery = Delivery(u: Unit, via: Option<nat>)

  /** Where the streaming thread is with the item in its hands. */
  datatype Cursor =
    | Idle
    | AtPad(pos: nat, item: Payload, arrived: nat)
    | Sending(pos: nat, item: Payload, arrived: nat, bin: nat)
    | Cleared(pos: nat, item: Payload, arrived: nat, stamp: nat)

  datatype Net = Net(
    // the GStreamer objects
    links: map<Elem, Elem>, members: set<nat>, bins: map<nat, MainState>, nextBin: nat,
    pending: seq<Probe>, cursor: Cursor, ended: bool,
    // the C heap of request copies
    heap: map<nat, LinkUnlinkInfo>, nextCopy: nat, faulted: bool,
    // histories
    initial: Option<nat>, accepted: seq<Request>, applied: nat,
    offered: seq<Payload>, delivered: seq<Delivery>, dropped: set<nat>, lost: seq<Unit>)

  /** Where the command thread is inside `enable_fpfilter` or `disable_fpfilter`. */
  datatype CmdPc =
    | CmdIdle
    | EnBuilt | EnGateClosed | EnCopied(copy: nat) | EnInstalled
    | DisFlagged | DisGateClosed | DisCopied(copy: nat) | DisInstalled | DisForgotten

  datatype State = State(net: Net, enabled: bool, info: LinkUnlinkInfo, fpfilterBin: Option<nat>, cmd: CmdPc)

  // ---------------------------------------------------------------------------
  // The GStreamer calls the callbacks make
  // ---------------------------------------------------------------------------

  /** Every bin is named alike, so a second one is refused. */
  function BinAdd(members: set<nat>, bin: nat): set<nat> {
    if members == {} then {bin} else members
  }

  predicate InPipeline(members: set<nat>, e: Elem) {
    e.Main? ==> e.bin in members
  }

  predicate CanLink(links: map<Elem, Elem>, members: set<nat>, src: Elem, sink: Elem) {
    && InPipeline(members, src) && InPipeline(members, sink)
    && src !in links && (forall e | e in links :: links[e] != sink)
  }

  function ElementLink(links: map<Elem, Elem>, members: set<nat>, src: Elem, sink: Elem): map<Elem, Elem> {
    if CanLink(links, members, src, sink) then links[src := sink] else links
  }

  function ElementLinkMany(links: map<Elem, Elem>, members: set<nat>, a: Elem, b: Elem, c: Elem): map<Elem, Elem> {
    if CanLink(links, members, a, b) then ElementLink(links[a := b], members, b, c) else links
  }

  predicate Linked(links: map<Elem, Elem>, src: Elem, sink: Elem) {
    src in links && links[src] == sink
  }

  /** Taking an element out of its bin unlinks its pads. */
  function WithoutElem(links: map<Elem, Elem>, gone: Elem): map<Elem, Elem> {
    map e | e in links && e != gone && links[e] != gone :: links[e]
  }

  function WithPhase(bins: map<nat, MainState>, bin: nat, phase: Phase): map<nat, MainState> {
    if bin in bins then bins[bin := bins[bin].(phase := phase)] else bins
  }

  /** Going to NULL throws away whatever the element still holds. */
  function Nullify(n: Net, bin: nat): Net {
    if bin !in n.bins then n else
      n.(bins := n.bins[bin := n.bins[bin].(phase := Nulled, held := [])], lost := n.lost + n.bins[bin].held)
  }

  /** `free`; releasing something that is not allocated is a fault. */
  function Free(n: Net, copy: nat): Net {
    if copy in n.heap then n.(heap := n.heap - {copy}) else n.(faulted := true)
  }

  predicate Usable(n: Net, copy: nat) {
    copy in n.heap && n.heap[copy].mainElement.Some?
  }

  // ---------------------------------------------------------------------------
  // The probe callbacks
  // ---------------------------------------------------------------------------

  function AddElemProbeCb(n: Net, copy: nat): Net {
    if !Usable(n, copy) then n.(faulted := true) else
      var info := n.heap[copy];
      var bin := info.mainElement.value;
      var members := BinAdd(n.members, bin);
      if !Linked(n.links, info.prev, info.next) then
        n.(members := members)
      else
        var links := ElementLinkMany(n.links - {info.prev}, members, info.prev, Main(bin), info.next);
        Free(n.(members := members, links := links, bins := WithPhase(n.bins, bin, Playing),
               applied := n.applied + 1), copy)
  }

  /** Arms the second probe and pushes an end-of-stream into the bin. A pad that has already
      seen one refuses it. */
  function PadProbeCb(n: Net, copy: nat): Net
    requires n.cursor.AtPad?
  {
    if !Usable(n, copy) || n.heap[copy].mainElement.value !in n.bins then n.(faulted := true) else
      var bin := n.heap[copy].mainElement.value;
      var m := n.bins[bin];
      var armed := m.(srcProbes := m.srcProbes + [copy]);
      if m.phase != Playing || m.eos then
        n.(bins := n.bins[bin := armed])
      else
        n.(bins := n.bins[bin := armed.(eos := true, held := m.held + [InjectedEos],
                                              entered := m.entered + [InjectedEos])],
           cursor := Sending(n.cursor.pos, n.cursor.item, n.cursor.arrived, bin))
  }

  /** Takes the oldest probe off a bin's source pad. */
  function Disarm(n: Net, owner: nat): Net
    requires owner in n.bins && n.bins[owner].srcProbes != []
  {
    n.(bins := n.bins[owner := n.bins[owner].(srcProbes := n.bins[owner].srcProbes[1..])])
  }

  function RemoveMain(n: Net, copy: nat): Net {
    if !Usable(n, copy) then n.(faulted := true) else
      var info := n.heap[copy];
      var bin := info.mainElement.value;
      var n1 := Nullify(n, bin);
      var members := n1.members - {bin};
      var links := ElementLink(WithoutElem(n1.links, Main(bin)), members, info.prev, info.next);
      Free(n1.(members := members, links := links, applied := n1.applied + 1), copy)
  }

  /** The callback of the second probe, for an end-of-stream that reached the source pad of `owner`. */
  function RemoveElemProbeCb(n: Net, owner: nat, copy: nat): Net
    requires owner in n.bins && n.bins[owner].srcProbes != []
  {
    RemoveMain(Disarm(n, owner), copy)
  }

  // ---------------------------------------------------------------------------
  // Streaming thread
  // ---------------------------------------------------------------------------

  /** An item arrives at the probed pad. Nothing follows the stream's own end. */
  function Offer(n: Net, item: Payload): Net {
    n.(cursor := AtPad(|n.offered|, item, |n.accepted|), offered := n.offered + [item], ended := item.Eos?)
  }

  /** The oldest probe fires. The callback takes it off the pad first; an add drops the item. */
  function FireProbe(n: Net): Net
    requires n.cursor.AtPad? && n.pending != []
  {
    var p := n.pending[0];
    var n1 := n.(pending := n.pending[1..]);
    match p.kind
    case AddCb => AddElemProbeCb(n1, p.copy).(cursor := Idle, dropped := n.dropped + {n.cursor.pos})
    case PadCb => PadProbeCb(n1, p.copy)
  }

  /** No probe is left: the item may go on. A probe installed from here on waits for the next item. */
  function ClearPad(n: Net): Net
    requires n.cursor.AtPad?
  {
    n.(cursor := Cleared(n.cursor.pos, n.cursor.item, n.cursor.arrived, n.applied))
  }

  /** The previous element hands the item to whatever it is linked to. */
  function PushDown(n: Net): Net
    requires n.cursor.Cleared?
  {
    var u := Stream(n.cursor.pos, n.cursor.item, n.cursor.arrived, n.cursor.stamp);
    var n1 := n.(cursor := Idle);
    if Linked(n.links, PrevPrev, Prev) && Linked(n.links, Prev, Next) then
      n1.(delivered := n.delivered + [Delivery(u, None)])
    else if Linked(n.links, PrevPrev, Prev) && Prev in n.links && n.links[Prev].Main? && n.links[Prev].bin in n.bins
            && n.bins[n.links[Prev].bin].phase == Playing && !n.bins[n.links[Prev].bin].eos then
      var bin := n.links[Prev].bin;
      var m := n.bins[bin];
      n1.(bins := n.bins[bin := m.(held := m.held + [u], entered := m.entered + [u], eos := u.IsEos())])
    else
      n1.(lost := n.lost + [u])
  }

  /** The oldest unit a bin holds reaches its source pad. */
  function LeaveMain(n: Net, bin: nat): Net
    requires bin in n.bins && n.bins[bin].held != []
  {
    var m := n.bins[bin];
    var u := m.held[0];
    var n1 := n.(bins := n.bins[bin := m.(held := m.held[1..])]);
    var n2 :=
      if m.srcProbes != [] && u.IsEos() then
        RemoveElemProbeCb(n1, bin, m.srcProbes[0])
      else if Linked(n.links, Main(bin), Next) then
        n.(bins := n.bins[bin := m.(held := m.held[1..], left := m.left + [u])],
           delivered := n.delivered + [Delivery(u, Some(bin))])
      else
        n1.(lost := n.lost + [u]);
    // the send that injected this end-of-stream returns once it has left
    if u.InjectedEos? && n.cursor.Sending? && n.cursor.bin == bin then
      n2.(cursor := AtPad(n.cursor.pos, n.cursor.item, n.cursor.arrived))
    else n2
  }

  // ---------------------------------------------------------------------------
  // Command thread
  // ---------------------------------------------------------------------------

  function MakeCopy(n: Net, info: LinkUnlinkInfo): Net {
    n.(heap := n.heap[n.nextCopy := info], nextCopy := n.nextCopy + 1)
  }

  function Install(n: Net, kind: Kind, copy: nat): Net {
    n.(pending := n.pending + [Probe(kind, copy)],
       accepted := n.accepted + [Request(kind, if copy in n.heap then n.heap[copy].mainElement else None)])
  }

  /** `built` is whether a new bin could be created. */
  function BeginEnable(s: State, built: bool): State {
    if s.enabled then s
    else if !built then s.(fpfilterBin := None)
    else
      var bin := s.net.nextBin;
      s.(net := s.net.(bins := s.net.bins[bin := FRESH_MAIN], nextBin := bin + 1),
         fpfilterBin := Some(bin), info := s.info.(mainElement := Some(bin)), cmd := EnBuilt)
  }

  function BeginDisable(s: State): State {
    if !s.enabled then s else s.(enabled := false, cmd := DisFlagged)
  }

  /** One statement of the command in progress. Closing the save gate is `SaveGate`'s business. */
  function Advance(s: State): State {
    match s.cmd
    case CmdIdle => s
    case EnBuilt => s.(cmd := EnGateClosed)
    case EnGateClosed => s.(net := MakeCopy(s.net, s.info), cmd := EnCopied(s.net.nextCopy))
    case EnCopied(c) => s.(net := Install(s.net, AddCb, c), cmd := EnInstalled)
    case EnInstalled => s.(enabled := true, cmd := CmdIdle)
    case DisFlagged => s.(cmd := DisGateClosed)
    case DisGateClosed => s.(net := MakeCopy(s.net, s.info), cmd := DisCopied(s.net.nextCopy))
    case DisCopied(c) => s.(net := Install(s.net, PadCb, c), cmd := DisInstalled)
    case DisInstalled => s.(fpfilterBin := None, cmd := DisForgotten)
    case DisForgotten => s.(info := s.info.(mainElement := None), cmd := CmdIdle)
  }

  // ---------------------------------------------------------------------------
  // Runs
  // ---------------------------------------------------------------------------

  datatype Label =
    | DoEnable(built: bool) | DoDisable | DoAdvance
    | DoOffer(item: Payload) | DoFire | DoClear | DoPush | DoLeave(bin: nat)

  predicate Enabled(s: State, l: Label) {
    match l
    case DoEnable(_) => s.cmd.CmdIdle?
    case DoDisable => s.cmd.CmdIdle?
    case DoAdvance => !s.cmd.CmdIdle?
    case DoOffer(_) => s.net.cursor.Idle? && !s.net.ended
    case DoFire => s.net.cursor.AtPad? && s.net.pending != []
    case DoClear => s.net.cursor.AtPad? && s.net.pending == []
    case DoPush => s.net.cursor.Cleared?
    case DoLeave(b) => b in s.net.bins && s.net.bins[b].phase == Playing && s.net.bins[b].held != []
  }

  function Step(s: State, l: Label): State
    requires Enabled(s, l)
  {
    match l
    case DoEnable(built) => BeginEnable(s, built)
    case DoDisable => BeginDisable(s)
    case DoAdvance => Advance(s)
    case DoOffer(item) => s.(net := Offer(s.net, item))
    case DoFire => s.(net := FireProbe(s.net))
    case DoClear => s.(net := ClearPad(s.net))
    case DoPush => s.(net := PushDown(s.net))
    case DoLeave(b) => s.(net := LeaveMain(s.net, b))
  }

  /** A step that is not possible leaves the state alone, so any sequence of labels is a run. */
  function Exec(s: State, l: Label): State {
    if Enabled(s, l) then Step(s, l) else s
  }

  function Run(s: State, ls: seq<Label>): State
    decreases |ls|
  {
    if ls == [] then s else Run(Exec(s, ls[0]), ls[1..])
  }

  // ---------------------------------------------------------------------------
  // The two configurations the application starts in
  // ---------------------------------------------------------------------------

  function Graph(main: Option<nat>): map<Elem, Elem> {
    match main
    case None => map[PrevPrev := Prev, Prev := Next]
    case Some(b) => map[PrevPrev := Prev, Prev := Main(b), Main(b) := Next]
  }

  function Members(main: Option<nat>): set<nat> {
    match main
    case None => {}
    case Some(b) => {b}
  }

  function Init(configured: bool): State {
    var main := if configured then Some(0) else None;
    State(Net(Graph(main), Members(main),
              if configured then map[0 := FRESH_MAIN.(phase := Playing)] else map[], if configured then 1 else 0,
              [], Idle, false,
              map[], 0, false,
              main, [], 0,
              [], [], {}, []),
          configured, LinkUnlinkInfo(main, Prev, PrevPrev, Next), main, CmdIdle)
  }
}
