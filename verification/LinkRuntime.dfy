/** The dynamic linking code as it runs: callbacks that change the pipeline, the probe list and the
    heap in place. Each is proved to be the corresponding step of `LiveLink`. */
module LinkRuntime {
  import opened Wrappers
  import opened LiveLink

  datatype ProbeReturn = Drop | Ok | Pass

  // ---------------------------------------------------------------------------
  // The three exits of the add callback
  // ---------------------------------------------------------------------------

  lemma AddFaults(n: Net, copy: nat)
    requires !Usable(n, copy)
    ensures AddElemProbeCb(n, copy) == n.(faulted := true)
  {
  }

  lemma AddStops(n: Net, copy: nat)
    requires Usable(n, copy) && !Linked(n.links, n.heap[copy].prev, n.heap[copy].next)
    ensures AddElemProbeCb(n, copy) == n.(members := BinAdd(n.members, n.heap[copy].mainElement.value))
  {
    hide BinAdd, Linked;
  }

  lemma AddCompletes(n: Net, copy: nat)
    requires Usable(n, copy) && Linked(n.links, n.heap[copy].prev, n.heap[copy].next)
    ensures var info := n.heap[copy];
            var bin := info.mainElement.value;
            var members := BinAdd(n.members, bin);
            var links := ElementLinkMany(n.links - {info.prev}, members, info.prev, Main(bin), info.next);
            AddElemProbeCb(n, copy) ==
              n.(members := members, links := links, bins := WithPhase(n.bins, bin, Playing),
                 applied := n.applied + 1, heap := n.heap - {copy})
  {
    hide BinAdd, ElementLinkMany, WithPhase, Linked;
  }

  class Runtime {
    // the GStreamer objects
    var links: map<Elem, Elem>
    var members: set<nat>
    var bins: map<nat, MainState>
    var nextBin: nat
    var pending: seq<Probe>
    var cursor: Cursor
    var ended: bool
    // the C heap of request copies
    var heap: map<nat, LinkUnlinkInfo>
    var nextCopy: nat
    var faulted: bool
    // histories
    ghost var initial: Option<nat>
    ghost var accepted: seq<Request>
    ghost var applied: nat
    ghost var offered: seq<Payload>
    ghost var delivered: seq<Delivery>
    ghost var dropped: set<nat>
    ghost var lost: seq<Unit>

    ghost function Net(): Net
      reads this
    {
      LiveLink.Net(links, members, bins, nextBin, pending, cursor, ended, heap, nextCopy, faulted,
                   initial, accepted, applied, offered, delivered, dropped, lost)
    }

    constructor (configured: bool)
      ensures Net() == Init(configured).net
    {
      if configured {
        links, members, bins, nextBin := Graph(Some(0)), {0}, map[0 := FRESH_MAIN.(phase := Playing)], 1;
        initial := Some(0);
      } else {
        links, members, bins, nextBin := Graph(None), {}, map[], 0;
        initial := None;
      }
      pending, cursor, ended := [], Idle, false;
      heap, nextCopy, faulted := map[], 0, false;
      accepted, applied, offered, delivered, dropped, lost := [], 0, [], [], {}, [];
    }

    /** `gst_bin_new` and the elements in it, once they could all be made. */
    method NewBin() returns (bin: nat)
      modifies this`bins, this`nextBin
      ensures bin == old(nextBin)
      ensures Net() == old(Net()).(bins := old(bins)[bin := FRESH_MAIN], nextBin := bin + 1)
    {
      bin := nextBin;
      bins := bins[bin := FRESH_MAIN];
      nextBin := nextBin + 1;
    }

    method MakeCopyLinkUnlinkInfo(info: LinkUnlinkInfo) returns (copy: nat)
      modifies this`heap, this`nextCopy
      ensures copy == old(nextCopy) && Net() == MakeCopy(old(Net()), info)
    {
      copy := nextCopy;
      heap := heap[copy := info];
      nextCopy := nextCopy + 1;
    }

    method AddProbe(kind: Kind, copy: nat)
      modifies this`pending, this`accepted
      ensures Net() == Install(old(Net()), kind, copy)
    {
      pending := pending + [Probe(kind, copy)];
      accepted := accepted + [Request(kind, if copy in heap then heap[copy].mainElement else None)];
    }

    method AddElementToPipeline(info: LinkUnlinkInfo)
      modifies this`heap, this`nextCopy, this`pending, this`accepted
      ensures Net() == Install(MakeCopy(old(Net()), info), AddCb, old(nextCopy))
    {
      var copy := MakeCopyLinkUnlinkInfo(info);
      AddProbe(AddCb, copy);
    }

    method RemoveElementFromPipeline(info: LinkUnlinkInfo)
      modifies this`heap, this`nextCopy, this`pending, this`accepted
      ensures Net() == Install(MakeCopy(old(Net()), info), PadCb, old(nextCopy))
    {
      var copy := MakeCopyLinkUnlinkInfo(info);
      AddProbe(PadCb, copy);
    }

    /** `gst_bin_add`, `gst_pad_unlink`, `gst_element_link_many` and the change to PLAYING. */
    method SpliceIn(info: LinkUnlinkInfo, main: nat) returns (unlinked: bool)
      modifies this`links, this`members, this`bins
      ensures members == BinAdd(old(members), main)
      ensures unlinked == Linked(old(links), info.prev, info.next)
      ensures unlinked ==>
                && links == ElementLinkMany(old(links) - {info.prev}, members, info.prev, Main(main), info.next)
                && bins == WithPhase(old(bins), main, Playing)
      ensures !unlinked ==> links == old(links) && bins == old(bins)
    {
      hide BinAdd, ElementLinkMany, WithPhase;
      members := BinAdd(members, main);
      unlinked := info.prev in links && links[info.prev] == info.next;
      if unlinked {
        links := links - {info.prev};
        links := ElementLinkMany(links, members, info.prev, Main(main), info.next);
        bins := WithPhase(bins, main, Playing);
      }
    }

    /** Splices the bin in; the item that fired the probe is dropped. If the unlink fails the copy is
        not released. */
    method AddElemProbeCb(copy: nat) returns (ret: ProbeReturn)
      modifies this`links, this`members, this`bins, this`heap, this`faulted, this`applied
      ensures Net() == LiveLink.AddElemProbeCb(old(Net()), copy) && ret == Drop
    {
      hide LiveLink.AddElemProbeCb, BinAdd, ElementLinkMany, WithPhase, Linked;
      ret := Drop;
      if copy !in heap || heap[copy].mainElement.None? {
        AddFaults(Net(), copy);
        faulted := true;
        return;
      }
      ghost var before := Net();
      var info := heap[copy];
      var unlinked := SpliceIn(info, info.mainElement.value);
      if !unlinked {
        AddStops(before, copy);
        return;
      }
      AddCompletes(before, copy);
      applied := applied + 1;
      heap := heap - {copy};
    }

    /** Arms the second probe and sends the end-of-stream into the bin; the item goes on. */
    method PadProbeCb(copy: nat) returns (ret: ProbeReturn)
      requires cursor.AtPad?
      modifies this`bins, this`cursor, this`faulted
      ensures Net() == LiveLink.PadProbeCb(old(Net()), copy) && ret == Ok
    {
      ret := Ok;
      if copy !in heap || heap[copy].mainElement.None? || heap[copy].mainElement.value !in bins {
        faulted := true;
        return;
      }
      var main := heap[copy].mainElement.value;
      bins := bins[main := bins[main].(srcProbes := bins[main].srcProbes + [copy])];
      SendEos(main);
    }

    /** `gst_pad_send_event` of an end-of-stream: refused by a pad that is not active or has seen one. */
    method SendEos(bin: nat)
      requires bin in bins && cursor.AtPad?
      modifies this`bins, this`cursor
      ensures var n := old(Net()); var m := n.bins[bin];
              Net() == if m.phase != Playing || m.eos then n else
                n.(bins := n.bins[bin := m.(eos := true,
                  held := m.held + [InjectedEos], entered := m.entered + [InjectedEos])],
                   cursor := Sending(n.cursor.pos, n.cursor.item, n.cursor.arrived, bin))
    {
      var m := bins[bin];
      if m.phase == Playing && !m.eos {
        bins := bins[bin := m.(eos := true,
                  held := m.held + [InjectedEos], entered := m.entered + [InjectedEos])];
        cursor := Sending(cursor.pos, cursor.item, cursor.arrived, bin);
      }
    }

    /** `gst_element_set_state` to NULL, `gst_bin_remove` and the link of the neighbours. */
    method TakeOut(info: LinkUnlinkInfo, main: nat)
      modifies this`links, this`members, this`bins, this`lost
      ensures bins ==
        if main in old(bins) then old(bins)[main := old(bins)[main].(phase := Nulled, held := [])] else old(bins)
      ensures lost == if main in old(bins) then old(lost) + old(bins)[main].held else old(lost)
      ensures members == old(members) - {main}
      ensures links == ElementLink(WithoutElem(old(links), Main(main)), members, info.prev, info.next)
    {
      hide ElementLink, WithoutElem;
      if main in bins {
        lost := lost + bins[main].held;
        bins := bins[main := bins[main].(phase := Nulled, held := [])];
      }
      members := members - {main};
      links := ElementLink(WithoutElem(links, Main(main)), members, info.prev, info.next);
    }

    method RemoveElement(copy: nat)
      modifies this`links, this`members, this`bins, this`heap, this`faulted, this`applied, this`lost
      ensures Net() == RemoveMain(old(Net()), copy)
    {
      hide ElementLink, WithoutElem;
      if copy !in heap || heap[copy].mainElement.None? {
        faulted := true;
        return;
      }
      var info := heap[copy];
      TakeOut(info, info.mainElement.value);
      applied := applied + 1;
      heap := heap - {copy};
    }

    /** Lets anything but an end-of-stream pass; at the end-of-stream, takes the bin out. */
    method RemoveElemProbeCb(owner: nat, copy: nat, isEos: bool) returns (ret: ProbeReturn)
      requires owner in bins && bins[owner].srcProbes != []
      modifies this`links, this`members, this`bins, this`heap, this`faulted, this`applied, this`lost
      ensures !isEos ==> ret == Pass && Net() == old(Net())
      ensures isEos ==> ret == Drop && Net() == LiveLink.RemoveElemProbeCb(old(Net()), owner, copy)
    {
      hide RemoveMain;
      if !isEos {
        return Pass;
      }
      ret := Drop;
      bins := bins[owner := bins[owner].(srcProbes := bins[owner].srcProbes[1..])];
      RemoveElement(copy);
    }

    /** The pad calls its oldest probe. */
    method FireOldestProbe() returns (ret: ProbeReturn)
      requires cursor.AtPad? && pending != []
      modifies this
      ensures Net() == FireProbe(old(Net()))
      ensures ret == if old(pending)[0].kind.AddCb? then Drop else Ok
    {
      hide LiveLink.AddElemProbeCb, LiveLink.PadProbeCb;
      var p := pending[0];
      ghost var pos := cursor.pos;
      pending := pending[1..];
      match p.kind
      case AddCb =>
        ret := AddElemProbeCb(p.copy);
        cursor := Idle;
        dropped := dropped + {pos};
      case PadCb =>
        ret := PadProbeCb(p.copy);
    }
  }
}
