/** The scan as a step system pushes what the batch loop of `FrameSelection` pushes, whatever the other
    threads do between its statements. */
module ScanRefinement {
  import opened FrameSelection
  import LiveLinkInvariant
  import SaveGate
  import SaveWorker
  import opened EndToEnd
  import opened ScanCoverage

  /** What reading the gate returned at each frame of a delivered buffer, as recorded. */
  function GatesRead(checks: seq<Check>, at: nat, n: nat): seq<bool> {
    seq(n, k requires 0 <= k < n => Check(at, k, true) in checks)
  }

  /** The gate is read once at each frame, so that is its value there. */
  lemma GatesReadExactly(s: Sys, i: nat, n: nat)
    requires Reachable(s) && i < |s.checks| && s.checks[i].k < n
    ensures GatesRead(s.checks, s.checks[i].at, n)[s.checks[i].k] == s.checks[i].open
  {
    var c := s.checks[i];
    if Check(c.at, c.k, true) in s.checks {
      var j :| 0 <= j < |s.checks| && s.checks[j] == Check(c.at, c.k, true);
      if i < j { LooksFollowTheStream(s, i, j); }
      if j < i { LooksFollowTheStream(s, j, i); }
    }
  }

  /** What was pushed for one delivered buffer, in order. */
  function TicketsAt(ts: seq<Ticket>, at: nat): seq<Ticket>
    decreases |ts|
  {
    if ts == [] then []
    else TicketsAt(ts[..|ts| - 1], at) + (if ts[|ts| - 1].at == at then [ts[|ts| - 1]] else [])
  }

  function Infos(ts: seq<Ticket>, source: string): seq<FrameInfo> {
    seq(|ts|, i requires 0 <= i < |ts| => InfoOf(ts[i].frame, source))
  }

  function Numbers(ts: seq<Ticket>): seq<nat> {
    seq(|ts|, i requires 0 <= i < |ts| => ts[i].k)
  }

  ghost predicate Ascending(ns: seq<nat>) {
    forall i, j :: 0 <= i < j < |ns| ==> ns[i] < ns[j]
  }

  /** Ascending sequences of the same numbers are the same. */
  lemma {:induction false} AscendingUnique(a: seq<nat>, b: seq<nat>)
    requires Ascending(a) && Ascending(b) && (forall n :: n in a <==> n in b)
    ensures a == b
    decreases |a|
  {
    SomeOnlyIfSome(a, b);
    SomeOnlyIfSome(b, a);
    if a == [] {
    } else {
      LastIsGreatest(a, b);
      LastIsGreatest(b, a);
      var front, front' := a[..|a| - 1], b[..|b| - 1];
      forall n ensures n in front <==> n in front' {
        if n in front { InFront(a, b, n); }
        if n in front' { InFront(b, a, n); }
      }
      AscendingUnique(front, front');
      assert a == front + [a[|a| - 1]] && b == front' + [b[|b| - 1]];
    }
  }

  lemma SomeOnlyIfSome(a: seq<nat>, b: seq<nat>)
    requires forall n :: n in a ==> n in b
    ensures a != [] ==> b != []
  {
    if a != [] { assert a[0] in b; }
  }

  lemma LastIsGreatest(a: seq<nat>, b: seq<nat>)
    requires a != [] && b != [] && Ascending(b) && (forall n :: n in a ==> n in b)
    ensures a[|a| - 1] <= b[|b| - 1]
  {
    assert a[|a| - 1] in b;
  }

  lemma InFront(a: seq<nat>, b: seq<nat>, n: nat)
    requires a != [] && b != [] && Ascending(a) && a[|a| - 1] == b[|b| - 1] && (forall m :: m in a ==> m in b)
    requires n in a[..|a| - 1]
    ensures n in b[..|b| - 1]
  {
    var i :| 0 <= i < |a| - 1 && a[i] == n;
    assert n in a && n in b;
    var j :| 0 <= j < |b| && b[j] == n;
    assert j < |b| - 1;
    assert b[..|b| - 1][j] == n;
  }

  lemma {:induction false} TicketsAtExactly(ts: seq<Ticket>, at: nat, t: Ticket)
    ensures t in TicketsAt(ts, at) <==> t in ts && t.at == at
    decreases |ts|
  {
    if ts == [] {
    } else {
      TicketsAtExactly(ts[..|ts| - 1], at, t);
      assert ts == ts[..|ts| - 1] + [ts[|ts| - 1]];
    }
  }

  lemma {:induction false} TicketsAtAscend(ts: seq<Ticket>, at: nat)
    requires Ordered(ts)
    ensures Ascending(Numbers(TicketsAt(ts, at)))
    decreases |ts|
  {
    if ts == [] {
    } else {
      var front, last := ts[..|ts| - 1], ts[|ts| - 1];
      TicketsAtAscend(front, at);
      var before := TicketsAt(front, at);
      if last.at == at {
        forall i | 0 <= i < |before| ensures before[i].k < last.k {
          TicketsAtExactly(front, at, before[i]);
          var j :| 0 <= j < |front| && front[j] == before[i];
          assert ts[j] == before[i];
        }
        assert Numbers(before + [last]) == Numbers(before) + [last.k];
      } else {
        assert before + [] == before;
      }
    }
  }

  /** Exactly the wanted frames of a buffer the scan has finished with have been pushed. */
  lemma PushedIffWanted(s: Sys, at: nat, k: nat)
    requires Reachable(s) && at < |s.link.net.delivered| && IsBuffer(s.link.net.delivered[at])
    requires s.scan.NoScan? || s.scan.at != at
    ensures var d := s.link.net.delivered[at];
            && ToLookAt(d) <= |d.u.item.frames|
            && ((exists t :: t in s.worker.pushed && t.at == at && t.k == k) <==>
                  k < ToLookAt(d) && Wanted(d.u.item.frames[k], GatesRead(s.checks, at, |d.u.item.frames|)[k]))
    ensures forall t :: t in s.worker.pushed && t.at == at && t.k == k ==>
              k < |s.link.net.delivered[at].u.item.frames| && t.frame == s.link.net.delivered[at].u.item.frames[k]
  {
    hide SysInv, InRange, DueChecked, PassesRatio, Reachable;
    ReachableCovers(s);
    var d := s.link.net.delivered[at];
    ScannedIsPrefix(d.u.item.frames);
    hide ToLookAt, Scanned;
    forall t | t in s.worker.pushed && t.at == at && t.k == k
      ensures k < ToLookAt(d) && t.frame == d.u.item.frames[k]
      ensures Wanted(d.u.item.frames[k], GatesRead(s.checks, at, |d.u.item.frames|)[k])
    {
      TicketIsJustified(s, t);
    }
    if k < ToLookAt(d) && Wanted(d.u.item.frames[k], GatesRead(s.checks, at, |d.u.item.frames|)[k]) {
      SelectedIsPushed(s, Check(at, k, true));
      assert TicketOf(s.link.net.delivered, Check(at, k, true)) in s.worker.pushed;
    }
  }

  lemma TicketIsJustified(s: Sys, t: Ticket)
    requires SysInv(s) && t in s.worker.pushed
    ensures Justified(s.link.net.delivered, s.checks, t)
  {
    hide LiveLinkInvariant.Inv, SaveWorker.Inv, SaveGate.Inv, ScanInv, ChecksInv, Ordered, AllBefore, Justified;
    var i :| 0 <= i < |s.worker.pushed| && s.worker.pushed[i] == t;
  }

  lemma SelectedIsPushed(s: Sys, c: Check)
    requires SysInv(s) && c in s.checks && Selects(s.link.net.delivered, c) && s.scan != Passed(c.at, c.k)
    ensures TicketOf(s.link.net.delivered, c) in s.worker.pushed
  {
    hide LiveLinkInvariant.Inv, SaveWorker.Inv, SaveGate.Inv, ScanInv, TicketsInv, Selects;
  }

  lemma PushedInOrder(s: Sys)
    requires SysInv(s)
    ensures Ordered(s.worker.pushed)
  {
  }

  /** The numbers of the frames pushed for a finished buffer are those the batch loop picks. */
  lemma NumbersAreWanted(s: Sys, at: nat)
    requires Reachable(s) && at < |s.link.net.delivered| && IsBuffer(s.link.net.delivered[at])
    requires s.scan.NoScan? || s.scan.at != at
    ensures var d := s.link.net.delivered[at]; var frames := d.u.item.frames;
            && ToLookAt(d) <= |frames|
            && Numbers(TicketsAt(s.worker.pushed, at)) ==
                 WantedBelow(frames, GatesRead(s.checks, at, |frames|), ToLookAt(d))
  {
    hide SysInv, CoverInv, Reachable, Wanted, ToLookAt;
    var d := s.link.net.delivered[at];
    var frames := d.u.item.frames;
    var gates := GatesRead(s.checks, at, |frames|);
    var ts := TicketsAt(s.worker.pushed, at);
    ReachableCovers(s);
    PushedInOrder(s);
    TicketsAtAscend(s.worker.pushed, at);
    PushedIffWanted(s, at, 0);
    WantedBelowExactly(frames, gates, ToLookAt(d));
    PushedPicksWanted(frames, gates, "", ToLookAt(d));
    forall n ensures n in Numbers(ts) <==> n in WantedBelow(frames, gates, ToLookAt(d)) {
      if n >= 0 {
        PushedIffWanted(s, at, n);
        NumbersExactly(s.worker.pushed, at, n);
      }
    }
    AscendingUnique(Numbers(ts), WantedBelow(frames, gates, ToLookAt(d)));
  }

  lemma NumbersExactly(ts: seq<Ticket>, at: nat, n: nat)
    ensures n in Numbers(TicketsAt(ts, at)) <==> exists t :: t in ts && t.at == at && t.k == n
  {
    var found := TicketsAt(ts, at);
    if n in Numbers(found) {
      var i :| 0 <= i < |found| && Numbers(found)[i] == n;
      TicketsAtExactly(ts, at, found[i]);
    }
    if t :| t in ts && t.at == at && t.k == n {
      TicketsAtExactly(ts, at, t);
      var i :| 0 <= i < |found| && found[i] == t;
      assert Numbers(found)[i] == n;
    }
  }

  /** Of every delivered buffer the scan has finished with, what was pushed is, frame for frame and in order,
      what the batch loop pushes for the gate values that were read; nothing if the buffer did not cross the
      filter. */
  lemma FinishedScanPushesTheSelection(s: Sys, at: nat, source: string)
    requires Reachable(s) && at < |s.link.net.delivered| && IsBuffer(s.link.net.delivered[at])
    requires s.scan.NoScan? || s.scan.at != at
    ensures var d := s.link.net.delivered[at]; var frames := d.u.item.frames;
            && ToLookAt(d) <= |frames|
            && Infos(TicketsAt(s.worker.pushed, at), source) ==
                 Pushed(frames, GatesRead(s.checks, at, |frames|), source, ToLookAt(d))
    ensures forall t :: t in TicketsAt(s.worker.pushed, at) ==>
              && t.k < |s.link.net.delivered[at].u.item.frames|
              && t.frame == s.link.net.delivered[at].u.item.frames[t.k]
  {
    hide Reachable, Wanted, ToLookAt, WantedBelow, Pushed, TicketsAt, GatesRead;
    var d := s.link.net.delivered[at];
    var frames := d.u.item.frames;
    var gates := GatesRead(s.checks, at, |frames|);
    var ts := TicketsAt(s.worker.pushed, at);
    GatesReadLength(s.checks, at, |frames|);
    NumbersAreWanted(s, at);
    PushedPicksWanted(frames, gates, source, ToLookAt(d));
    forall i | 0 <= i < |ts| ensures Infos(ts, source)[i] == Pushed(frames, gates, source, ToLookAt(d))[i] {
      TicketsAtExactly(s.worker.pushed, at, ts[i]);
      PushedIffWanted(s, at, ts[i].k);
      assert Numbers(ts)[i] == ts[i].k;
    }
    forall t | t in ts ensures t.k < |frames| && t.frame == frames[t.k] {
      TicketsAtExactly(s.worker.pushed, at, t);
      PushedIffWanted(s, at, t.k);
    }
  }

  lemma GatesReadLength(checks: seq<Check>, at: nat, n: nat)
    ensures |GatesRead(checks, at, n)| == n
  {
  }
}
