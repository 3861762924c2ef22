/** Choosing the frames of a batch that are worth uploading (`save_frames_for_processing`). */
module FrameSelection {
  import opened Wrappers

  const WORD: int := 0x1_0000_0000

  /** A C `guint`. */
  type Word = x: int | 0 <= x < WORD

  /** One entry of a frame's user metadata list. The two counts are the first two words of
      the entry's payload; they are counts only when the entry is the filter's own. */
  datatype UserMeta = UserMeta(fromFilter: bool, fp: Word, tp: Word)

  datatype Frame = Frame(frameNum: nat, padIndex: nat, userMeta: seq<UserMeta>)

  datatype FrameInfo = FrameInfo(source: string, frameIndex: nat, padIndex: nat)

  // ---------------------------------------------------------------------------
  // The ratio test
  // ---------------------------------------------------------------------------

  /** The sum is a `guint` and may wrap. */
  function TotalObjects(m: UserMeta): Word {
    (m.tp + m.fp) % WORD
  }

  predicate PassesRatio(m: UserMeta) {
    TotalObjects(m) > 1 && (m.fp as real) / (TotalObjects(m) as real) >= 0.5
  }

  /** What the test is for: at least two objects, at least half of them false positives. */
  predicate MostlyFalse(m: UserMeta) {
    m.fp >= m.tp && m.tp + m.fp >= 2
  }

  lemma QuotientAtLeastHalf(a: nat, b: nat)
    requires b > 0
    ensures (a as real) / (b as real) >= 0.5 <==> 2 * a >= b
  {
    var q := (a as real) / (b as real);
    assert q * (b as real) == a as real;
    if q >= 0.5 {
      assert q * (b as real) >= 0.5 * (b as real);
    } else {
      assert q * (b as real) < 0.5 * (b as real);
    }
  }

  lemma RatioIsIntegerTest(m: UserMeta)
    requires m.tp + m.fp < WORD
    ensures PassesRatio(m) <==> MostlyFalse(m)
  {
    if TotalObjects(m) > 1 { QuotientAtLeastHalf(m.fp, TotalObjects(m)); }
  }

  /** For all counts, the test means what it is for except when the sum wraps and either hides a
      majority of true positives or leaves fewer than two objects. */
  lemma RatioExactly(m: UserMeta)
    ensures (PassesRatio(m) <==> MostlyFalse(m)) <==>
              (m.tp + m.fp < WORD || (m.fp >= m.tp <==> m.tp + m.fp - WORD >= 2))
  {
    if m.tp + m.fp < WORD {
      RatioIsIntegerTest(m);
    } else {
      assert TotalObjects(m) == m.tp + m.fp - WORD;
      if TotalObjects(m) > 1 { QuotientAtLeastHalf(m.fp, TotalObjects(m)); }
    }
  }

  /** Four thousand million true positives and three false ones pass. */
  lemma WrappedSumPasses()
    ensures var m := UserMeta(true, 3, 4_294_967_295); PassesRatio(m) && !MostlyFalse(m)
  {
    QuotientAtLeastHalf(3, 2);
  }

  // ---------------------------------------------------------------------------
  // The batch scan
  // ---------------------------------------------------------------------------

  /** The metadata the scan of a frame's list ends on. Skipping the entries of other types has no
      effect: it is the last entry, whatever its type. */
  function ScannedMeta(metas: seq<UserMeta>): Option<UserMeta> {
    if metas == [] then None else Some(metas[|metas| - 1])
  }

  method ScanUserMeta(metas: seq<UserMeta>) returns (userMeta: Option<UserMeta>)
    ensures userMeta == ScannedMeta(metas)
  {
    userMeta := None;
    var i := 0;
    while i < |metas|
      invariant 0 <= i <= |metas| && userMeta == ScannedMeta(metas[..i])
    {
      userMeta := Some(metas[i]);
      i := i + 1;
    }
    assert metas[..i] == metas;
  }

  /** What the scan is after: the last entry that is the filter's own, if there is any. */
  function FilterMeta(metas: seq<UserMeta>): (own: Option<UserMeta>)
    ensures own.Some? ==> own.value.fromFilter && own.value in metas
    ensures own.None? ==> forall i :: 0 <= i < |metas| ==> !metas[i].fromFilter
  {
    if metas == [] then None
    else if metas[|metas| - 1].fromFilter then Some(metas[|metas| - 1])
    else FilterMeta(metas[..|metas| - 1])
  }

  /** For all lists: the scan ends on what it is after if and only if the list is empty or its last entry
      is the filter's. */
  lemma ScanFindsFilterEntryIffLast(metas: seq<UserMeta>)
    ensures ScannedMeta(metas) == FilterMeta(metas) <==> metas == [] || metas[|metas| - 1].fromFilter
  {
  }

  /** A frame that only something else attached data to: the payload is read as counts, and they pass. */
  lemma ForeignPayloadIsCounted()
    ensures var metas := [UserMeta(false, 2, 0)];
            && FilterMeta(metas) == None
            && forall num: nat, pad: nat :: Wanted(Frame(num, pad, metas), true)
  {
    QuotientAtLeastHalf(2, 2);
  }

  /** How many frames the scan looks at: it gives up at the first one without user metadata. */
  function Scanned(batch: seq<Frame>): nat {
    if batch == [] || batch[0].userMeta == [] then 0 else 1 + Scanned(batch[1..])
  }

  /** Frame `k` is wanted when the gate, as read for it, is open and its counts pass. */
  predicate Wanted(f: Frame, gate: bool) {
    gate && f.userMeta != [] && PassesRatio(f.userMeta[|f.userMeta| - 1])
  }

  function InfoOf(f: Frame, source: string): FrameInfo {
    FrameInfo(source, f.frameNum, f.padIndex)
  }

  /** The frames pushed from the first `n` of a batch, in order. */
  function Pushed(batch: seq<Frame>, gates: seq<bool>, source: string, n: nat): seq<FrameInfo>
    requires n <= |batch| <= |gates|
  {
    if n == 0 then []
    else if Wanted(batch[n - 1], gates[n - 1]) then Pushed(batch, gates, source, n - 1) + [InfoOf(batch[n - 1], source)]
    else Pushed(batch, gates, source, n - 1)
  }

  lemma {:induction false} ScannedIsPrefix(batch: seq<Frame>)
    ensures Scanned(batch) <= |batch|
    ensures forall i :: 0 <= i < Scanned(batch) ==> batch[i].userMeta != []
    ensures Scanned(batch) < |batch| ==> batch[Scanned(batch)].userMeta == []
  {
    if batch == [] || batch[0].userMeta == [] {
    } else {
      ScannedIsPrefix(batch[1..]);
      forall i | 0 <= i < Scanned(batch) ensures batch[i].userMeta != [] {
        if i > 0 { assert batch[i] == batch[1..][i - 1]; }
      }
    }
  }

  /** The entry names the frame: its number, its pad and the stream's source, each in its own field. */
  predicate Names(info: FrameInfo, f: Frame, source: string) {
    info.frameIndex == f.frameNum && info.padIndex == f.padIndex && info.source == source
  }

  /** A subsequence, witnessed by where its elements come from. */
  ghost predicate Picks(batch: seq<Frame>, source: string, idx: seq<nat>, out: seq<FrameInfo>) {
    && |idx| == |out|
    && (forall i :: 0 <= i < |idx| ==> idx[i] < |batch| && Names(out[i], batch[idx[i]], source))
    && (forall i, j :: 0 <= i < j < |idx| ==> idx[i] < idx[j])
  }

  ghost predicate SumsFit(batch: seq<Frame>) {
    forall i :: 0 <= i < |batch| && batch[i].userMeta != [] ==>
      LastMeta(batch[i]).tp + LastMeta(batch[i]).fp < WORD
  }

  function LastMeta(f: Frame): UserMeta
    requires f.userMeta != []
  {
    f.userMeta[|f.userMeta| - 1]
  }

  function WantedBelow(batch: seq<Frame>, gates: seq<bool>, n: nat): seq<nat>
    requires n <= |batch| <= |gates|
  {
    if n == 0 then []
    else if Wanted(batch[n - 1], gates[n - 1]) then WantedBelow(batch, gates, n - 1) + [n - 1]
    else WantedBelow(batch, gates, n - 1)
  }

  lemma {:induction false} WantedBelowExactly(batch: seq<Frame>, gates: seq<bool>, n: nat)
    requires n <= |batch| <= |gates|
    ensures forall k :: k in WantedBelow(batch, gates, n) <==> 0 <= k < n && Wanted(batch[k], gates[k])
  {
    hide Wanted;
    if n == 0 {
    } else {
      WantedBelowExactly(batch, gates, n - 1);
    }
  }

  lemma PicksOneMore(batch: seq<Frame>, source: string, idx: seq<nat>, out: seq<FrameInfo>, k: nat)
    requires Picks(batch, source, idx, out) && k < |batch| && (forall i :: 0 <= i < |idx| ==> idx[i] < k)
    ensures Picks(batch, source, idx + [k], out + [InfoOf(batch[k], source)])
  {
  }

  lemma {:induction false} PushedPicksWanted(batch: seq<Frame>, gates: seq<bool>, source: string, n: nat)
    requires n <= |batch| <= |gates|
    ensures Picks(batch, source, WantedBelow(batch, gates, n), Pushed(batch, gates, source, n))
  {
    hide Wanted, Picks;
    if n == 0 {
      NothingPicked(batch, source);
    } else {
      PushedPicksWanted(batch, gates, source, n - 1);
      if Wanted(batch[n - 1], gates[n - 1]) {
        WantedBelowExactly(batch, gates, n - 1);
        var before := WantedBelow(batch, gates, n - 1);
        forall i | 0 <= i < |before| ensures before[i] < n - 1 {
          assert before[i] in before;
        }
        PicksOneMore(batch, source, before, Pushed(batch, gates, source, n - 1), n - 1);
      }
    }
  }

  lemma NothingPicked(batch: seq<Frame>, source: string)
    ensures Picks(batch, source, [], [])
  {
  }

  /** What is pushed is the order-preserving selection of exactly the frames that were looked at with the gate
      open and pass the test, in front of the first frame without metadata; each entry names its frame. With
      no sum wrapping, those that pass are the mostly false ones. */
  lemma PushedIsSelection(batch: seq<Frame>, gates: seq<bool>, source: string)
    requires Scanned(batch) <= |batch| <= |gates|
    ensures var idx := WantedBelow(batch, gates, Scanned(batch));
            && Picks(batch, source, idx, Pushed(batch, gates, source, Scanned(batch)))
            && (forall k :: k in idx <==>
                 0 <= k < Scanned(batch) && batch[k].userMeta != [] && gates[k] && PassesRatio(LastMeta(batch[k])))
            && (SumsFit(batch) ==> forall k :: k in idx ==> batch[k].userMeta != [] && MostlyFalse(LastMeta(batch[k])))
            && (SumsFit(batch) ==> forall k :: 0 <= k < Scanned(batch) && k !in idx ==>
                 batch[k].userMeta != [] && (!gates[k] || !MostlyFalse(LastMeta(batch[k]))))
  {
    var n := Scanned(batch);
    ScannedIsPrefix(batch);
    PushedPicksWanted(batch, gates, source, n);
    WantedBelowExactly(batch, gates, n);
    if SumsFit(batch) {
      forall k | 0 <= k < n ensures PassesRatio(LastMeta(batch[k])) <==> MostlyFalse(LastMeta(batch[k])) {
        RatioIsIntegerTest(LastMeta(batch[k]));
      }
    }
    hide MostlyFalse, PassesRatio, Picks;
  }

  lemma NonePushed(batch: seq<Frame>, gates: seq<bool>, source: string)
    requires |batch| <= |gates|
    ensures Pushed(batch, gates, source, 0) == []
  {
  }

  lemma PushedOneMore(batch: seq<Frame>, gates: seq<bool>, source: string, k: nat)
    requires k < |batch| <= |gates|
    ensures Pushed(batch, gates, source, k + 1) ==
              Pushed(batch, gates, source, k)
              + if Wanted(batch[k], gates[k]) then [InfoOf(batch[k], source)] else []
  {
    hide Wanted;
  }

  lemma CountOneMore(count: Word, n: nat)
    ensures ((count + n) % WORD + 1) % WORD == (count + n + 1) % WORD
  {
  }

  /** The queue the frames go to and the count of frames pushed. */
  class FrameSaver {
    var queue: seq<FrameInfo>
    var imageCount: Word
    const source: string

    constructor (source: string)
      ensures queue == [] && imageCount == 0 && this.source == source
    {
      this.source := source;
      queue, imageCount := [], 0;
    }

    method HighFalsePositives(m: UserMeta) returns (high: bool)
      ensures high == PassesRatio(m)
    {
      var total := (m.tp + m.fp) % WORD;
      if total <= 1 {
        return false;
      }
      var fpPercent := (m.fp as real) / (total as real);
      high := fpPercent >= 0.5;
    }

    /** `gates[k]` is what reading the save gate returns at frame `k`; other threads may change it
        between frames. */
    method SaveFramesForProcessing(batch: seq<Frame>, gates: seq<bool>)
      requires |batch| <= |gates|
      modifies this
      ensures Scanned(batch) <= |batch|
      ensures queue == old(queue) + Pushed(batch, gates, source, Scanned(batch))
      ensures Picks(batch, source, WantedBelow(batch, gates, Scanned(batch)), queue[|old(queue)|..])
      ensures imageCount == (old(imageCount) + |Pushed(batch, gates, source, Scanned(batch))|) % WORD
    {
      hide PassesRatio, Pushed, Picks, WantedBelow;
      ScannedIsPrefix(batch);
      PushedPicksWanted(batch, gates, source, Scanned(batch));
      NonePushed(batch, gates, source);
      var k := 0;
      while k < |batch|
        invariant 0 <= k <= Scanned(batch)
        invariant queue == old(queue) + Pushed(batch, gates, source, k)
        invariant imageCount == (old(imageCount) + |Pushed(batch, gates, source, k)|) % WORD
      {
        var frame := batch[k];
        var userMeta := ScanUserMeta(frame.userMeta);
        if userMeta.None? {
          assert queue[|old(queue)|..] == Pushed(batch, gates, source, Scanned(batch));
          return;
        }
        PushedOneMore(batch, gates, source, k);
        if gates[k] {
          var high := HighFalsePositives(userMeta.value);
          if high {
            queue := queue + [FrameInfo(source, frame.frameNum, frame.padIndex)];
            CountOneMore(old(imageCount), |Pushed(batch, gates, source, k)|);
            imageCount := (imageCount + 1) % WORD;
          }
        }
        k := k + 1;
      }
      assert queue[|old(queue)|..] == Pushed(batch, gates, source, Scanned(batch));
    }
  }
}
