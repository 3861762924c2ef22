/** The save gate (`save_fpfilter_images`) and the one-shot timers that close it. */
module SaveGate {
  import opened Wrappers
  import opened FrameSelection

  datatype Timer = Timer(id: nat, due: nat)

  /** `lag` bounds how late the main loop runs a timer that is due; it never changes. */
  datatype Gate = Gate(open: bool, now: nat, lag: nat, timers: seq<Timer>, nextTimer: nat, fired: seq<nat>)

  datatype Label =
    | SetOpen                       // enable_fpfilter_images_save
    | SetClosed                     // disable_fpfilter_images_save, also at every enable and disable of the filter
    | StartTimer(durationMs: Word)  // g_timeout_add
    | FireTimer(index: nat)         // the main loop runs a due timer, which closes the gate and is not run again
    | Tick(ms: nat)                 // time passes

  predicate Enabled(g: Gate, l: Label) {
    match l
    case FireTimer(i) => i < |g.timers| && g.timers[i].due <= g.now
    case Tick(ms) => forall i :: 0 <= i < |g.timers| ==> g.now + ms <= g.timers[i].due + g.lag
    case _ => true
  }

  function Step(g: Gate, l: Label): Gate
    requires Enabled(g, l)
  {
    match l
    case SetOpen => g.(open := true)
    case SetClosed => g.(open := false)
    case StartTimer(d) => g.(timers := g.timers + [Timer(g.nextTimer, g.now + d)], nextTimer := g.nextTimer + 1)
    case FireTimer(i) =>
      g.(open := false, timers := g.timers[..i] + g.timers[i + 1..], fired := g.fired + [g.timers[i].id])
    case Tick(ms) => g.(now := g.now + ms)
  }

  function Exec(g: Gate, l: Label): Gate {
    if Enabled(g, l) then Step(g, l) else g
  }

  function Run(g: Gate, ls: seq<Label>): Gate
    decreases |ls|
  {
    if ls == [] then g else Run(Exec(g, ls[0]), ls[1..])
  }

  function Closed(lag: nat): Gate {
    Gate(false, 0, lag, [], 0, [])
  }

  // ---------------------------------------------------------------------------
  // Timers are started, then outstanding, then fired once
  // ---------------------------------------------------------------------------

  function Ids(ts: seq<Timer>): seq<nat> {
    seq(|ts|, i requires 0 <= i < |ts| => ts[i].id)
  }

  /** Each of the first `n` identities once. */
  function Started(n: nat): multiset<nat> {
    if n == 0 then multiset{} else Started(n - 1) + multiset{n - 1}
  }

  ghost predicate Inv(g: Gate) {
    && multiset(Ids(g.timers)) + multiset(g.fired) == Started(g.nextTimer)
    && (forall i :: 0 <= i < |g.timers| ==> g.now <= g.timers[i].due + g.lag)
  }

  lemma {:induction false} StartedOnce(n: nat, id: nat)
    ensures Started(n)[id] == if id < n then 1 else 0
  {
    if n == 0 {
    } else {
      StartedOnce(n - 1, id);
    }
  }

  lemma IdsRemove(ts: seq<Timer>, i: nat)
    requires i < |ts|
    ensures multiset(Ids(ts[..i] + ts[i + 1..])) + multiset{ts[i].id} == multiset(Ids(ts))
  {
    var ids := Ids(ts);
    assert Ids(ts[..i] + ts[i + 1..]) == ids[..i] + ids[i + 1..];
    assert ids == ids[..i] + [ids[i]] + ids[i + 1..];
  }

  lemma IdsAppend(ts: seq<Timer>, t: Timer)
    ensures multiset(Ids(ts + [t])) == multiset(Ids(ts)) + multiset{t.id}
  {
    assert Ids(ts + [t]) == Ids(ts) + [t.id];
  }

  lemma OneMoreStarted(n: nat)
    ensures Started(n + 1) == Started(n) + multiset{n}
  {
  }

  lemma StartTimerKeeps(g: Gate, d: Word)
    requires Inv(g)
    ensures Inv(Step(g, StartTimer(d)))
  {
    hide Ids, Started;
    IdsAppend(g.timers, Timer(g.nextTimer, g.now + d));
    OneMoreStarted(g.nextTimer);
  }

  lemma FireTimerKeeps(g: Gate, i: nat)
    requires Inv(g) && Enabled(g, FireTimer(i))
    ensures Inv(Step(g, FireTimer(i)))
  {
    hide Ids, Started;
    IdsRemove(g.timers, i);
    var t := Step(g, FireTimer(i));
    assert multiset(t.fired) == multiset(g.fired) + multiset{g.timers[i].id};
  }

  lemma StepKeeps(g: Gate, l: Label)
    requires Inv(g) && Enabled(g, l)
    ensures Inv(Step(g, l))
  {
    hide Ids, Started;
    match l
    case StartTimer(d) => StartTimerKeeps(g, d);
    case FireTimer(i) => FireTimerKeeps(g, i);
    case Tick(_) =>
    case SetOpen =>
    case SetClosed =>
  }

  lemma {:induction false} RunKeeps(g: Gate, ls: seq<Label>)
    requires Inv(g)
    ensures Inv(Run(g, ls))
    decreases |ls|
  {
    if ls == [] {
    } else {
      if Enabled(g, ls[0]) { StepKeeps(g, ls[0]); }
      RunKeeps(Exec(g, ls[0]), ls[1..]);
    }
  }

  /** In every run, each timer that was started is outstanding or has fired, and not both and not twice. */
  lemma TimersFireOnce(lag: nat, ls: seq<Label>, id: nat)
    ensures var g := Run(Closed(lag), ls);
            multiset(Ids(g.timers))[id] + multiset(g.fired)[id] == if id < g.nextTimer then 1 else 0
  {
    RunKeeps(Closed(lag), ls);
    StartedOnce(Run(Closed(lag), ls).nextTimer, id);
  }

  lemma {:induction false} TimeMovesOn(g: Gate, ls: seq<Label>)
    ensures g.now <= Run(g, ls).now
    decreases |ls|
  {
    if ls == [] {
    } else {
      TimeMovesOn(Exec(g, ls[0]), ls[1..]);
    }
  }

  /** Running one timer leaves every other one as it is: still outstanding, in its place, due when it was. */
  lemma FiringFiresOne(g: Gate, i: nat)
    requires Enabled(g, FireTimer(i))
    ensures var h := Step(g, FireTimer(i));
            && |h.timers| == |g.timers| - 1 && h.fired == g.fired + [g.timers[i].id]
            && (forall j :: 0 <= j < i ==> h.timers[j] == g.timers[j])
            && (forall j :: i < j < |g.timers| ==> h.timers[j - 1] == g.timers[j])
            && h.now == g.now && h.nextTimer == g.nextTimer && !h.open
  {
  }

  lemma NotDueNotFired(g: Gate, l: Label, t: Timer)
    requires t in g.timers && g.now < t.due
    ensures t in Exec(g, l).timers
  {
    var k :| 0 <= k < |g.timers| && g.timers[k] == t;
    if l.FireTimer? && Enabled(g, l) {
      FiringFiresOne(g, l.index);
      assert Exec(g, l).timers[if k < l.index then k else k - 1] == t;
    } else if l.StartTimer? {
      assert Exec(g, l).timers[k] == t;
    }
  }

  /** No timer goes before it is due, whatever else fires, opens or closes the gate. */
  lemma {:induction false} NoTimerGoesEarly(g: Gate, ls: seq<Label>, t: Timer)
    requires t in g.timers && Run(g, ls).now < t.due
    ensures t in Run(g, ls).timers
    decreases |ls|
  {
    if ls == [] {
    } else {
      TimeMovesOn(g, ls);
      NotDueNotFired(g, ls[0], t);
      NoTimerGoesEarly(Exec(g, ls[0]), ls[1..], t);
    }
  }

  lemma OnlyFiringRemoves(g: Gate, l: Label, t: Timer)
    requires t in g.timers
    ensures t in Exec(g, l).timers || t.id in Exec(g, l).fired
    ensures g.fired <= Exec(g, l).fired && Exec(g, l).lag == g.lag
  {
    var k :| 0 <= k < |g.timers| && g.timers[k] == t;
    var h := Exec(g, l);
    if l.FireTimer? && Enabled(g, l) {
      FiringFiresOne(g, l.index);
      if k == l.index {
        assert h.fired[|g.fired|] == t.id;
      } else {
        assert h.timers[if k < l.index then k else k - 1] == t;
      }
    } else if l.StartTimer? {
      assert h.timers[k] == t;
    }
  }

  lemma {:induction false} FiredStaysFired(g: Gate, ls: seq<Label>)
    ensures g.fired <= Run(g, ls).fired && Run(g, ls).lag == g.lag
    decreases |ls|
  {
    if ls == [] {
    } else {
      FiredStaysFired(Exec(g, ls[0]), ls[1..]);
    }
  }

  lemma {:induction false} OutstandingOrFired(g: Gate, ls: seq<Label>, t: Timer)
    requires t in g.timers
    ensures t in Run(g, ls).timers || t.id in Run(g, ls).fired
    decreases |ls|
  {
    if ls == [] {
    } else {
      OnlyFiringRemoves(g, ls[0], t);
      if t in Exec(g, ls[0]).timers {
        OutstandingOrFired(Exec(g, ls[0]), ls[1..], t);
      } else {
        FiredStaysFired(Exec(g, ls[0]), ls[1..]);
        var i :| 0 <= i < |Exec(g, ls[0]).fired| && Exec(g, ls[0]).fired[i] == t.id;
        assert Run(g, ls).fired[i] == t.id;
      }
    }
  }

  /** Each timer fires by itself, in its own window: it is outstanding until it is due, and has fired once it
      is more than `lag` overdue, in every run. */
  lemma TimerFiresInItsWindow(g: Gate, ls: seq<Label>, t: Timer)
    requires Inv(g) && t in g.timers
    ensures Run(g, ls).now < t.due ==> t in Run(g, ls).timers
    ensures Run(g, ls).now > t.due + g.lag ==> t !in Run(g, ls).timers && t.id in Run(g, ls).fired
    ensures t in Run(g, ls).timers || t.id in Run(g, ls).fired
  {
    hide Ids, Started;
    if Run(g, ls).now < t.due { NoTimerGoesEarly(g, ls, t); }
    OutstandingOrFired(g, ls, t);
    RunKeeps(g, ls);
    FiredStaysFired(g, ls);
  }

  lemma OneMoreMillisecond(g: Gate)
    requires forall i :: 0 <= i < |g.timers| ==> g.now < g.timers[i].due
    ensures Enabled(g, Tick(1)) && Step(g, Tick(1)) == g.(now := g.now + 1)
  {
  }

  lemma RunMore(g: Gate, l: Label, ls: seq<Label>)
    ensures Run(g, [l] + ls) == Run(Exec(g, l), ls)
  {
    assert ([l] + ls)[1..] == ls;
  }

  /** Time is never stuck: any amount of it can pass without a command, due timers being run on the way. */
  lemma {:induction false} TimeCanPass(g: Gate, ms: nat) returns (ls: seq<Label>)
    ensures Run(g, ls).now == g.now + ms
    ensures forall i :: 0 <= i < |ls| ==> ls[i].Tick? || ls[i].FireTimer?
    decreases ms, |g.timers|
  {
    hide Run;
    if ms == 0 {
      ls := [];
      assert Run(g, ls) == g by { NoLabels(g); }
    } else if i :| 0 <= i < |g.timers| && g.timers[i].due <= g.now {
      FiringFiresOne(g, i);
      var rest := TimeCanPass(Step(g, FireTimer(i)), ms);
      ls := [FireTimer(i)] + rest;
      RunMore(g, FireTimer(i), rest);
    } else {
      OneMoreMillisecond(g);
      var rest := TimeCanPass(Step(g, Tick(1)), ms - 1);
      ls := [Tick(1)] + rest;
      RunMore(g, Tick(1), rest);
    }
  }

  lemma NoLabels(g: Gate)
    ensures Run(g, []) == g
  {
  }

  /** And a timer may be as late as `lag` allows, with the gate open until then, but no later. */
  lemma TimerMayBeLate(lag: nat, d: Word)
    ensures var g := Run(OpenFor(Closed(lag), d), [Tick(d + lag)]);
            g.open && g.now == d + lag && |g.timers| == 1 && g.timers[0].due == d
    ensures Run(OpenFor(Closed(lag), d), [Tick(d + lag + 1)]).now == 0
  {
    assert [Tick(d + lag)][1..] == [] && [Tick(d + lag + 1)][1..] == [];
  }

  /** How many timers a run fires. */
  function Firings(g: Gate, ls: seq<Label>): nat
    decreases |ls|
  {
    if ls == [] then 0
    else (if ls[0].FireTimer? && Enabled(g, ls[0]) then 1 else 0) + Firings(Exec(g, ls[0]), ls[1..])
  }

  function Startings(ls: seq<Label>): nat {
    if ls == [] then 0 else (if ls[0].StartTimer? then 1 else 0) + Startings(ls[1..])
  }

  /** A run fires as many timers as it has firings, and starts as many as it has startings. */
  lemma {:induction false} TimersAreCounted(g: Gate, ls: seq<Label>)
    ensures |Run(g, ls).fired| == |g.fired| + Firings(g, ls)
    ensures |Run(g, ls).timers| + Firings(g, ls) == |g.timers| + Startings(ls)
    decreases |ls|
  {
    if ls == [] {
    } else {
      TimersAreCounted(Exec(g, ls[0]), ls[1..]);
    }
  }

  // ---------------------------------------------------------------------------
  // The gate is what was last done to it
  // ---------------------------------------------------------------------------

  function Effect(l: Label): Option<bool> {
    match l
    case SetOpen => Some(true)
    case SetClosed => Some(false)
    case FireTimer(_) => Some(false)
    case _ => None
  }

  /** Every label of the run is possible where it comes. */
  predicate Possible(g: Gate, ls: seq<Label>)
    decreases |ls|
  {
    ls == [] || (Enabled(g, ls[0]) && Possible(Step(g, ls[0]), ls[1..]))
  }

  ghost predicate NoEffectAfter(ls: seq<Label>, i: nat) {
    forall j :: i < j < |ls| ==> Effect(ls[j]).None?
  }

  /** The gate is open exactly if the last thing that acted on it opened it: an opening, not an explicit
      close, a switch of the filter or a timer. */
  lemma {:induction false} GateIsLastEffect(g: Gate, ls: seq<Label>, i: nat)
    requires Possible(g, ls) && i < |ls| && Effect(ls[i]).Some? && NoEffectAfter(ls, i)
    ensures Run(g, ls).open == Effect(ls[i]).value
    decreases |ls|
  {
    assert Exec(g, ls[0]) == Step(g, ls[0]);
    if i == 0 {
      forall j | 0 <= j < |ls[1..]| ensures Effect(ls[1..][j]).None? {
        assert ls[1..][j] == ls[j + 1];
      }
      NoEffectNoChange(Step(g, ls[0]), ls[1..]);
    } else {
      forall j | i - 1 < j < |ls[1..]| ensures Effect(ls[1..][j]).None? {
        assert ls[1..][j] == ls[j + 1];
      }
      GateIsLastEffect(Step(g, ls[0]), ls[1..], i - 1);
    }
  }

  /** Saving is off until somebody asks for it: in every run from the start, an open gate was opened. */
  lemma NothingOpensByItself(lag: nat, ls: seq<Label>)
    requires Run(Closed(lag), ls).open
    ensures SetOpen in ls
  {
    if SetOpen !in ls { ShutWithoutOpening(Closed(lag), ls); }
  }

  lemma {:induction false} ShutWithoutOpening(g: Gate, ls: seq<Label>)
    requires !g.open && SetOpen !in ls
    ensures !Run(g, ls).open
    decreases |ls|
  {
    if ls == [] {
    } else {
      assert ls[0] in ls;
      assert forall l :: l in ls[1..] ==> l in ls;
      ShutWithoutOpening(Exec(g, ls[0]), ls[1..]);
    }
  }

  lemma {:induction false} NoEffectNoChange(g: Gate, ls: seq<Label>)
    requires forall j :: 0 <= j < |ls| ==> Effect(ls[j]).None?
    ensures Run(g, ls).open == g.open
    decreases |ls|
  {
    if ls == [] {
    } else {
      assert Effect(ls[0]).None?;
      NoEffectNoChange(Exec(g, ls[0]), ls[1..]);
    }
  }

  // ---------------------------------------------------------------------------
  // How long an opening lasts
  // ---------------------------------------------------------------------------

  /** The gate is open now and after every step of the run. */
  predicate StaysOpen(g: Gate, ls: seq<Label>)
    decreases |ls|
  {
    g.open && (ls != [] ==> StaysOpen(Exec(g, ls[0]), ls[1..]))
  }

  lemma KeepsTimer(g: Gate, l: Label, t: Timer)
    requires t in g.timers && Exec(g, l).open
    ensures t in Exec(g, l).timers && Exec(g, l).lag == g.lag
  {
    if l.StartTimer? {
      var i :| 0 <= i < |g.timers| && g.timers[i] == t;
      assert Exec(g, l).timers[i] == t;
    }
  }

  /** While the gate stays open no timer fires, so an opening ends before any timer outstanding during
      it, old or new, is more than `lag` overdue. */
  lemma {:induction false} OpeningEndsWithFirstTimer(g: Gate, ls: seq<Label>, t: Timer)
    requires Inv(g) && StaysOpen(g, ls) && t in g.timers
    ensures t in Run(g, ls).timers && Run(g, ls).now <= t.due + g.lag
    decreases |ls|
  {
    if ls == [] {
    } else {
      if Enabled(g, ls[0]) { StepKeeps(g, ls[0]); }
      KeepsTimer(g, ls[0], t);
      OpeningEndsWithFirstTimer(Exec(g, ls[0]), ls[1..], t);
    }
  }

  /** Every timer that is due has been run. */
  predicate Settled(g: Gate) {
    forall i :: 0 <= i < |g.timers| ==> g.now < g.timers[i].due
  }

  /** When the timers that a run starts are due. */
  function DuesStarted(g: Gate, ls: seq<Label>): seq<nat>
    decreases |ls|
  {
    if ls == [] then []
    else
      var later := DuesStarted(Exec(g, ls[0]), ls[1..]);
      if ls[0].StartTimer? then [g.now + ls[0].durationMs] + later else later
  }

  predicate NoClose(ls: seq<Label>)
    decreases |ls|
  {
    ls == [] || (!ls[0].SetClosed? && NoClose(ls[1..]))
  }

  predicate TimersLater(ts: seq<Timer>, now: nat) {
    forall i :: 0 <= i < |ts| ==> now < ts[i].due
  }

  predicate DuesLater(dues: seq<nat>, now: nat) {
    forall i :: 0 <= i < |dues| ==> now < dues[i]
  }

  lemma TimersLaterAppend(ts: seq<Timer>, t: Timer, now: nat)
    ensures TimersLater(ts + [t], now) <==> TimersLater(ts, now) && now < t.due
  {
    assert (ts + [t])[|ts|] == t;
    assert forall i :: 0 <= i < |ts| ==> (ts + [t])[i] == ts[i];
  }

  lemma DuesLaterPrepend(due: nat, dues: seq<nat>, now: nat)
    ensures DuesLater([due] + dues, now) <==> now < due && DuesLater(dues, now)
  {
    assert ([due] + dues)[0] == due;
    assert forall i :: 0 <= i < |dues| ==> ([due] + dues)[i + 1] == dues[i];
  }

  lemma FirstLabel(g: Gate, ls: seq<Label>)
    requires ls != []
    ensures Run(g, ls) == Run(Exec(g, ls[0]), ls[1..])
    ensures StaysOpen(g, ls) <==> g.open && StaysOpen(Exec(g, ls[0]), ls[1..])
    ensures NoClose(ls) <==> !ls[0].SetClosed? && NoClose(ls[1..])
  {
    hide Exec;
  }

  lemma FirstDue(g: Gate, ls: seq<Label>)
    requires ls != []
    ensures var later := DuesStarted(Exec(g, ls[0]), ls[1..]);
            DuesStarted(g, ls) == if ls[0].StartTimer? then [g.now + ls[0].durationMs] + later else later
  {
    hide Exec;
  }

  /** In every run, with commands coming at any moment, an open gate stays open throughout, the timers that
      are due having been run, if and only if nothing closes it explicitly and no timer is due by then:
      neither one that was outstanding nor one that the run itself starts. */
  lemma {:induction false} StaysOpenIff(g: Gate, ls: seq<Label>)
    requires g.open && Settled(Run(g, ls))
    ensures StaysOpen(g, ls) <==>
              && NoClose(ls) && TimersLater(g.timers, Run(g, ls).now) && DuesLater(DuesStarted(g, ls), Run(g, ls).now)
    decreases |ls|
  {
    hide TimersLater, DuesLater, Settled;
    if ls == [] {
      SettledIsLater(g);
    } else {
      FirstLabel(g, ls);
      FirstDue(g, ls);
      var l, h := ls[0], Exec(g, ls[0]);
      var now := Run(g, ls).now;
      match l
      case SetClosed =>
      case SetOpen =>
        assert h == g;
        StaysOpenIff(h, ls[1..]);
      case Tick(_) => StaysOpenIff(h, ls[1..]);
      case StartTimer(d) =>
        StaysOpenIff(h, ls[1..]);
        TimersLaterAppend(g.timers, Timer(g.nextTimer, g.now + d), now);
        DuesLaterPrepend(g.now + d, DuesStarted(h, ls[1..]), now);
      case FireTimer(i) =>
        if Enabled(g, l) {
          TimeMovesOn(h, ls[1..]);
          DueIsNotLater(g.timers, i, now);
        } else {
          StaysOpenIff(h, ls[1..]);
        }
    }
  }

  lemma SettledIsLater(g: Gate)
    ensures Settled(g) <==> TimersLater(g.timers, g.now)
    ensures DuesLater([], g.now)
  {
  }

  lemma DueIsNotLater(ts: seq<Timer>, i: nat, now: nat)
    requires i < |ts| && ts[i].due <= now
    ensures !TimersLater(ts, now)
  {
  }

  /** `enable_fpfilter_images_save_duration`: open, then start the timer. */
  function OpenFor(g: Gate, durationMs: Word): Gate {
    Step(Step(g, SetOpen), StartTimer(durationMs))
  }

  /** A requested duration is kept: asked before its own timer is due, the gate has stayed open if and only if
      nothing closed it explicitly and no other timer, older or younger, is due. */
  lemma DurationKeptIff(g: Gate, durationMs: Word, ls: seq<Label>)
    requires Settled(Run(OpenFor(g, durationMs), ls))
    requires Run(OpenFor(g, durationMs), ls).now < g.now + durationMs
    ensures var s := OpenFor(g, durationMs);
            StaysOpen(s, ls) <==>
              && NoClose(ls) && TimersLater(g.timers, Run(s, ls).now) && DuesLater(DuesStarted(s, ls), Run(s, ls).now)
  {
    hide TimersLater, DuesLater, Settled;
    StaysOpenIff(OpenFor(g, durationMs), ls);
    TimersLaterAppend(g.timers, Timer(g.nextTimer, g.now + durationMs), Run(OpenFor(g, durationMs), ls).now);
  }

  /** And, whatever commands come, the opening never outlasts the duration. */
  lemma DurationNotExceeded(g: Gate, durationMs: Word, ls: seq<Label>)
    requires Settled(Run(OpenFor(g, durationMs), ls))
    requires Run(OpenFor(g, durationMs), ls).now >= g.now + durationMs
    ensures !StaysOpen(OpenFor(g, durationMs), ls)
  {
    hide TimersLater, DuesLater, Settled;
    StaysOpenIff(OpenFor(g, durationMs), ls);
    TimersLaterAppend(g.timers, Timer(g.nextTimer, g.now + durationMs), Run(OpenFor(g, durationMs), ls).now);
  }

  /** No command comes. */
  predicate Quiet(ls: seq<Label>)
    decreases |ls|
  {
    ls == [] || ((ls[0].Tick? || ls[0].FireTimer?) && Quiet(ls[1..]))
  }

  lemma {:induction false} ClosedStaysClosed(g: Gate, ls: seq<Label>)
    requires Quiet(ls) && !g.open
    ensures !Run(g, ls).open
    decreases |ls|
  {
    if ls == [] {
    } else {
      ClosedStaysClosed(Exec(g, ls[0]), ls[1..]);
    }
  }

  /** Without a command, an opening that ends is not followed by another, and no timer is started. */
  lemma {:induction false} QuietIsOneOpening(g: Gate, ls: seq<Label>)
    requires g.open && Quiet(ls)
    ensures Run(g, ls).open <==> StaysOpen(g, ls)
    ensures NoClose(ls) && DuesStarted(g, ls) == []
    decreases |ls|
  {
    if ls == [] {
    } else {
      var h := Exec(g, ls[0]);
      if h.open {
        QuietIsOneOpening(h, ls[1..]);
      } else {
        ClosedStaysClosed(h, ls[1..]);
        QuietStartsNothing(h, ls[1..]);
      }
    }
  }

  lemma {:induction false} QuietStartsNothing(g: Gate, ls: seq<Label>)
    requires Quiet(ls)
    ensures NoClose(ls) && DuesStarted(g, ls) == []
    decreases |ls|
  {
    if ls == [] {
    } else {
      QuietStartsNothing(Exec(g, ls[0]), ls[1..]);
    }
  }

  /** In particular, with no further command an open gate is still open once the timers that are due have run
      if and only if none of those outstanding was due by then. */
  lemma QuietOpenIff(g: Gate, ls: seq<Label>)
    requires g.open && Quiet(ls) && Settled(Run(g, ls))
    ensures Run(g, ls).open <==> forall i :: 0 <= i < |g.timers| ==> Run(g, ls).now < g.timers[i].due
  {
    hide Settled;
    QuietIsOneOpening(g, ls);
    StaysOpenIff(g, ls);
  }

  lemma RunTwo(g: Gate, ls: seq<Label>)
    requires |ls| >= 2
    ensures Run(g, ls) == Run(Exec(Exec(g, ls[0]), ls[1]), ls[2..])
  {
    assert ls[1..][1..] == ls[2..];
  }

  lemma RunFour(g: Gate, ls: seq<Label>)
    requires |ls| == 4
    ensures Run(g, ls) == Exec(Exec(Exec(Exec(g, ls[0]), ls[1]), ls[2]), ls[3])
  {
    hide Exec;
    RunTwo(g, ls);
    RunTwo(Exec(Exec(g, ls[0]), ls[1]), ls[2..]);
    assert ls[2..][2..] == [];
  }

  /** A younger timer cuts an opening short as well: with nothing outstanding, the gate is opened for 1000 ms
      and then, at once, for 100; it is shut after 100. */
  lemma YoungerTimerCutsOpening()
    ensures var g := OpenFor(Closed(0), 1000); var ls := [SetOpen, StartTimer(100), Tick(100), FireTimer(1)];
            && Closed(0).timers == [] && NoClose(ls) && Settled(Run(g, ls))
            && Run(g, ls).now == 100 && !Run(g, ls).open
  {
    var g, ls := OpenFor(Closed(0), 1000), [SetOpen, StartTimer(100), Tick(100), FireTimer(1)];
    RunFour(g, ls);
    assert g.timers == [Timer(0, 1000)] && g.now == 0;
    var h := Exec(Exec(g, SetOpen), StartTimer(100));
    assert h.timers == [Timer(0, 1000), Timer(1, 100)];
    assert Exec(h, Tick(100)) == h.(now := 100);
    assert ls[1..] == [StartTimer(100), Tick(100), FireTimer(1)] && ls[1..][1..] == [Tick(100), FireTimer(1)];
    assert ls[1..][1..][1..] == [FireTimer(1)] && ls[1..][1..][1..][1..] == [];
  }

  /** A timer outlives the opening it was started for: after saving for 100 ms, an explicit close and an
      opening meant to last until further notice, the gate is shut by the first timer. */
  lemma StaleTimerClosesLaterOpening()
    ensures var ls := [SetOpen, StartTimer(100), SetClosed, SetOpen];
            && Run(Closed(0), ls).open
            && Run(Run(Closed(0), ls), [Tick(99)]).open
            && !Run(Run(Closed(0), ls), [Tick(100), FireTimer(0)]).open
  {
    StaleTimerSetUp();
    StaleTimerRuns();
  }

  const STALE: Gate := Gate(true, 0, 0, [Timer(0, 100)], 1, [])

  lemma StaleTimerSetUp()
    ensures Run(Closed(0), [SetOpen, StartTimer(100), SetClosed, SetOpen]) == STALE
  {
    RunFour(Closed(0), [SetOpen, StartTimer(100), SetClosed, SetOpen]);
  }

  lemma StaleTimerRuns()
    ensures Run(STALE, [Tick(99)]).open && !Run(STALE, [Tick(100), FireTimer(0)]).open
  {
    assert [Tick(99)][1..] == [];
    RunTwo(STALE, [Tick(100), FireTimer(0)]);
    assert [Tick(100), FireTimer(0)][2..] == [];
    assert Exec(STALE, Tick(100)) == STALE.(now := 100);
  }
}
