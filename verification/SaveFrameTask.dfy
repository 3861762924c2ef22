/** The worker thread's program, with whatever the other threads do between its statements passed in
    as a schedule. Its nested loops are proved to walk the step system of `SaveWorker`. */
module SaveFrameTask {
  import opened SaveWorker

  // ---------------------------------------------------------------------------
  // Traces
  // ---------------------------------------------------------------------------

  /** What happens while the program runs: a statement of the worker, or a turn of the other threads. */
  datatype Event<F> = Statement | Turn(ls: seq<Label<F>>)

  /** The labels of the threads other than the worker, in order. */
  function Foreign<F>(ls: seq<Label<F>>): seq<Label<F>>
    decreases |ls|
  {
    if ls == [] then []
    else Foreign(ls[..|ls| - 1]) + (if ls[|ls| - 1].WorkerStep? then [] else [ls[|ls| - 1]])
  }

  function LabelsOf<F>(e: Event<F>): seq<Label<F>> {
    match e
    case Statement => [WorkerStep]
    case Turn(ls) => Foreign(ls)
  }

  /** The run that a trace stands for. */
  function Labels<F>(trace: seq<Event<F>>): seq<Label<F>>
    decreases |trace|
  {
    if trace == [] then [] else Labels(trace[..|trace| - 1]) + LabelsOf(trace[|trace| - 1])
  }

  /** The turns the other threads have had, in order. */
  function Turns<F>(trace: seq<Event<F>>): seq<seq<Label<F>>>
    decreases |trace|
  {
    if trace == [] then []
    else Turns(trace[..|trace| - 1]) + (if trace[|trace| - 1].Turn? then [trace[|trace| - 1].ls] else [])
  }

  /** How many statements the worker has made. */
  function Statements<F>(trace: seq<Event<F>>): nat
    decreases |trace|
  {
    if trace == [] then 0
    else Statements(trace[..|trace| - 1]) + (if trace[|trace| - 1].Statement? then 1 else 0)
  }

  /** After a trace, an event is in pace: the worker is not blocked at a statement it makes, and the others
      get a turn only when the worker has just made a statement, or is blocked. */
  predicate InPace<F>(trace: seq<Event<F>>, e: Event<F>) {
    var s := Run(Start(), Labels(trace));
    match e
    case Statement => Enabled(s, WorkerStep)
    case Turn(_) => !Enabled(s, WorkerStep) || (trace != [] && trace[|trace| - 1].Statement?)
  }

  predicate Paced<F>(trace: seq<Event<F>>)
    decreases |trace|
  {
    trace == [] || (Paced(trace[..|trace| - 1]) && InPace(trace[..|trace| - 1], trace[|trace| - 1]))
  }

  lemma TraceExtends<F>(trace: seq<Event<F>>, e: Event<F>)
    requires Paced(trace) && InPace(trace, e)
    ensures var longer := trace + [e];
            && Paced(longer)
            && Turns(longer) == Turns(trace) + (if e.Turn? then [e.ls] else [])
            && Statements(longer) == Statements(trace) + (if e.Statement? then 1 else 0)
            && Run(Start(), Labels(longer)) == Run(Run(Start(), Labels(trace)), LabelsOf(e))
  {
    hide InPace, LabelsOf;
    assert (trace + [e])[..|trace|] == trace;
    RunAppend(Start<F>(), Labels(trace), LabelsOf(e));
  }

  lemma {:induction false} LabelsAppend<F>(a: seq<Event<F>>, b: seq<Event<F>>)
    ensures Labels(a + b) == Labels(a) + Labels(b)
    decreases |b|
  {
    hide LabelsOf;
    if b == [] {
      assert a + b == a;
    } else {
      var front, last := b[..|b| - 1], b[|b| - 1];
      assert (a + b)[..|a + b| - 1] == a + front;
      LabelsAppend(a, front);
      calc {
        Labels(a + b);
        Labels(a + front) + LabelsOf(last);
        (Labels(a) + Labels(front)) + LabelsOf(last);
        Labels(a) + (Labels(front) + LabelsOf(last));
        Labels(a) + Labels(b);
      }
    }
  }

  lemma OthersKeepWorker<F>(s: State<F>, l: Label<F>)
    requires !l.WorkerStep?
    ensures Exec(s, l).wpc == s.wpc && |Exec(s, l).queue| >= |s.queue| && Exec(s, l).processed == s.processed
  {
    hide StopperNext;
    if l.StopperStep? && Enabled(s, l) { StopperFrame(s); }
  }

  // ---------------------------------------------------------------------------
  // Statements of the worker
  // ---------------------------------------------------------------------------

  /** Where a statement of the worker leads. */
  function NextPc<F>(s: State<F>): WorkerPc
    requires !s.wpc.WDone?
  {
    match s.wpc
    case WLock => WTest
    case WTest => if s.stop then WLeave else WUnlock
    case WUnlock => WLength
    case WLength => if s.queue == [] then WSleep else WPop
    case WPop => WProcess
    case WProcess => WLength
    case WSleep => WLock
    case WLeave => WClear
    case WClear => WDone
  }

  /** Only the saving of the frame in flight adds to what is saved. */
  predicate Saved<F(==)>(s: State<F>, t: State<F>) {
    t.processed == s.processed + (if s.wpc.WProcess? then InFlight(s) else [])
  }

  lemma InnerGoesOn<F>(s: State<F>)
    requires Enabled(s, WorkerStep) && InInnerLoop(s.wpc)
    ensures InnerNext(s).wpc == NextPc(s) && Saved(s, InnerNext(s))
    ensures |InnerNext(s).queue| == |s.queue| - (if s.wpc.WPop? then 1 else 0)
  {
    assert s.wpc.WPop? ==> s.queue != [];
    hide Enabled;
    match s.wpc
    case WLength =>
    case WPop =>
    case WProcess =>
  }

  lemma OuterGoesOn<F>(s: State<F>)
    requires Enabled(s, WorkerStep) && !InInnerLoop(s.wpc)
    ensures OuterNext(s).wpc == NextPc(s) && OuterNext(s).queue == s.queue && Saved(s, OuterNext(s))
  {
  }

  lemma WorkerGoesOn<F>(s: State<F>)
    requires Enabled(s, WorkerStep)
    ensures WorkerNext(s).wpc == NextPc(s) && Saved(s, WorkerNext(s))
    ensures |WorkerNext(s).queue| == |s.queue| - (if s.wpc.WPop? then 1 else 0)
  {
    hide InnerNext, OuterNext, NextPc, Saved;
    if InInnerLoop(s.wpc) { InnerGoesOn(s); } else { OuterGoesOn(s); }
  }

  lemma StatementIsRun<F>(s: State<F>)
    requires Enabled(s, WorkerStep)
    ensures Run(s, LabelsOf(Statement)) == WorkerNext(s)
  {
    hide WorkerNext;
    RunOne(s, [], WorkerStep);
  }

  lemma LaterIsRun<F>(a: seq<Event<F>>, b: seq<Event<F>>)
    requires a <= b
    ensures var s, t := Run(Start(), Labels(a)), Run(Start(), Labels(b));
            t == Run(s, Labels(b[|a|..])) && s.pushed <= t.pushed && s.processed <= t.processed
  {
    assert b == a + b[|a|..];
    LabelsAppend(a, b[|a|..]);
    RunAppend(Start<F>(), Labels(a), Labels(b[|a|..]));
    RunOnlyAdds(Run(Start(), Labels(a)), Labels(b[|a|..]));
  }

  // ---------------------------------------------------------------------------
  // The program
  // ---------------------------------------------------------------------------

  class Task<F(!new)> {
    var s: State<F>
    /** What the producer and the stopper do before the worker's next statement, and after that. */
    var schedule: seq<seq<Label<F>>>
    /** Everything that has happened so far. */
    ghost var trace: seq<Event<F>>
    /** The schedule the task was started with. */
    ghost const allTurns: seq<seq<Label<F>>>

    /** The state is where the trace leads; the trace is in pace; and the others have had exactly the turns
        that are gone from the schedule, in order. */
    ghost predicate Valid()
      reads this
    {
      && s == Run(Start(), Labels(trace)) && Paced(trace)
      && allTurns == Turns(trace) + schedule
    }

    /** How the task has gone on since the trace was `before` and the state `was`: by a run of the protocol,
        which takes back neither pushes nor saved frames. */
    ghost predicate WentOn(before: seq<Event<F>>, was: State<F>)
      requires before <= trace
      reads this
    {
      && s == Run(was, Labels(trace[|before|..]))
      && was.pushed <= s.pushed && was.processed <= s.processed
    }

    constructor (schedule: seq<seq<Label<F>>>)
      ensures Valid() && s == Start() && trace == [] && this.schedule == allTurns == schedule
    {
      s := Start();
      this.schedule, allTurns := schedule, schedule;
      trace := [];
    }

    lemma IsReachable()
      requires Valid()
      ensures s == Run(Start(), Labels(trace)) && Reachable(s)
    {
    }

    /** What the other threads do at one go. */
    method TakeTurn(turn: seq<Label<F>>)
      modifies this`s
      ensures s == Run(old(s), Foreign(turn)) && s.wpc == old(s.wpc) && s.processed == old(s.processed)
    {
      hide Exec, Run, Foreign;
      NoTurn(s);
      for i := 0 to |turn|
        invariant s == Run(old(s), Foreign(turn[..i])) && s.wpc == old(s.wpc) && s.processed == old(s.processed)
      {
        assert turn[..i + 1][..i] == turn[..i];
        ForeignOneMore(turn, i);
        if !turn[i].WorkerStep? {
          RunOne(old(s), Foreign(turn[..i]), turn[i]);
          OthersKeepWorker(s, turn[i]);
          s := Exec(s, turn[i]);
        }
      }
      assert turn[..|turn|] == turn;
    }

    static lemma NoTurn(s: State<F>)
      ensures Run(s, Foreign([])) == s
    {
    }

    static lemma ForeignOneMore(turn: seq<Label<F>>, i: nat)
      requires i < |turn|
      ensures Foreign(turn[..i + 1]) ==
                if turn[i].WorkerStep? then Foreign(turn[..i]) else Foreign(turn[..i]) + [turn[i]]
    {
      assert turn[..i + 1][..i] == turn[..i];
      assert Foreign(turn[..i]) + [] == Foreign(turn[..i]);
    }

    /** The other threads take their turn. */
    method Others()
      requires Valid() && (!Enabled(s, WorkerStep) || (trace != [] && trace[|trace| - 1].Statement?))
      modifies this
      ensures Valid() && old(trace) <= trace && s.wpc == old(s.wpc)
      ensures s.processed == old(s.processed) && Statements(trace) == Statements(old(trace))
      ensures old(schedule) == [] ==> schedule == [] && s == old(s)
      ensures old(schedule) != [] ==> schedule == old(schedule)[1..]
    {
      if schedule == [] {
        return;
      }
      hide Run, Paced, Labels, Turns, Statements, Foreign, InPace;
      TurnIsInPace();
      TurnTaken();
      var turn := schedule[0];
      TakeTurn(turn);
      trace, schedule := trace + [Turn(turn)], schedule[1..];
    }

    lemma TurnIsInPace()
      requires Valid() && schedule != []
      requires !Enabled(s, WorkerStep) || (trace != [] && trace[|trace| - 1].Statement?)
      ensures InPace(trace, Turn(schedule[0]))
    {
    }

    /** What the next turn does to the trace. */
    lemma TurnTaken()
      requires Valid() && schedule != [] && InPace(trace, Turn(schedule[0]))
      ensures var longer := trace + [Turn(schedule[0])];
              && Paced(longer) && Statements(longer) == Statements(trace)
              && Run(Start(), Labels(longer)) == Run(s, Foreign(schedule[0]))
              && allTurns == Turns(longer) + schedule[1..]
    {
      hide Run, Paced, Labels, Turns, Statements, Foreign, InPace;
      TraceExtends(trace, Turn(schedule[0]));
      assert schedule == [schedule[0]] + schedule[1..];
      assert Turns(trace) + ([schedule[0]] + schedule[1..]) == (Turns(trace) + [schedule[0]]) + schedule[1..];
    }

    /** The worker's next statement. */
    method Do()
      requires Valid() && Enabled(s, WorkerStep)
      modifies this`s, this`trace
      ensures Valid() && trace == old(trace) + [Statement] && s == WorkerNext(old(s))
      ensures s.wpc == NextPc(old(s)) && |s.queue| == |old(s).queue| - (if old(s).wpc.WPop? then 1 else 0)
      ensures Saved(old(s), s) && Statements(trace) == Statements(old(trace)) + 1
    {
      hide Run, Paced, Labels, Turns, Statements, WorkerNext, NextPc, Saved, Enabled, LabelsOf;
      WorkerGoesOn(s);
      TraceExtends(trace, Statement);
      StatementIsRun(s);
      s := WorkerNext(s);
      trace := trace + [Statement];
    }

    /** Waits for the mutex, for as long as there is somebody who may release it. */
    method Lock() returns (locked: bool)
      requires Valid() && s.wpc.WLock?
      modifies this
      ensures Valid() && old(trace) <= trace && |schedule| <= |old(schedule)|
      ensures locked ==> s.wpc.WTest? && trace != [] && trace[|trace| - 1].Statement?
      ensures !locked ==> schedule == [] && s.wpc.WLock? && !s.mutex.Nobody? && !s.spc.SDone?
    {
      hide WorkerNext, Valid, Run, Statements, Inv, Reachable;
      while !s.mutex.Nobody?
        invariant Valid() && s.wpc.WLock? && old(trace) <= trace && |schedule| <= |old(schedule)|
        decreases |schedule|
      {
        if schedule == [] {
          NotStoppedYet();
          return false;
        }
        Others();
      }
      Do();
      locked := true;
    }

    /** Who waits for the mutex, or finds the stop flag down, does so before stop has returned. */
    lemma NotStoppedYet()
      requires Valid()
      ensures s.spc.SDone? ==> s.stop && (s.wpc.WLock? ==> s.mutex.Nobody?)
    {
      IsReachable();
      ReachableInv(s);
    }

    /** The inner loop, from a look at the queue to the one that finds it empty. The worker makes exactly
        three statements for every frame it saves. */
    method SaveQueued()
      requires Valid() && s.wpc.WLength?
      modifies this
      ensures Valid() && old(trace) <= trace && WentOn(old(trace), old(s)) && |schedule| <= |old(schedule)|
      ensures s.wpc.WLength? && s.queue == []
      ensures Statements(trace) - Statements(old(trace)) == 3 * (|s.processed| - |old(s).processed|)
    {
      hide WorkerNext, Valid, Run, WentOn, Reachable, Statements, Labels;
      IsReachable();
      while |s.queue| != 0
        invariant Valid() && s.wpc.WLength? && old(trace) <= trace && |schedule| <= |old(schedule)|
        invariant Statements(trace) - Statements(old(trace)) == 3 * (|s.processed| - |old(s).processed|)
        decreases |schedule|, |s.queue|
      {
        SaveOne();
      }
      ItWentOn(old(trace), old(s));
    }

    /** The body of the inner loop. */
    method SaveOne()
      requires Valid() && s.wpc.WLength? && s.queue != []
      modifies this
      ensures Valid() && old(trace) <= trace && s.wpc.WLength?
      ensures |schedule| < |old(schedule)| || (schedule == old(schedule) && |s.queue| < |old(s).queue|)
      ensures |s.processed| == |old(s).processed| + 1 && Statements(trace) == Statements(old(trace)) + 3
    {
      hide WorkerNext, Valid, Run, Reachable, Statements;
      Do();
      Others();
      FrameIsThere();
      Do();
      Others();
      FrameIsThere();
      Do();
      Others();
    }

    /** The queue is not empty at the pop, and there is a frame to save after it. */
    lemma FrameIsThere()
      requires Valid()
      ensures s.wpc.WPop? ==> Enabled(s, WorkerStep)
      ensures s.wpc.WProcess? ==> |InFlight(s)| == 1
    {
      IsReachable();
      ReachableInv(s);
    }

    lemma ItWentOn(before: seq<Event<F>>, was: State<F>)
      requires Valid() && before <= trace && was == Run(Start(), Labels(before))
      ensures WentOn(before, was)
    {
      LaterIsRun(before, trace);
    }

    /** The statements before the inner loop. */
    method StartRound()
      requires Valid() && s.wpc.WTest? && !s.stop && schedule != []
      modifies this
      ensures Valid() && old(trace) <= trace && s.wpc.WLength? && |schedule| < |old(schedule)|
    {
      hide WorkerNext, Valid, Run, Statements;
      Do();
      Others();
      Do();
      Others();
    }

    /** The body of the outer loop, up to asking for the mutex again. */
    method Round()
      requires Valid() && s.wpc.WTest? && !s.stop && schedule != []
      modifies this
      ensures Valid() && old(trace) <= trace && s.wpc.WLock? && |schedule| < |old(schedule)|
    {
      hide WorkerNext, Valid, Run, WentOn, Statements;
      StartRound();
      SaveQueued();
      Do();
      Others();
      Do();
    }

    /** After the loop. */
    method Exit()
      requires Valid() && s.wpc.WTest? && s.stop
      modifies this
      ensures Valid() && old(trace) <= trace && s.wpc.WDone?
    {
      hide WorkerNext, Valid, Run, Statements;
      Do();
      Others();
      Do();
      Others();
      Do();
    }

    /** `_save_frame_task`. It exits once it finds the stop flag set. It gives up only when the schedule is
        used up and stop has not returned, since the source would then go on for ever. */
    method SaveFrameTask() returns (finished: bool)
      requires Valid() && s.wpc.WLock?
      modifies this
      ensures Valid() && old(trace) <= trace && WentOn(old(trace), old(s))
      ensures finished ==> s.wpc.WDone? && s.pushed == s.processed + s.sinceEmpty && s.queue == s.sinceEmpty
      ensures !finished ==> schedule == [] && !s.wpc.WDone? && !s.spc.SDone?
    {
      hide Valid, Run, WentOn, Reachable, Labels;
      IsReachable();
      finished := RunUntilStopped();
      if finished {
        IsReachable();
        LeftBehindExactly(s);
      }
      ItWentOn(old(trace), old(s));
    }

    method RunUntilStopped() returns (finished: bool)
      requires Valid() && s.wpc.WLock?
      modifies this
      ensures Valid() && old(trace) <= trace
      ensures finished ==> s.wpc.WDone?
      ensures !finished ==> schedule == [] && !s.wpc.WDone? && !s.spc.SDone?
    {
      hide WorkerNext, Valid, Run, Inv, Reachable;
      finished := Lock();
      if !finished {
        return;
      }
      Others();
      while !s.stop
        invariant Valid() && s.wpc.WTest? && old(trace) <= trace
        decreases |schedule|
      {
        if schedule == [] {
          NotStoppedYet();
          return false;
        }
        Round();
        finished := Lock();
        if !finished {
          return;
        }
        Others();
      }
      Exit();
      finished := true;
    }
  }
}
