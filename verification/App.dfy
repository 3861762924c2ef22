/** The application's command side as it runs: the globals of the filter and of the save gate, and the
    handlers that change them. */
module App {
  import opened Wrappers
  import opened FrameSelection
  import LiveLink
  import opened LinkRuntime
  import opened Prompts
  import SaveGate

  class Application {
    var isFpfilterEnabled: bool
    var fpfilterBin: Option<nat>
    var dynamicLinkInfo: LiveLink.LinkUnlinkInfo
    var saveFpfilterImages: bool
    const runtime: Runtime
    // the main loop's one-shot timers
    var timers: seq<SaveGate.Timer>
    var nextTimer: nat
    var now: nat
    ghost var lag: nat
    ghost var fired: seq<nat>

    ghost function Link(): LiveLink.State
      reads this, runtime
    {
      LiveLink.State(runtime.Net(), isFpfilterEnabled, dynamicLinkInfo, fpfilterBin, LiveLink.CmdIdle)
    }

    ghost function Gate(): SaveGate.Gate
      reads this
    {
      SaveGate.Gate(saveFpfilterImages, now, lag, timers, nextTimer, fired)
    }

    ghost function State(): AppState
      reads this, runtime
    {
      AppState(Link(), Gate())
    }

    /** The set-up in `main`, for a configuration with the filter on or off. */
    constructor (configured: bool, ghost lag: nat)
      ensures State() == Start(configured, lag) && fresh(runtime)
    {
      runtime := new Runtime(configured);
      isFpfilterEnabled := configured;
      fpfilterBin := if configured then Some(0) else None;
      dynamicLinkInfo :=
        LiveLink.LinkUnlinkInfo(if configured then Some(0) else None, LiveLink.Prev, LiveLink.PrevPrev, LiveLink.Next);
      saveFpfilterImages := false;
      timers, nextTimer := [], 0;
      this.now, this.lag, fired := 0, lag, [];
    }

    method GetFpfilterImagesSaveStatus() returns (open: bool)
      ensures open == Gate().open
    {
      open := saveFpfilterImages;
    }

    method EnableFpfilterImagesSave()
      modifies this`saveFpfilterImages
      ensures Gate() == SaveGate.Step(old(Gate()), SaveGate.SetOpen)
    {
      saveFpfilterImages := true;
    }

    method DisableFpfilterImagesSave()
      modifies this`saveFpfilterImages
      ensures Gate() == SaveGate.Step(old(Gate()), SaveGate.SetClosed)
    {
      saveFpfilterImages := false;
    }

    method EnableFpfilterImagesSaveDuration(durationMs: Word)
      modifies this`saveFpfilterImages, this`timers, this`nextTimer
      ensures Gate() == SaveGate.OpenFor(old(Gate()), durationMs)
    {
      EnableFpfilterImagesSave();
      TimeoutAdd(durationMs);
    }

    /** `g_timeout_add`. */
    method TimeoutAdd(durationMs: Word)
      modifies this`timers, this`nextTimer
      ensures Gate() == SaveGate.Step(old(Gate()), SaveGate.StartTimer(durationMs))
    {
      timers := timers + [SaveGate.Timer(nextTimer, now + durationMs)];
      nextTimer := nextTimer + 1;
    }

    /** The main loop runs a due timer; its callback asks not to be run again. */
    method RunTimer(index: nat)
      requires SaveGate.Enabled(Gate(), SaveGate.FireTimer(index))
      modifies this`saveFpfilterImages, this`timers, this`fired
      ensures Gate() == SaveGate.Step(old(Gate()), SaveGate.FireTimer(index))
    {
      fired := fired + [timers[index].id];
      DisableFpfilterImagesSave();
      timers := timers[..index] + timers[index + 1..];
    }

    /** `built` is whether `create_filter_elements_bin` succeeds. */
    method EnableFpfilter(built: bool)
      modifies this, runtime
      ensures State() == Enable(old(State()), built)
    {
      if isFpfilterEnabled {
        return;
      }
      if !built {
        fpfilterBin := None;
        return;
      }
      hide Complete, LiveLink.MakeCopy, LiveLink.Install;
      EnableClosedForm(Link());
      var bin := runtime.NewBin();
      fpfilterBin := Some(bin);
      dynamicLinkInfo := dynamicLinkInfo.(mainElement := fpfilterBin);
      DisableFpfilterImagesSave();
      runtime.AddElementToPipeline(dynamicLinkInfo);
      isFpfilterEnabled := true;
    }

    method DisableFpfilter()
      modifies this, runtime
      ensures State() == Disable(old(State()))
    {
      if !isFpfilterEnabled {
        return;
      }
      hide Complete, LiveLink.MakeCopy, LiveLink.Install;
      DisableClosedForm(Link());
      isFpfilterEnabled := false;
      DisableFpfilterImagesSave();
      runtime.RemoveElementFromPipeline(dynamicLinkInfo);
      fpfilterBin := None;
      dynamicLinkInfo := dynamicLinkInfo.(mainElement := None);
    }

    method HandlePrompt(p: Prompt)
      modifies this, runtime
      ensures State() == Handle(old(State()), p)
    {
      if p.target.None? {
        return;
      }
      if p.target.value == "fpfilter" {
        if p.action.None? {
          return;
        }
        if p.action.value == "enable" {
          EnableFpfilter(p.binBuilt);
        } else if p.action.value == "disable" {
          DisableFpfilter();
        } else if p.action.value == "save-fp-enable" {
          if p.duration.None? {
            EnableFpfilterImagesSave();
          } else {
            EnableFpfilterImagesSaveDuration(p.duration.value % WORD);
          }
        } else if p.action.value == "save-fp-disable" {
          DisableFpfilterImagesSave();
        }
      }
    }

    /** `message` is the parsed command array, or nothing if the text is not a well-formed message. */
    method HandleUsrPrompt(message: Option<seq<Prompt>>)
      modifies this, runtime
      ensures State() == HandleAll(old(State()), if message.None? then [] else message.value)
    {
      if message.None? {
        return;
      }
      var arr := message.value;
      var idx := 0;
      while idx < |arr|
        invariant 0 <= idx <= |arr|
        invariant State() == HandleAll(old(State()), arr[..idx])
      {
        HandlePrompt(arr[idx]);
        assert arr[..idx + 1][..idx] == arr[..idx];
        HandleLast(old(State()), arr[..idx + 1]);
        idx := idx + 1;
      }
      assert arr[..idx] == arr;
    }
  }
}
