/**
 * The `DosModule` class of js-dos-ts/js-dos-module.ts: the emscripten module
 * object that js-dos configures, hands to the DOSBox runtime and receives
 * lifecycle calls on. Each method does what the TypeScript method does, step
 * by step, and promises that its new state is the one the matching function
 * of `DosState` computes from the old state.
 */
module JsDosModule {
  import opened Wrappers
  import opened DosState

  /** A JavaScript `string[]` owned by the caller of `main`, who sees it change. */
  class ArgList {
    var elems: seq<string>

    constructor (elems: seq<string>)
      ensures this.elems == elems
    {
      this.elems := elems;
    }

    /** `Array.prototype.unshift`: inserts `items`, in their order, in front of the elements. */
    method Unshift(items: seq<string>)
      modifies this
      ensures elems == items + old(elems)
    {
      elems := items + elems;
    }
  }

  class DosModule {
    var isValid: bool
    /** Whether a canvas element was given. */
    var canvas: bool
    var wdosboxUrl: Option<string>
    var log: Option<LogSink>
    var onerror: Option<CallbackId>
    var onprogress: Option<ProgressSink>
    var ui: Option<ObjectId>
    var fs: Option<ObjectId>
    /** `SDL.defaults`, as handed to emscripten's SDL wrapper. */
    var sdl: Option<map<string, SdlValue>>
    var onready: Option<CallbackId>
    var instantiateWasm: Option<CallbackId>
    var instance: Option<ObjectId>
    /** Every call the module has made out of itself, oldest first. */
    var trace: seq<Event>
    /** The identity the next constructed object gets. */
    var nextObject: ObjectId

    ghost function State(): ModState
      reads this
    {
      ModState(isValid, canvas, wdosboxUrl, log, onerror, onprogress, ui, fs, sdl,
               onready, instantiateWasm, instance, trace, nextObject)
    }

    constructor (canvas: bool, onready: Option<CallbackId>)
      ensures State() == Initial(canvas, onready)
    {
      isValid := false;
      this.canvas := canvas;
      wdosboxUrl, log, onerror, onprogress := None, None, None, None;
      ui, fs, sdl := None, None, None;
      this.onready := onready;
      instantiateWasm, instance := None, None;
      trace, nextObject := [], 0;
    }

    /** `new X(this)` for an opaque `X`: a fresh identity and a construction event. */
    method NewObject(kind: ObjectKind) returns (id: ObjectId)
      modifies this
      ensures (State(), id) == Construct(old(State()), kind)
    {
      id := nextObject;
      nextObject := nextObject + 1;
      trace := trace + [Created(kind, id)];
    }

    /** `this.log(line)`. */
    method Log(line: string) returns (o: Outcome)
      modifies this
      ensures Step(State(), o) == CallLog(old(State()), line)
    {
      if log.None? {
        return TypeError("log");
      }
      trace := trace + [Logged(log.value, line)];
      o := Returned;
    }

    method Debug(message: string) returns (o: Outcome)
      modifies this
      ensures Step(State(), o) == LogStep(old(State()), Severity.Debug, message)
    {
      o := Log("[DEBUG] " + message);
    }

    method Info(message: string) returns (o: Outcome)
      modifies this
      ensures Step(State(), o) == LogStep(old(State()), Severity.Info, message)
    {
      o := Log("[INFO] " + message);
    }

    method Warn(message: string) returns (o: Outcome)
      modifies this
      ensures Step(State(), o) == LogStep(old(State()), Severity.Warn, message)
    {
      o := Log("[WARN] " + message);
    }

    method Error(message: string) returns (o: Outcome)
      modifies this
      ensures Step(State(), o) == LogStep(old(State()), Severity.Error, message)
    {
      o := Log("[ERROR] " + message);
    }

    /** Called by the loader with the DOSBox constructor; the constructor itself is opaque. */
    method Ondosbox(wasm: CallbackId) returns (o: Outcome)
      modifies this
      ensures Step(State(), o) == OnDosboxStep(old(State()), wasm)
    {
      o := Info("DosBox resolved");
      if o.TypeError? {
        return;
      }
      instantiateWasm := Some(wasm);
      var id := NewObject(Runtime);
      instance := Some(id);
    }

    /** Lines 57-64 of `resolve()`: default the URL, then the log sink. */
    method DefaultUrlAndLog()
      modifies this
      ensures State() == DefaultLog(DefaultUrl(old(State())))
    {
      if wdosboxUrl.None? || wdosboxUrl.value == "" {
        wdosboxUrl := Some("wdosbox.js");
      }
      if log.None? {
        log := Some(ConsoleSink);
      }
    }

    /** Lines 66-69 of `resolve()`, reached without a canvas: report through `onerror`. */
    method ReportMissingCanvas() returns (o: Outcome)
      requires !canvas
      modifies this
      ensures Step(State(), o) == CheckCanvas(old(State()))
    {
      if onerror.None? {
        return TypeError("onerror");
      }
      trace := trace + [ErrorReported(onerror.value, "canvas field is required, but not set!")];
      o := Returned;
    }

    /** Lines 71-74 of `resolve()`: without a progress callback, forward to a new indicator. */
    method InstallIndicator()
      modifies this
      ensures State() == DefaultProgress(old(State()))
    {
      if onprogress.None? {
        var id := NewObject(Ui);
        ui := Some(id);
        onprogress := Some(UiForwarder);
      }
    }

    method Resolve() returns (o: Outcome)
      modifies this
      ensures Step(State(), o) == ResolveStep(old(State()))
    {
      DefaultUrlAndLog();
      if !canvas {
        o := ReportMissingCanvas();
        return;
      }
      InstallIndicator();
      sdl := Some(SdlDefaultsAsWritten());
      isValid := true;
      o := Returned;
    }

    /** A call of `this.onprogress(stage, total, loaded)`. */
    method Progress(stage: string, total: int, loaded: int) returns (o: Outcome)
      modifies this
      ensures Step(State(), o) == ProgressStep(old(State()), stage, total, loaded)
    {
      if onprogress.None? {
        return TypeError("onprogress");
      }
      match onprogress.value
      case HostProgress(h) =>
        trace := trace + [ProgressDelivered(h, stage, total, loaded)];
        o := Returned;
      case UiForwarder =>
        if ui.None? {
          return TypeError("ui.onprogress");
        }
        trace := trace + [ProgressShown(ui.value, stage, total, loaded)];
        o := Returned;
    }

    /** `callMain(args)` of the emscripten runtime: only the call is observed. */
    method CallMain(args: seq<string>)
      modifies this
      ensures State() == Emit(old(State()), MainCalled(args))
    {
      trace := trace + [MainCalled(args)];
    }

    /** The `main` function that `onRuntimeInitialized` hands to `onready`. */
    method MainFn(args: ArgList)
      modifies this, args
      ensures args.elems == MountArgs(old(args.elems))
      ensures State() == MainStep(old(State()), old(args.elems)).state
    {
      if ui.Some? {
        trace := trace + [Detached(ui.value)];
        ui := None;
      }
      args.Unshift(["-c", "mount c .", "-c", "c:"]);
      CallMain(args.elems);
    }

    method OnRuntimeInitialized() returns (o: Outcome)
      modifies this
      ensures Step(State(), o) == InitStep(old(State()))
    {
      var id := NewObject(Fs);
      fs := Some(id);
      if onready.None? {
        return TypeError("onready");
      }
      trace := trace + [ReadyDelivered(onready.value, id)];
      o := Returned;
    }
  }

  /** A page that gives only a canvas and a ready callback, as a host would drive the module. */
  method PageLifecycle(args: ArgList)
    modifies args
  {
    var m := new DosModule(true, Some(7));
    var o := m.Resolve();
    assert o == Returned && m.isValid && m.wdosboxUrl == Some("wdosbox.js");
    assert m.ui == Some(0) && m.onprogress == Some(UiForwarder);
    o := m.Progress("download", 100, 10);
    assert m.trace == [Created(Ui, 0), ProgressShown(0, "download", 100, 10)];
    o := m.OnRuntimeInitialized();
    assert m.fs == Some(1) && m.trace[3] == ReadyDelivered(7, 1);
    var before := args.elems;
    m.MainFn(args);
    assert args.elems == ["-c", "mount c .", "-c", "c:"] + before;
    assert m.ui.None? && m.trace[4] == Detached(0);
    o := m.Progress("download", 100, 100);
    assert o == TypeError("ui.onprogress");
  }
}
