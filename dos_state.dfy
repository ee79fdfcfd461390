/**
 * The abstract state of a js-dos `DosModule` (the emscripten module object of
 * js-dos-ts/js-dos-module.ts) and one specification function per operation.
 *
 * The emscripten runtime, the progress indicator (`DosUi`), the file system
 * facade (`DosFS`) and the DOSBox instance are opaque: each is an `ObjectId`
 * drawn from a counter when it is constructed. Host-supplied callbacks are
 * `CallbackId`s. Every observable effect (a call of the log sink, of
 * `onerror`, of `onready`, of `callMain`, a constructor or `detach` call)
 * is appended to `trace`.
 *
 * Calling an absent callback in JavaScript throws a `TypeError`; an operation
 * that does so ends with `Outcome.TypeError`, and its state is the one reached
 * at the throwing call.
 */
module DosState {
  import opened Wrappers

  /** A host-supplied function, identified by its identity only. */
  type CallbackId = nat
  /** An object constructed by the module (`DosUi`, `DosFS`, the DOSBox instance). */
  type ObjectId = nat

  const DEFAULT_WDOSBOX_URL := "wdosbox.js"
  const CANVAS_MISSING := "canvas field is required, but not set!"
  const DOSBOX_RESOLVED := "DosBox resolved"
  /** The arguments that mount the emscripten file system as drive C: and select it. */
  const MOUNT_PREFIX: seq<string> := ["-c", "mount c .", "-c", "c:"]

  datatype Severity = Debug | Info | Warn | Error

  /** The fixed prefix each logging helper puts in front of its message. */
  function Prefix(sev: Severity): (p: string)
    ensures |p| >= 7 && p[0] == '[' && p[|p| - 2] == ']' && p[|p| - 1] == ' '
  {
    match sev
    case Debug => "[DEBUG] "
    case Info => "[INFO] "
    case Warn => "[WARN] "
    case Error => "[ERROR] "
  }

  /** The log sink: the default `console.log` forwarder, or the host's own function. */
  datatype LogSink = ConsoleSink | HostLog(cb: CallbackId)

  /** The progress callback: the default forwarder to `this.ui`, or the host's own function. */
  datatype ProgressSink = UiForwarder | HostProgress(cb: CallbackId)

  datatype ObjectKind = Ui | Fs | Runtime

  /** A value in the table the module hands to emscripten's SDL wrapper as `SDL.defaults`. */
  datatype SdlValue = IntValue(i: int) | BoolValue(b: bool)

  datatype Event =
    | Logged(sink: LogSink, line: string)
    | ErrorReported(handler: CallbackId, message: string)
    | Created(kind: ObjectKind, id: ObjectId)
    | Detached(ui: ObjectId)
    | ProgressShown(indicator: ObjectId, stage: string, total: int, loaded: int)
    | ProgressDelivered(handler: CallbackId, stage: string, total: int, loaded: int)
    | MainCalled(args: seq<string>)
    | ReadyDelivered(handler: CallbackId, fs: ObjectId)

  datatype Outcome = Returned | TypeError(callee: string)

  /**
   * The fields of a `DosModule`. `wdosboxUrl`, `log`, `onerror` and
   * `onprogress` come from `DosOptions`; `sdl` is `SDL.defaults`.
   */
  datatype ModState = ModState(
    isValid: bool,
    canvas: bool,
    wdosboxUrl: Option<string>,
    log: Option<LogSink>,
    onerror: Option<CallbackId>,
    onprogress: Option<ProgressSink>,
    ui: Option<ObjectId>,
    fs: Option<ObjectId>,
    sdl: Option<map<string, SdlValue>>,
    onready: Option<CallbackId>,
    instantiateWasm: Option<CallbackId>,
    instance: Option<ObjectId>,
    trace: seq<Event>,
    nextObject: ObjectId)

  datatype Step = Step(state: ModState, outcome: Outcome)

  /** The state right after `new DosModule(canvas, onready)`: every option unset. */
  function Initial(canvas: bool, onready: Option<CallbackId>): (s: ModState)
    ensures !s.isValid && s.trace == [] && s.ui.None? && s.fs.None?
    ensures s.canvas == canvas && s.onready == onready
  {
    ModState(false, canvas, None, None, None, None, None, None, None, onready, None, None, [], 0)
  }

  /** JavaScript's `!url` for a string field: unset or empty. */
  predicate Falsy(url: Option<string>) {
    url.None? || url.value == ""
  }

  function Emit(s: ModState, e: Event): ModState {
    s.(trace := s.trace + [e])
  }

  /** Constructs a new opaque object of the given kind; returns the state and its identity. */
  function Construct(s: ModState, kind: ObjectKind): (r: (ModState, ObjectId))
    ensures r.1 == s.nextObject && r.0.nextObject == s.nextObject + 1
    ensures r.0 == s.(trace := s.trace + [Created(kind, r.1)], nextObject := r.0.nextObject)
  {
    (s.(trace := s.trace + [Created(kind, s.nextObject)], nextObject := s.nextObject + 1), s.nextObject)
  }

  /** `this.log(line)`: throws when no log sink is set. */
  function CallLog(s: ModState, line: string): (r: Step)
    ensures r.outcome.Returned? <==> s.log.Some?
    ensures s.log.None? ==> r.state == s
    ensures s.log.Some? ==> r.state.trace == s.trace + [Logged(s.log.value, line)]
  {
    match s.log
    case None => Step(s, TypeError("log"))
    case Some(sink) => Step(Emit(s, Logged(sink, line)), Returned)
  }

  /** `debug`, `info`, `warn` and `error`: forward the prefixed message to the log sink. */
  function LogStep(s: ModState, sev: Severity, message: string): (r: Step)
    ensures s.trace <= r.state.trace
    ensures |r.state.trace| == |s.trace| + (if s.log.Some? then 1 else 0)
  {
    CallLog(s, Prefix(sev) + message)
  }

  /** `ondosbox`: logs, keeps `instantiateWasm` and constructs the DOSBox instance. */
  function OnDosboxStep(s: ModState, wasm: CallbackId): (r: Step)
    ensures r.outcome.Returned? <==> s.log.Some?
    ensures r.outcome.Returned? ==> r.state.instance == Some(s.nextObject) && r.state.instantiateWasm == Some(wasm)
    ensures r.outcome.TypeError? ==> r.state == s
  {
    var logged := LogStep(s, Info, DOSBOX_RESOLVED);
    if logged.outcome.TypeError? then logged
    else
      var (s1, id) := Construct(logged.state.(instantiateWasm := Some(wasm)), Runtime);
      Step(s1.(instance := Some(id)), Returned)
  }

  /**
   * The evidently intended `SDL.defaults` table, with the width key spelt
   * `width`. The source spells it `widht` (see `SdlDefaultsAsWritten`).
   */
  function SdlDefaults(): (t: map<string, SdlValue>)
    ensures "width" in t && t["width"] == IntValue(320)
    ensures "height" in t && t["height"] == IntValue(200)
    ensures "copyOnLock" in t && t["copyOnLock"] == BoolValue(false)
    ensures "discardOnLock" in t && t["discardOnLock"] == BoolValue(true)
    ensures "opaqueFrontBuffer" in t && t["opaqueFrontBuffer"] == BoolValue(false)
    ensures "widht" !in t
  {
    map[
      "width" := IntValue(320),
      "height" := IntValue(200),
      "copyOnLock" := BoolValue(false),
      "discardOnLock" := BoolValue(true),
      "opaqueFrontBuffer" := BoolValue(false)]
  }

  /** The table `resolve()` installs as `SDL.defaults`, exactly as written at js-dos-module.ts:80-86. */
  function SdlDefaultsAsWritten(): (t: map<string, SdlValue>)
    ensures t.Keys == {"widht", "height", "copyOnLock", "discardOnLock", "opaqueFrontBuffer"}
    ensures t["widht"] == IntValue(320) && t["height"] == IntValue(200)
    ensures t["copyOnLock"] == BoolValue(false) && t["discardOnLock"] == BoolValue(true)
    ensures t["opaqueFrontBuffer"] == BoolValue(false)
  {
    map[
      "widht" := IntValue(320),
      "height" := IntValue(200),
      "copyOnLock" := BoolValue(false),
      "discardOnLock" := BoolValue(true),
      "opaqueFrontBuffer" := BoolValue(false)]
  }

  /** `resolve()`, first step: an unset or empty URL becomes the built-in one. */
  function DefaultUrl(s: ModState): (r: ModState)
    ensures !Falsy(r.wdosboxUrl) && r == s.(wdosboxUrl := r.wdosboxUrl)
  {
    if Falsy(s.wdosboxUrl) then s.(wdosboxUrl := Some(DEFAULT_WDOSBOX_URL)) else s
  }

  /** `resolve()`, second step: an unset log sink becomes the console forwarder. */
  function DefaultLog(s: ModState): (r: ModState)
    ensures r.log.Some? && r == s.(log := r.log)
  {
    if s.log.None? then s.(log := Some(ConsoleSink)) else s
  }

  /** `resolve()`, after the canvas check: an unset progress callback forwards to a new indicator. */
  function DefaultProgress(s: ModState): (r: ModState)
    ensures r.onprogress.Some?
    ensures s.onprogress.Some? ==> r == s
  {
    if s.onprogress.None? then
      var (t, id) := Construct(s, Ui);
      t.(ui := Some(id), onprogress := Some(UiForwarder))
    else s
  }

  /**
   * `resolve()`: defaults the URL and the log sink, then requires a canvas
   * (reporting its absence through `onerror` and returning), then defaults the
   * progress callback, installs the SDL defaults and sets `isValid`.
   */
  function ResolveStep(s: ModState): (r: Step)
    ensures !Falsy(r.state.wdosboxUrl) && r.state.log.Some?
    ensures s.trace <= r.state.trace
    ensures r.state.isValid <==> s.isValid || s.canvas
    ensures r.outcome.TypeError? <==> !s.canvas && s.onerror.None?
    ensures r.state.canvas == s.canvas && r.state.onready == s.onready && r.state.fs == s.fs
    ensures r.state.onerror == s.onerror && r.state.instance == s.instance
    ensures r.state.instantiateWasm == s.instantiateWasm
  {
    CheckCanvas(DefaultLog(DefaultUrl(s)))
  }

  /** `resolve()` from the canvas check on, once the URL and the log sink are in place. */
  function CheckCanvas(s2: ModState): (r: Step)
    ensures r.state.isValid <==> s2.isValid || s2.canvas
    ensures s2.trace <= r.state.trace
  {
    if !s2.canvas then
      match s2.onerror
      case None => Step(s2, TypeError("onerror"))
      case Some(h) => Step(Emit(s2, ErrorReported(h, CANVAS_MISSING)), Returned)
    else
      Step(DefaultProgress(s2).(sdl := Some(SdlDefaultsAsWritten()), isValid := true), Returned)
  }

  /**
   * A call of `this.onprogress(stage, total, loaded)`. The default forwarder
   * reads `this.ui` when it is called, so it throws once `ui` has been cleared.
   */
  function ProgressStep(s: ModState, stage: string, total: int, loaded: int): (r: Step)
    ensures r.state == s.(trace := r.state.trace)
    ensures s.trace <= r.state.trace && |r.state.trace| <= |s.trace| + 1
    ensures r.outcome.Returned? <==> (s.onprogress.Some? && (s.onprogress.value.UiForwarder? ==> s.ui.Some?))
  {
    match s.onprogress
    case None => Step(s, TypeError("onprogress"))
    case Some(HostProgress(h)) => Step(Emit(s, ProgressDelivered(h, stage, total, loaded)), Returned)
    case Some(UiForwarder) =>
      match s.ui
      case None => Step(s, TypeError("ui.onprogress"))
      case Some(u) => Step(Emit(s, ProgressShown(u, stage, total, loaded)), Returned)
  }

  /** `args.unshift("-c", "mount c .", "-c", "c:")`. */
  function MountArgs(args: seq<string>): (r: seq<string>)
    ensures |r| == |args| + 4
    ensures r[0] == "-c" && r[1] == "mount c ." && r[2] == "-c" && r[3] == "c:"
    ensures forall i :: 0 <= i < |args| ==> r[i + 4] == args[i]
  {
    MOUNT_PREFIX + args
  }

  /**
   * The `main` function handed to `onready`, applied to `args`: detaches and
   * clears the indicator, then calls `callMain` with the mounted arguments.
   * The new content of `args` itself is `MountArgs(args)`.
   */
  function MainStep(s: ModState, args: seq<string>): (r: Step)
    ensures r.outcome.Returned? && r.state.ui.None?
    ensures |r.state.trace| > 0 && r.state.trace[|r.state.trace| - 1] == MainCalled(MountArgs(args))
    ensures s.trace <= r.state.trace
  {
    var s1 := if s.ui.Some? then Emit(s, Detached(s.ui.value)).(ui := None) else s;
    Step(Emit(s1, MainCalled(MountArgs(args))), Returned)
  }

  /** `onRuntimeInitialized()`: constructs a new `DosFS` and calls `onready`. */
  function InitStep(s: ModState): (r: Step)
    ensures r.state.fs == Some(s.nextObject) && r.state.nextObject == s.nextObject + 1
    ensures r.outcome.Returned? <==> s.onready.Some?
    ensures s.onready.Some? ==> r.state.trace == s.trace + [Created(Fs, s.nextObject), ReadyDelivered(s.onready.value, s.nextObject)]
    ensures s.onready.None? ==> r.state.trace == s.trace + [Created(Fs, s.nextObject)]
    ensures r.state == s.(fs := r.state.fs, trace := r.state.trace, nextObject := r.state.nextObject)
  {
    var (s1, id) := Construct(s, Fs);
    var s2 := s1.(fs := Some(id));
    match s2.onready
    case None => Step(s2, TypeError("onready"))
    case Some(h) => Step(Emit(s2, ReadyDelivered(h, id)), Returned)
  }

  /** One call into the module by its host or by the emscripten runtime. */
  datatype Op =
    | Log(sev: Severity, message: string)
    | OnDosbox(wasm: CallbackId)
    | Resolve
    | Progress(stage: string, total: int, loaded: int)
    | RuntimeInitialized
    | CallMainFn(args: seq<string>)

  function Apply(s: ModState, op: Op): (r: Step)
    ensures s.trace <= r.state.trace
    ensures r.state.onready == s.onready && r.state.canvas == s.canvas
  {
    match op
    case Log(sev, m) => LogStep(s, sev, m)
    case OnDosbox(w) => OnDosboxStep(s, w)
    case Resolve => ResolveStep(s)
    case Progress(st, t, l) => ProgressStep(s, st, t, l)
    case RuntimeInitialized => InitStep(s)
    case CallMainFn(a) => MainStep(s, a)
  }

  /** The state after a sequence of calls; a call that throws does not stop later ones. */
  function Run(s: ModState, ops: seq<Op>): (r: ModState)
    ensures s.trace <= r.trace
    ensures r.onready == s.onready && r.canvas == s.canvas
    decreases |ops|
  {
    if ops == [] then s else Run(Apply(s, ops[0]).state, ops[1..])
  }
}
