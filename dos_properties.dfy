/**
 * Properties of the `DosModule` operations, stated over the specification
 * functions of `DosState`: what `resolve()` defaults and what it leaves alone,
 * what the logging helpers append, what `main` does to its arguments and to
 * the progress indicator, and what repeated runtime initialisation delivers.
 */
module DosProperties {
  import opened Wrappers
  import opened DosState

  // ---------------------------------------------------------------- resolve()

  /** The URL is defaulted exactly when it is unset or empty; a host URL is kept. */
  lemma ResolveDefaultsUrl(s: ModState)
    ensures Falsy(s.wdosboxUrl) ==> ResolveStep(s).state.wdosboxUrl == Some(DEFAULT_WDOSBOX_URL)
    ensures !Falsy(s.wdosboxUrl) ==> ResolveStep(s).state.wdosboxUrl == s.wdosboxUrl
  {
  }

  /** The console sink is installed only when no sink is set, whether or not a canvas is present. */
  lemma ResolveDefaultsLog(s: ModState)
    ensures s.log.None? ==> ResolveStep(s).state.log == Some(ConsoleSink)
    ensures s.log.Some? ==> ResolveStep(s).state.log == s.log
  {
  }

  /**
   * Without a canvas, `resolve()` reports through `onerror` exactly once and
   * returns: validity, the progress callback, the indicator and the SDL table
   * are untouched and nothing is constructed. Without an `onerror` the report
   * itself throws.
   */
  lemma ResolveWithoutCanvas(s: ModState)
    requires !s.canvas
    ensures var r := ResolveStep(s).state;
      && r.isValid == s.isValid
      && r.onprogress == s.onprogress && r.ui == s.ui && r.sdl == s.sdl
      && r.nextObject == s.nextObject
    ensures s.onerror.Some? ==>
      ResolveStep(s).outcome == Returned
      && ResolveStep(s).state.trace == s.trace + [ErrorReported(s.onerror.value, CANVAS_MISSING)]
    ensures s.onerror.None? ==>
      ResolveStep(s).outcome == TypeError("onerror") && ResolveStep(s).state.trace == s.trace
  {
  }

  /**
   * With a canvas, `resolve()` makes the module valid and installs the SDL
   * defaults; a missing progress callback is replaced by a forwarder to a
   * newly constructed indicator, while a host callback is kept and no
   * indicator is constructed.
   */
  lemma ResolveWithCanvas(s: ModState)
    requires s.canvas
    ensures var r := ResolveStep(s);
      && r.outcome == Returned && r.state.isValid
      && r.state.sdl == Some(SdlDefaultsAsWritten())
    ensures s.onprogress.None? ==>
      var r := ResolveStep(s).state;
      && r.onprogress == Some(UiForwarder)
      && r.ui == Some(s.nextObject)
      && r.trace == s.trace + [Created(Ui, s.nextObject)]
    ensures s.onprogress.Some? ==>
      var r := ResolveStep(s).state;
      && r.onprogress == s.onprogress && r.ui == s.ui && r.trace == s.trace
      && r.nextObject == s.nextObject
  {
  }

  /** On a newly constructed module, validity after `resolve()` is exactly the presence of the canvas. */
  lemma ValidIffCanvas(canvas: bool, onready: Option<CallbackId>)
    ensures ResolveStep(Initial(canvas, onready)).state.isValid <==> canvas
  {
  }

  /** A module given only a canvas resolves to the built-in URL, the console sink and the built-in indicator. */
  lemma CanvasOnlyScenario(onready: Option<CallbackId>)
    ensures var r := ResolveStep(Initial(true, onready));
      && r.outcome == Returned
      && r.state.isValid
      && r.state.wdosboxUrl == Some("wdosbox.js")
      && r.state.log == Some(ConsoleSink)
      && r.state.onprogress == Some(UiForwarder)
      && r.state.ui == Some(0)
      && r.state.trace == [Created(Ui, 0)]
  {
  }

  /** With a canvas, a second `resolve()` changes nothing: every default is already in place. */
  lemma ResolveIdempotentWithCanvas(s: ModState)
    requires s.canvas
    ensures ResolveStep(ResolveStep(s).state) == Step(ResolveStep(s).state, Returned)
  {
  }

  /** Without a canvas nothing guards against repetition: each `resolve()` reports again. */
  lemma ResolveReportsEveryTime(s: ModState)
    requires !s.canvas && s.onerror.Some?
    ensures var once := ResolveStep(s).state;
      ResolveStep(once).state == once.(trace := once.trace + [ErrorReported(s.onerror.value, CANVAS_MISSING)])
  {
  }

  /**
   * The table as written names its first entry `widht`: a reader of
   * `SDL.defaults.width` finds no 320 there. The intended table `SdlDefaults`
   * spells it `width` and otherwise agrees.
   */
  lemma SdlAsWrittenMisspellsWidth()
    ensures "widht" in SdlDefaultsAsWritten() && "width" !in SdlDefaultsAsWritten()
    ensures SdlDefaultsAsWritten() != SdlDefaults()
    ensures SdlDefaultsAsWritten() - {"widht"} == SdlDefaults() - {"width"}
  {
    assert "width" !in SdlDefaultsAsWritten().Keys;
  }

  /** So every `resolve()` with a canvas leaves `SDL.defaults` without a `width` entry. */
  lemma ResolveInstallsNoWidth(s: ModState)
    requires s.canvas
    ensures var t := ResolveStep(s).state.sdl;
      && t.Some? && "widht" in t.value && "width" !in t.value
      && t.value != SdlDefaults()
  {
    SdlAsWrittenMisspellsWidth();
  }

  // ---------------------------------------------------------------- logging

  /** Each helper appends exactly its prefixed message to the log and changes nothing else. */
  lemma LogAppendsOne(s: ModState, sev: Severity, message: string)
    ensures s.log.Some? ==>
      LogStep(s, sev, message) == Step(s.(trace := s.trace + [Logged(s.log.value, Prefix(sev) + message)]), Returned)
    ensures s.log.None? ==> LogStep(s, sev, message) == Step(s, TypeError("log"))
  {
  }

  /** The four prefixes are told apart by their second character. */
  lemma PrefixesDiffer(a: Severity, b: Severity)
    requires a != b
    ensures Prefix(a)[1] != Prefix(b)[1]
  {
  }

  /** A logged line determines both the severity and the message that produced it. */
  lemma {:induction false} LogLineDeterminesMessage(a: Severity, m: string, b: Severity, n: string)
    requires Prefix(a) + m == Prefix(b) + n
    ensures a == b && m == n
  {
    var line := Prefix(a) + m;
    assert line[1] == Prefix(a)[1] && line[1] == Prefix(b)[1];
    if a != b {
      PrefixesDiffer(a, b);
      assert false;
    }
    assert m == line[|Prefix(a)|..];
    assert n == line[|Prefix(b)|..];
  }

  // ---------------------------------------------------------------- main(args)

  /**
   * `main` detaches the indicator when there is one, clears it and calls
   * `callMain` with the mounted arguments; no other field changes.
   */
  lemma MainEffects(s: ModState, args: seq<string>)
    ensures var r := MainStep(s, args).state;
      r == s.(ui := None, trace := r.trace)
    ensures s.ui.Some? ==>
      MainStep(s, args).state.trace == s.trace + [Detached(s.ui.value), MainCalled(MountArgs(args))]
    ensures s.ui.None? ==>
      MainStep(s, args).state.trace == s.trace + [MainCalled(MountArgs(args))]
  {
  }

  /** The original arguments follow the mount prefix unchanged and in order. */
  lemma MountArgsKeepsArgs(args: seq<string>)
    ensures MountArgs(args)[..4] == MOUNT_PREFIX
    ensures MountArgs(args)[4..] == args
  {
  }

  /** `main` has no one-shot guard: a second call mounts the prefix a second time. */
  lemma MainTwiceMountsTwice(args: seq<string>)
    ensures MountArgs(MountArgs(args)) == MOUNT_PREFIX + MOUNT_PREFIX + args
  {
  }

  // ---------------------------------------------------------------- progress

  /**
   * The default progress callback forwards to the current indicator and
   * throws once `main` has cleared it; a host callback receives the triple.
   */
  lemma ProgressRouting(s: ModState, stage: string, total: int, loaded: int)
    ensures s.onprogress == Some(UiForwarder) && s.ui.Some? ==>
      ProgressStep(s, stage, total, loaded)
        == Step(Emit(s, ProgressShown(s.ui.value, stage, total, loaded)), Returned)
    ensures s.onprogress == Some(UiForwarder) && s.ui.None? ==>
      ProgressStep(s, stage, total, loaded) == Step(s, TypeError("ui.onprogress"))
    ensures s.onprogress.Some? && s.onprogress.value.HostProgress? ==>
      ProgressStep(s, stage, total, loaded)
        == Step(Emit(s, ProgressDelivered(s.onprogress.value.cb, stage, total, loaded)), Returned)
  {
  }

  /** An event that involves the built-in indicator. */
  predicate IndicatorEvent(e: Event) {
    e.ProgressShown? || e.Detached? || (e.Created? && e.kind == Ui)
  }

  /** The state `main` leaves a module in once `resolve()` has set a progress callback. */
  predicate IndicatorGone(s: ModState) {
    s.ui.None? && s.onprogress.Some?
  }

  predicate NoIndicatorEventsFrom(t: seq<Event>, from: nat) {
    forall i :: from <= i < |t| ==> !IndicatorEvent(t[i])
  }

  lemma ResolveKeepsIndicatorGone(s: ModState)
    requires IndicatorGone(s)
    ensures IndicatorGone(ResolveStep(s).state)
    ensures NoIndicatorEventsFrom(ResolveStep(s).state.trace, |s.trace|)
  {
    var r := ResolveStep(s).state;
    assert |r.trace| > |s.trace| ==> r.trace == s.trace + [ErrorReported(s.onerror.value, CANVAS_MISSING)];
  }

  lemma OnDosboxKeepsIndicatorGone(s: ModState, w: CallbackId)
    requires IndicatorGone(s)
    ensures IndicatorGone(OnDosboxStep(s, w).state)
    ensures NoIndicatorEventsFrom(OnDosboxStep(s, w).state.trace, |s.trace|)
  {
  }

  lemma ApplyKeepsIndicatorGone(s: ModState, op: Op)
    requires IndicatorGone(s)
    ensures IndicatorGone(Apply(s, op).state)
    ensures NoIndicatorEventsFrom(Apply(s, op).state.trace, |s.trace|)
  {
    match op
    case Log(sev, m) =>
    case OnDosbox(w) => OnDosboxKeepsIndicatorGone(s, w);
    case Resolve => ResolveKeepsIndicatorGone(s);
    case Progress(st, tot, ld) =>
    case RuntimeInitialized =>
    case CallMainFn(a) =>
  }

  /** Once the indicator is gone, no later call constructs, detaches or updates one. */
  lemma {:induction false} IndicatorStaysGone(s: ModState, ops: seq<Op>)
    requires IndicatorGone(s)
    ensures IndicatorGone(Run(s, ops))
    ensures NoIndicatorEventsFrom(Run(s, ops).trace, |s.trace|)
    decreases |ops|
  {
    if ops != [] {
      var s1 := Apply(s, ops[0]).state;
      ApplyKeepsIndicatorGone(s, ops[0]);
      IndicatorStaysGone(s1, ops[1..]);
      assert Run(s, ops) == Run(s1, ops[1..]);
    }
  }

  /** After `main`, the indicator receives no further calls, whatever the host and runtime do next. */
  lemma {:induction false} IndicatorSilentAfterMain(s: ModState, args: seq<string>, ops: seq<Op>)
    requires s.onprogress.Some?
    ensures var m := MainStep(s, args).state;
      NoIndicatorEventsFrom(Run(m, ops).trace, |m.trace|)
  {
    var m := MainStep(s, args).state;
    assert IndicatorGone(m);
    IndicatorStaysGone(m, ops);
  }

  // ---------------------------------------------------------------- readiness

  /** The number of `onready` deliveries in a trace. */
  function CountReady(t: seq<Event>): nat {
    if t == [] then 0 else CountReady(t[..|t| - 1]) + (if t[|t| - 1].ReadyDelivered? then 1 else 0)
  }

  /** The number of `onRuntimeInitialized` calls in a sequence of calls. */
  function CountInits(ops: seq<Op>): nat {
    if ops == [] then 0 else (if ops[0].RuntimeInitialized? then 1 else 0) + CountInits(ops[1..])
  }

  lemma {:induction false} CountReadyAppend(t: seq<Event>, u: seq<Event>)
    ensures CountReady(t + u) == CountReady(t) + CountReady(u)
    decreases |u|
  {
    if u != [] {
      var u' := u[..|u| - 1];
      assert (t + u)[..|t + u| - 1] == t + u';
      assert u[..|u| - 1] == u';
      CountReadyAppend(t, u');
    } else {
      assert t + u == t;
    }
  }

  /** The deliveries of a trace that grew by `d` are the old ones and those of `d`. */
  lemma ExtendReadyCount(t: seq<Event>, r: seq<Event>, d: seq<Event>)
    requires r == t + d
    ensures CountReady(r) == CountReady(t) + CountReady(d)
  {
    CountReadyAppend(t, d);
  }

  lemma LogReadyCount(s: ModState, sev: Severity, m: string)
    ensures CountReady(LogStep(s, sev, m).state.trace) == CountReady(s.trace)
  {
    if s.log.Some? { ExtendReadyCount(s.trace, LogStep(s, sev, m).state.trace, [Logged(s.log.value, Prefix(sev) + m)]); }
  }

  lemma OnDosboxReadyCount(s: ModState, w: CallbackId)
    ensures CountReady(OnDosboxStep(s, w).state.trace) == CountReady(s.trace)
  {
    if s.log.Some? {
      ExtendReadyCount(s.trace, OnDosboxStep(s, w).state.trace,
        [Logged(s.log.value, Prefix(Info) + DOSBOX_RESOLVED), Created(Runtime, s.nextObject)]);
    }
  }

  lemma ResolveReadyCount(s: ModState)
    ensures CountReady(ResolveStep(s).state.trace) == CountReady(s.trace)
  {
    var r := ResolveStep(s).state;
    if !s.canvas && s.onerror.Some? {
      ExtendReadyCount(s.trace, r.trace, [ErrorReported(s.onerror.value, CANVAS_MISSING)]);
    } else if s.canvas && s.onprogress.None? {
      ExtendReadyCount(s.trace, r.trace, [Created(Ui, s.nextObject)]);
    }
  }

  lemma ProgressReadyCount(s: ModState, st: string, tot: int, ld: int)
    ensures CountReady(ProgressStep(s, st, tot, ld).state.trace) == CountReady(s.trace)
  {
    var r := ProgressStep(s, st, tot, ld).state;
    if |r.trace| > |s.trace| {
      ExtendReadyCount(s.trace, r.trace, [r.trace[|s.trace|]]);
    }
  }

  lemma MainReadyCount(s: ModState, a: seq<string>)
    ensures CountReady(MainStep(s, a).state.trace) == CountReady(s.trace)
  {
    var r := MainStep(s, a).state;
    if s.ui.Some? {
      ExtendReadyCount(s.trace, r.trace, [Detached(s.ui.value), MainCalled(MountArgs(a))]);
    } else {
      ExtendReadyCount(s.trace, r.trace, [MainCalled(MountArgs(a))]);
    }
  }

  lemma InitReadyCount(s: ModState)
    ensures CountReady(InitStep(s).state.trace) == CountReady(s.trace) + (if s.onready.Some? then 1 else 0)
  {
    if s.onready.Some? {
      ExtendReadyCount(s.trace, InitStep(s).state.trace, [Created(Fs, s.nextObject), ReadyDelivered(s.onready.value, s.nextObject)]);
    } else {
      ExtendReadyCount(s.trace, InitStep(s).state.trace, [Created(Fs, s.nextObject)]);
    }
  }

  /** One call adds one delivery when it is `onRuntimeInitialized` and `onready` is set, none otherwise. */
  lemma ApplyReadyCount(s: ModState, op: Op)
    ensures CountReady(Apply(s, op).state.trace)
      == CountReady(s.trace) + (if op.RuntimeInitialized? && s.onready.Some? then 1 else 0)
  {
    match op
    case Log(sev, m) => LogReadyCount(s, sev, m);
    case OnDosbox(w) => OnDosboxReadyCount(s, w);
    case Resolve => ResolveReadyCount(s);
    case Progress(st, tot, ld) => ProgressReadyCount(s, st, tot, ld);
    case RuntimeInitialized => InitReadyCount(s);
    case CallMainFn(a) => MainReadyCount(s, a);
  }

  /**
   * There is no one-shot guard: `onready` is called once for every
   * `onRuntimeInitialized`, however many times the runtime calls it.
   */
  lemma {:induction false} ReadyOncePerInit(s: ModState, ops: seq<Op>)
    requires s.onready.Some?
    ensures CountReady(Run(s, ops).trace) == CountReady(s.trace) + CountInits(ops)
    decreases |ops|
  {
    if ops != [] {
      var s1 := Apply(s, ops[0]).state;
      ApplyReadyCount(s, ops[0]);
      ReadyOncePerInit(s1, ops[1..]);
      assert Run(s, ops) == Run(s1, ops[1..]);
    }
  }

  /**
   * Without `onready`, every `onRuntimeInitialized` throws before delivering,
   * so no sequence of calls makes a delivery.
   */
  lemma {:induction false} NoReadyWithoutOnready(s: ModState, ops: seq<Op>)
    requires s.onready.None?
    ensures CountReady(Run(s, ops).trace) == CountReady(s.trace)
    decreases |ops|
  {
    if ops != [] {
      var s1 := Apply(s, ops[0]).state;
      ApplyReadyCount(s, ops[0]);
      NoReadyWithoutOnready(s1, ops[1..]);
      assert Run(s, ops) == Run(s1, ops[1..]);
    }
  }

  // ---------------------------------------------------------------- fresh objects

  /** The objects an event refers to. */
  function Objects(e: Event): set<ObjectId> {
    match e
    case Created(_, id) => {id}
    case Detached(u) => {u}
    case ProgressShown(u, _, _, _) => {u}
    case ReadyDelivered(_, f) => {f}
    case _ => {}
  }

  predicate Below(o: Option<ObjectId>, n: nat) {
    o.Some? ==> o.value < n
  }

  /** Every object the state or its trace refers to was drawn from the counter. */
  predicate Wf(s: ModState) {
    && Below(s.ui, s.nextObject) && Below(s.fs, s.nextObject) && Below(s.instance, s.nextObject)
    && forall i, o :: 0 <= i < |s.trace| && o in Objects(s.trace[i]) ==> o < s.nextObject
  }

  /** Appending events `d` that refer only to objects below the new counter keeps `Wf`. */
  lemma ExtendKeepsWf(s: ModState, r: ModState, d: seq<Event>)
    requires Wf(s) && s.nextObject <= r.nextObject && r.trace == s.trace + d
    requires Below(r.ui, r.nextObject) && Below(r.fs, r.nextObject) && Below(r.instance, r.nextObject)
    requires forall j, o :: 0 <= j < |d| && o in Objects(d[j]) ==> o < r.nextObject
    ensures Wf(r)
  {
    forall i, o | 0 <= i < |r.trace| && o in Objects(r.trace[i]) ensures o < r.nextObject {
      if i < |s.trace| {
        assert r.trace[i] == s.trace[i];
      } else {
        assert r.trace[i] == d[i - |s.trace|];
      }
    }
  }

  lemma ResolveKeepsWf(s: ModState)
    requires Wf(s)
    ensures Wf(ResolveStep(s).state) && s.nextObject <= ResolveStep(s).state.nextObject
  {
    var r := ResolveStep(s).state;
    if !s.canvas && s.onerror.Some? {
      ExtendKeepsWf(s, r, [ErrorReported(s.onerror.value, CANVAS_MISSING)]);
    } else if s.canvas && s.onprogress.None? {
      ExtendKeepsWf(s, r, [Created(Ui, s.nextObject)]);
    } else {
      ExtendKeepsWf(s, r, []);
    }
  }

  lemma LogKeepsWf(s: ModState, sev: Severity, m: string)
    requires Wf(s)
    ensures Wf(LogStep(s, sev, m).state) && s.nextObject == LogStep(s, sev, m).state.nextObject
  {
    if s.log.Some? {
      ExtendKeepsWf(s, LogStep(s, sev, m).state, [Logged(s.log.value, Prefix(sev) + m)]);
    }
  }

  lemma OnDosboxKeepsWf(s: ModState, w: CallbackId)
    requires Wf(s)
    ensures Wf(OnDosboxStep(s, w).state) && s.nextObject <= OnDosboxStep(s, w).state.nextObject
  {
    if s.log.Some? {
      ExtendKeepsWf(s, OnDosboxStep(s, w).state,
        [Logged(s.log.value, Prefix(Info) + DOSBOX_RESOLVED), Created(Runtime, s.nextObject)]);
    }
  }

  lemma ProgressKeepsWf(s: ModState, st: string, tot: int, ld: int)
    requires Wf(s)
    ensures Wf(ProgressStep(s, st, tot, ld).state) && s.nextObject == ProgressStep(s, st, tot, ld).state.nextObject
  {
    var r := ProgressStep(s, st, tot, ld).state;
    if |r.trace| > |s.trace| {
      ExtendKeepsWf(s, r, [r.trace[|s.trace|]]);
    } else {
      ExtendKeepsWf(s, r, []);
    }
  }

  lemma InitKeepsWf(s: ModState)
    requires Wf(s)
    ensures Wf(InitStep(s).state) && s.nextObject < InitStep(s).state.nextObject
  {
    var r := InitStep(s).state;
    if s.onready.Some? {
      ExtendKeepsWf(s, r, [Created(Fs, s.nextObject), ReadyDelivered(s.onready.value, s.nextObject)]);
    } else {
      ExtendKeepsWf(s, r, [Created(Fs, s.nextObject)]);
    }
  }

  lemma MainKeepsWf(s: ModState, a: seq<string>)
    requires Wf(s)
    ensures Wf(MainStep(s, a).state) && s.nextObject == MainStep(s, a).state.nextObject
  {
    var r := MainStep(s, a).state;
    if s.ui.Some? {
      ExtendKeepsWf(s, r, [Detached(s.ui.value), MainCalled(MountArgs(a))]);
    } else {
      ExtendKeepsWf(s, r, [MainCalled(MountArgs(a))]);
    }
  }

  /** Every call keeps `Wf` and never moves the counter back. */
  lemma ApplyKeepsWf(s: ModState, op: Op)
    requires Wf(s)
    ensures Wf(Apply(s, op).state) && s.nextObject <= Apply(s, op).state.nextObject
  {
    match op
    case Log(sev, m) => LogKeepsWf(s, sev, m);
    case OnDosbox(w) => OnDosboxKeepsWf(s, w);
    case Resolve => ResolveKeepsWf(s);
    case Progress(st, tot, ld) => ProgressKeepsWf(s, st, tot, ld);
    case RuntimeInitialized => InitKeepsWf(s);
    case CallMainFn(a) => MainKeepsWf(s, a);
  }

  lemma {:induction false} RunKeepsWf(s: ModState, ops: seq<Op>)
    requires Wf(s)
    ensures Wf(Run(s, ops)) && s.nextObject <= Run(s, ops).nextObject
    decreases |ops|
  {
    if ops != [] {
      var s1 := Apply(s, ops[0]).state;
      ApplyKeepsWf(s, ops[0]);
      RunKeepsWf(s1, ops[1..]);
      assert Run(s, ops) == Run(s1, ops[1..]);
    }
  }

  /** A new module is well formed, so `Wf` holds after any sequence of calls on it. */
  lemma RunFromInitialKeepsWf(canvas: bool, onready: Option<CallbackId>, ops: seq<Op>)
    ensures Wf(Run(Initial(canvas, onready), ops))
  {
    RunKeepsWf(Initial(canvas, onready), ops);
  }

  /** Each `onRuntimeInitialized` hands `onready` a file system no earlier event refers to. */
  lemma InitDeliversFreshFs(s: ModState)
    requires Wf(s) && s.onready.Some?
    ensures var r := InitStep(s).state;
      && r.fs == Some(s.nextObject)
      && r.trace[|r.trace| - 1] == ReadyDelivered(s.onready.value, s.nextObject)
      && forall i :: 0 <= i < |s.trace| ==> s.nextObject !in Objects(s.trace[i])
  {
  }

  /** Two initialisations deliver two different file systems to the same callback. */
  lemma TwoInitsDeliverDistinctFs(s: ModState)
    requires s.onready.Some?
    ensures var r := InitStep(InitStep(s).state).state;
      && CountReady(r.trace) == CountReady(s.trace) + 2
      && r.trace[|r.trace| - 3] == ReadyDelivered(s.onready.value, s.nextObject)
      && r.trace[|r.trace| - 1] == ReadyDelivered(s.onready.value, s.nextObject + 1)
  {
    var s1 := InitStep(s).state;
    ApplyReadyCount(s, RuntimeInitialized);
    ApplyReadyCount(s1, RuntimeInitialized);
  }
}
