# js-dos `DosModule` in Dafny

js-dos runs DOSBox, compiled to WebAssembly by emscripten, in a web page. The
`DosModule` class in `js-dos-ts/js-dos-module.ts` is the emscripten module
object that js-dos configures and hands to the runtime. It does four things:

- it gives logging helpers that prefix a message and pass it to a `log` sink;
- `resolve()` checks and defaults its configuration;
- `ondosbox` builds the DOSBox instance;
- `onRuntimeInitialized` builds the file system facade and calls the page's
  `onready` with `{fs, main}`. `main(args)` mounts drive C:, starts DOSBox and
  removes the built-in progress indicator.

This project models that class and proves what each operation does to it.

- `wrappers.dfy`: `Option`, used for every field or callback the page may leave unset.
- `dos_state.dfy` (module `DosState`): the module's fields as a value
  (`ModState`), and one function per operation that gives the new state and
  whether the call threw. Every call the module makes out of itself goes into
  `trace`: the log sink, `onerror`, `onready`, `callMain`, the constructors of
  `DosUi`, `DosFS` and the DOSBox instance, `ui.detach()`, the default
  forwarder's `ui.onprogress(...)` and a page's own `onprogress`. The objects
  these constructors build are opaque identities, drawn from the counter
  `nextObject`. A page's callbacks are `CallbackId`s. The log sink and the
  progress callback record whether the page supplied them or the module
  installed its own default. A present canvas is a flag.
- `dos_module.dfy` (module `JsDosModule`): the class `DosModule` with the
  source's fields. Its methods change those fields step by step, as the
  TypeScript does. Each method ensures that its new state (`State()`) and its
  outcome are what the matching `DosState` function gives for the old state.
  `ArgList` is the caller's JavaScript array, which `main` changes in place.
  `resolve()` is split into helper methods, one per block of source lines
  (57-64, 66-69, 71-74), to keep each proof small.
- `dos_properties.dfy` (module `DosProperties`): the properties. These cover
  what `resolve()` defaults and what it leaves alone, what the log helpers
  append, and what `main` does to its arguments and to the indicator. They
  also cover sequences of calls (`Run`). One delivery to `onready` happens per
  `onRuntimeInitialized`. Once `main` has run, the indicator gets no more
  calls. Every object handed out is fresh, from a new module on.
  `JsDosModule.PageLifecycle` is an example of how a page drives the module:
  construct, resolve, initialise, then call `main`.

In JavaScript, calling a callback that is not set throws a `TypeError`. The
model records that as `Outcome.TypeError`, and the state stays as it was at
the call that threw. This happens in five places: a log helper (or `ondosbox`, which logs) with no
`log` sink; `resolve()` without a canvas and without `onerror`;
`onRuntimeInitialized` without `onready`; a call of `onprogress` while it is
unset; and the default progress forwarder after `main` has cleared `ui`. `resolve()` tests whether `wdosboxUrl` is set
with `!this.wdosboxUrl`, which is also true for the empty string, so `""` is
replaced by the default as well.

A reader might expect `onready` to be called only once per module. The code
has no guard against a second `onRuntimeInitialized`. The model
follows the code: `ReadyOncePerInit` proves one delivery per call, and
`InitDeliversFreshFs` with `RunFromInitialKeepsWf` that each delivery carries a
new file system.

## Model

| member | source | states |
|---|---|---|
| `JsDosModule.DosModule.constructor` | js-dos-ts/js-dos-module.ts:11-23 | a new module keeps the canvas and `onready` it is given; it is not valid and has no options, no indicator and no file system |
| `DosState.Initial` | js-dos-ts/js-dos-module.ts:11-23 | the state after construction: not valid, empty trace, no indicator, no file system, the given canvas and `onready` |
| `JsDosModule.DosModule.NewObject` | js-dos-ts/js-dos-module.ts:72 | constructing an opaque object gives it the next unused identity and records the construction |
| `DosState.Construct` | js-dos-ts/js-dos-module.ts:72 | the identity handed out is the old counter, which then goes up by one; only the trace and the counter change |
| `JsDosModule.DosModule.Log` | js-dos-ts/js-dos-module.ts:29 | `this.log(line)` appends the line to the sink when one is set and throws otherwise |
| `DosState.CallLog` | js-dos-ts/js-dos-module.ts:29 | it returns normally exactly when a sink is set; then the trace grows by that one line, and otherwise the state is unchanged |
| `JsDosModule.DosModule.Debug` | js-dos-ts/js-dos-module.ts:28-30 | `debug(m)` appends `"[DEBUG] " + m` to the log and nothing else |
| `JsDosModule.DosModule.Info` | js-dos-ts/js-dos-module.ts:32-34 | `info(m)` appends `"[INFO] " + m` to the log and nothing else |
| `JsDosModule.DosModule.Warn` | js-dos-ts/js-dos-module.ts:36-38 | `warn(m)` appends `"[WARN] " + m` to the log and nothing else |
| `JsDosModule.DosModule.Error` | js-dos-ts/js-dos-module.ts:40-42 | `error(m)` appends `"[ERROR] " + m` to the log and nothing else |
| `DosState.LogStep` | js-dos-ts/js-dos-module.ts:28-42 | a log helper extends the trace by exactly one entry when a sink is set and by none otherwise |
| `DosProperties.LogAppendsOne` | js-dos-ts/js-dos-module.ts:28-42 | with a sink, the new state is the old one plus the one prefixed line; without, the state is unchanged and the call throws |
| `DosState.Prefix` | js-dos-ts/js-dos-module.ts:29-41 | each prefix is a bracketed tag followed by one space |
| `DosProperties.PrefixesDiffer` | js-dos-ts/js-dos-module.ts:29-41 | the four prefixes differ in their second character |
| `DosProperties.LogLineDeterminesMessage` | js-dos-ts/js-dos-module.ts:28-42 | a logged line determines the helper that wrote it and the message it was given |
| `JsDosModule.DosModule.Ondosbox` | js-dos-ts/js-dos-module.ts:45-49 | `ondosbox` logs "DosBox resolved", keeps `instantiateWasm` and records a newly built DOSBox instance; throws before any of that without a sink |
| `DosState.OnDosboxStep` | js-dos-ts/js-dos-module.ts:45-49 | it returns normally exactly when a sink is set, and then the instance is the next identity and `instantiateWasm` the given one; when it throws, nothing changed |
| `JsDosModule.DosModule.DefaultUrlAndLog` | js-dos-ts/js-dos-module.ts:57-64 | the URL and log defaults of `resolve()`, as `DefaultLog(DefaultUrl(...))` gives them |
| `DosState.DefaultUrl` | js-dos-ts/js-dos-module.ts:57-59 | afterwards the URL is set and non-empty, and no other field has changed |
| `DosState.DefaultLog` | js-dos-ts/js-dos-module.ts:61-64 | afterwards a log sink is set, and no other field has changed |
| `JsDosModule.DosModule.ReportMissingCanvas` | js-dos-ts/js-dos-module.ts:66-69 | without a canvas, `onerror` gets the fixed message, or the call throws when `onerror` is unset |
| `JsDosModule.DosModule.InstallIndicator` | js-dos-ts/js-dos-module.ts:71-74 | an unset progress callback becomes a forwarder to a newly constructed indicator |
| `DosState.DefaultProgress` | js-dos-ts/js-dos-module.ts:71-74 | afterwards a progress callback is set, and a page's own callback leaves the state untouched |
| `DosState.SdlDefaults` | js-dos-ts/js-dos-module.ts:79-87 | the evidently intended table: width 320, height 200, copyOnLock false, discardOnLock true, opaqueFrontBuffer false, with the key spelt `width` |
| `DosState.SdlDefaultsAsWritten` | js-dos-ts/js-dos-module.ts:79-87 | the table `resolve()` installs: exactly the keys `widht`, `height`, `copyOnLock`, `discardOnLock` and `opaqueFrontBuffer`, holding 320, 200, false, true and false |
| `DosProperties.SdlAsWrittenMisspellsWidth` | js-dos-ts/js-dos-module.ts:80-86 | the table as written has the key `widht` and no `width`, and otherwise agrees with `SdlDefaults` |
| `DosProperties.ResolveInstallsNoWidth` | js-dos-ts/js-dos-module.ts:79-87 | every `resolve()` with a canvas installs a table with `widht` and without `width`, so not the intended one |
| `JsDosModule.DosModule.Resolve` | js-dos-ts/js-dos-module.ts:56-90 | `resolve()` changes the fields exactly as `ResolveStep` says, early return included |
| `DosState.CheckCanvas` | js-dos-ts/js-dos-module.ts:66-89 | the part of `resolve()` after the log default: the trace only grows (earlier entries are kept), and the module is valid afterwards exactly when it was valid already or has a canvas |
| `DosState.ResolveStep` | js-dos-ts/js-dos-module.ts:56-90 | afterwards the URL and the sink are always set, even on the error path; the module is valid exactly when it was already valid or has a canvas; it throws exactly when both the canvas and `onerror` are missing; the trace only grows; `canvas`, `onready`, `fs`, `onerror`, `instance` and `instantiateWasm` are untouched |
| `DosProperties.ResolveDefaultsUrl` | js-dos-ts/js-dos-module.ts:57-59 | the URL becomes "wdosbox.js" exactly when it was unset or empty; otherwise the page's URL is kept |
| `DosProperties.ResolveDefaultsLog` | js-dos-ts/js-dos-module.ts:61-64 | the console sink is installed exactly when no sink was set, with or without a canvas; a page's sink is kept |
| `DosProperties.ResolveWithoutCanvas` | js-dos-ts/js-dos-module.ts:66-69 | with no canvas, exactly one error report with the fixed message is made, or the call throws without `onerror`; `isValid`, `onprogress`, `ui`, the SDL table and the counter are untouched |
| `DosProperties.ResolveWithCanvas` | js-dos-ts/js-dos-module.ts:71-89 | with a canvas, the module becomes valid with the SDL table as written (`widht`); an unset progress callback becomes the forwarder to a new indicator; a page's callback is kept and then no indicator is built |
| `DosProperties.ValidIffCanvas` | js-dos-ts/js-dos-module.ts:19-23 | on a newly constructed module, `resolve()` leaves `isValid` true exactly when a canvas was given |
| `DosProperties.CanvasOnlyScenario` | js-dos-ts/js-dos-module.ts:56-90 | a module given only a canvas resolves to "wdosbox.js", the console sink, and a forwarder to indicator 0 |
| `DosProperties.ResolveIdempotentWithCanvas` | js-dos-ts/js-dos-module.ts:56-90 | with a canvas, a second `resolve()` changes nothing and returns normally |
| `DosProperties.ResolveReportsEveryTime` | js-dos-ts/js-dos-module.ts:66-69 | without a canvas, each further `resolve()` reports the error again and changes nothing else |
| `JsDosModule.DosModule.Progress` | js-dos-ts/js-dos-module.ts:73 | a call of `onprogress` changes the fields exactly as `ProgressStep` says |
| `DosState.ProgressStep` | js-dos-ts/js-dos-module.ts:73 | only the trace changes, by at most one entry; it returns normally exactly when a callback is set and, for the default forwarder, an indicator exists |
| `DosProperties.ProgressRouting` | js-dos-ts/js-dos-module.ts:73 | the default forwarder passes `(stage, total, loaded)` to the current indicator, and throws once `ui` is null; a page's callback receives the triple itself |
| `JsDosModule.ArgList.constructor` | js-dos-ts/js-dos-module.ts:94 | the caller's argument array holds the given strings |
| `JsDosModule.ArgList.Unshift` | js-dos-ts/js-dos-module.ts:104 | `unshift` puts the items, in order, in front of the elements already there |
| `DosState.MountArgs` | js-dos-ts/js-dos-module.ts:104 | the result is 4 longer, starts with "-c", "mount c .", "-c", "c:", and holds the original arguments after them in order |
| `DosProperties.MountArgsKeepsArgs` | js-dos-ts/js-dos-module.ts:104 | the first four elements are the mount prefix and the rest are exactly the original arguments |
| `DosProperties.MainTwiceMountsTwice` | js-dos-ts/js-dos-module.ts:94-113 | `main` has no guard: calling it again on the same array adds the prefix a second time |
| `JsDosModule.DosModule.CallMain` | js-dos-ts/js-dos-module.ts:107 | `callMain(args)` is observed as one call with those arguments |
| `JsDosModule.DosModule.MainFn` | js-dos-ts/js-dos-module.ts:94-113 | `main(args)` changes the caller's array to `MountArgs` of its old contents, and the module as `MainStep` says |
| `DosState.MainStep` | js-dos-ts/js-dos-module.ts:99-107 | afterwards `ui` is null, the call returns normally, the last event is `callMain` with the mounted arguments, and the trace only grows |
| `DosProperties.MainEffects` | js-dos-ts/js-dos-module.ts:99-107 | `main` detaches the old indicator first when there was one, then calls `callMain` with the mounted arguments; it changes no field but `ui` |
| `DosProperties.IndicatorStaysGone` | js-dos-ts/js-dos-module.ts:73 | with no indicator and a progress callback set, no later sequence of calls builds, detaches or updates an indicator |
| `DosProperties.IndicatorSilentAfterMain` | js-dos-ts/js-dos-module.ts:99-102 | once `main` has run on a resolved module, the indicator gets no more calls, whatever the page and the runtime do next |
| `JsDosModule.DosModule.OnRuntimeInitialized` | js-dos-ts/js-dos-module.ts:93-119 | `onRuntimeInitialized` changes the fields exactly as `InitStep` says |
| `DosState.InitStep` | js-dos-ts/js-dos-module.ts:114-118 | `fs` is a newly built file system; with `onready` set, the trace grows by its construction and one delivery of that `fs` to `onready`; without, the call throws after building it; no other field changes, so `ui` and `onprogress` outlive initialisation |
| `DosState.Apply` | js-dos-ts/js-dos-module.ts:28-119 | any single call only extends the trace and keeps `onready` and the canvas |
| `DosState.Run` | js-dos-ts/js-dos-module.ts:28-119 | any sequence of calls only extends the trace and keeps `onready` and the canvas |
| `DosProperties.ReadyOncePerInit` | js-dos-ts/js-dos-module.ts:114-118 | over any sequence of calls, `onready` is called exactly once per `onRuntimeInitialized`, with no guard against repetition |
| `DosProperties.NoReadyWithoutOnready` | js-dos-ts/js-dos-module.ts:114-118 | without `onready`, no sequence of calls delivers anything: each `onRuntimeInitialized` throws first |
| `DosProperties.RunKeepsWf` | js-dos-ts/js-dos-module.ts:72-118 | every object the state or the trace refers to was handed out earlier by the counter, and the counter never goes back |
| `DosProperties.RunFromInitialKeepsWf` | js-dos-ts/js-dos-module.ts:11-118 | from a newly constructed module, every object referred to after any sequence of calls was handed out by the counter |
| `DosProperties.InitDeliversFreshFs` | js-dos-ts/js-dos-module.ts:114-118 | the file system given to `onready` is one no earlier event refers to |
| `DosProperties.TwoInitsDeliverDistinctFs` | js-dos-ts/js-dos-module.ts:114-118 | two initialisations make two deliveries to the same `onready`, with two different file systems |

## Left out

- The `Promise` that `main` returns, which resolves to a `DosCommandInterface` (lines 108-112). It is an asynchronous call into the runtime. The model observes only the `callMain` call and its arguments.
- What `callMain`, `new dosbox(this)`, `new DosUi(this)`, `new DosFS(this)` and `ui.detach()` do inside. Their classes are not part of this model. Each is an opaque construction or call event. The `dosbox` constructor argument of `ondosbox` is left out, because only its instance is stored.
- Console output and drawing on the canvas. These are I/O. The log is a sequence of lines, and the canvas is a presence flag.
- `js-dos-options.ts` is not part of this model. The `DosOptions` fields (`wdosboxUrl`, `log`, `onerror`, `onprogress`) start unset, as after `super()`. The page assigns them directly, as the public fields allow.
- JavaScript truthiness for callbacks: a set `log`, `onerror` or `onprogress` is taken to be a function. Calling a truthy non-function is left out.
- The page's callbacks (`log`, `onerror`, `onprogress`, `onready`) and the foreign calls (`new dosbox(this)`, `new DosUi(this)`, `new DosFS(this)`, `ui.detach()`, `ui.onprogress(...)` and `callMain`) are taken to return normally. If one of them throws, the exception propagates to the caller and the source stops at that call (for example, lines 47-48 of `ondosbox` do not run when `log` throws, and a failing `new dosbox(this)` leaves `instance` unset). The model always reports `Returned` after such a call.
- The `ci` field (line 13) is never assigned in this file, so it is not modelled.
- The progress numbers are JavaScript numbers. The model takes them as integers, because the module only forwards them.
- The text of a `TypeError` is the engine's own. The model records only the name of the callee that was missing.
- Who calls `onprogress`, `ondosbox` and `onRuntimeInitialized`: the loader and the runtime, which are not part of this model. Any order of these calls is allowed in `Run`.

## Findings

| source | as written | input that shows it | evidently intended | confidence | as-written member | corrected member |
|---|---|---|---|---|---|---|
| js-dos-ts/js-dos-module.ts:81 | the SDL defaults table spells its first key `widht` | any `resolve()` with a canvas: `SDL.defaults` gets no `width` entry, so a reader of `SDL.defaults.width` does not see 320 | the key `width`, next to `height` | high that the key is misspelt; whether emscripten's own default width already matches is not known; not executed | `DosProperties.ResolveInstallsNoWidth` | `DosState.SdlDefaults` |

The modelled `resolve()` installs the table as written (`SdlDefaultsAsWritten`), so every property of `resolve()` holds for the program as it stands. `SdlDefaults` is the intended table. Its entries are stated in its contract, and `SdlAsWrittenMisspellsWidth` shows that the two tables differ only in that one key.
