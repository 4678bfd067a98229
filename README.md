# Puppet Tray: status poll and popup window, modelled in Dafny

Puppet Tray is an Electron tray application for Windows. Once a minute it
reads the Puppet agent's `last_run_summary.yaml` and sets the tray icon:
complete (synced), failing or pending. Clicking the tray icon shows, hides
or drops a popup window that displays the last summary.

This project models the two pieces of logic in `index.js`:

- **The status poll** (`menubar.getStats`). The input is what reading and
  parsing the file gave: a document, or the exception raised
  (`Stats.Load`).
  - The document's `time` and `resources` blocks and each of the six
    counters may be missing.
  - `Stats.Classify` chooses the icon index and the status word using
    JavaScript truthiness.
  - `Stats.ReadDocument` models the property accesses that throw a
    `TypeError` when the document or a block is missing.
  - `Stats.Caught` models the `catch` block: a message starting with
    `ENOENT:` gives the file-not-found summary, anything else gives the
    generic error summary.
  - `Stats.Poll` is the whole call as a function.
  - `Menubar.Menubar.GetStats` is the call as an imperative method. It
    updates `this.yaml`, `this.summary`, `global.summary` (the field
    `published`) and the tray image.
- **The window state machine** (`clicked`, `showWindow`, `createWindow` and
  its blur handler, `hideWindow`, `windowClear`, `emitBlur`).
  - These are methods of the class `Menubar.Menubar`. Its state is the
    window reference (`window`, present or absent) and the log of emitted
    events (`events`).
  - Every method keeps the invariant `Valid()`: a window is held exactly
    when the last `'create-window'`/`'after-close'` event in the log is
    `'create-window'`.
  - Position selection is in `Popup.EffectiveTrayPos`,
    `Popup.PositionName` and `Popup.Placement`.
  - `positioner.calculate` is an uninterpreted function passed in as a
    parameter (`Menubar.Calculate`).

Modules: `Js` (JavaScript optional values, truthiness, `indexOf`,
`substr`), `Stats` (the poll), `Popup` (events, bounds, positions),
`Menubar` (options and the class).

Where the code differs from what a reader might expect, the model follows
the code:

- A missing `time` or `resources` block is not read as zeros. The property
  access throws, and the poll ends on the failing icon with the
  `TypeError` message as its error.
- Missing counters are copied into the summary as-is (`undefined`). They
  are not set to 0.
- The test is truthiness, not `> 0`. A negative counter counts as set
  (`Stats.NegativeCounterIsPending`).
- A missing file is recognised by the message prefix `ENOENT:`, not by an
  error code.
- Every poll sets the icon. No "state changed" flag is computed.
- An error summary has no `status` field. The `'failing'` status assigned in
  the `catch` block is never published. `this.summary` keeps the last
  successful report.
- In `showWindow` the variable `cachedBounds` is a fresh local on every
  call, so the "use the cached bounds" branch never runs. Bounds are not
  cached between calls.
- When a click has no modifier key and no bounds, and no window is held, `clicked` evaluates
  `bounds || cachedBounds` while `cachedBounds` is not yet initialised,
  which throws a `ReferenceError`. `Clicked` returns `thrown = true` and
  changes nothing.

## Model

| member | source | states |
|---|---|---|
| `Js.IndexOf` | index.js:218 | the result is -1 or a position at or after `from` where the pattern occurs; no earlier occurrence exists; -1 means no occurrence at all |
| `Js.IndexOfZero` | index.js:218 | `indexOf(p) === 0` holds exactly when the string starts with `p` |
| `Js.Substr` | index.js:82 | `substr(start, length)` returns at most `length` characters, taken from `start`; exactly `length` when the string is long enough |
| `Js.SubstrPrefix` | index.js:82 | `substr(0, 4) === 'tray'` is the same test as "starts with `tray`" |
| `Stats.Classify` | index.js:197-207 | icon 2 ("pending") exactly when one of changed, out_of_sync, skipped, scheduled is truthy; icon 1 ("failing") exactly when none is and failed is; icon 0 ("synced") otherwise; the status word always matches the icon |
| `Stats.UndefinedPropertyMessage` | index.js:182-188 | the `TypeError` message for reading a property of `undefined` is non-empty and does not start with `ENOENT:` |
| `Stats.ReadDocument` | index.js:181-195 | the accesses succeed exactly when the document, its `time` and its `resources` are all present; on success the resources are the document's and the timestamp is `last_run * 1000` (invalid when `last_run` is missing); otherwise a `TypeError` that is not a file-not-found error |
| `Stats.Caught` | index.js:214-229 | the failing icon on every error; the file-not-found summary exactly when the message is truthy and starts with `ENOENT:`, with the error text naming the status file; otherwise the error is the message, or the thrown value when the message is missing or empty |
| `Stats.Poll` | index.js:175-234 | the icon index is 0, 1 or 2 and the published icon is `icons[item]`; a report is published exactly when loading succeeded and no access threw; the report's resources are the document's, verbatim, and its time is the one `ReadDocument` read; every other outcome is icon 1; a thrown load goes through the `catch` block unchanged; `this.yaml` is assigned exactly when loading succeeded |
| `Stats.PendingIgnoresFailed` | index.js:198-200 | when a pending counter is truthy, the result is "pending" whatever `failed` holds |
| `Stats.ClassifyDependsOnTruthiness` | index.js:198-207 | two documents whose five tested counters have the same truthiness get the same icon and status; `total` plays no part |
| `Stats.ClassifyMatchesPositiveRule` | index.js:198-207 | for missing or nonnegative counters, the truthiness test picks the same icon as a `> 0` test |
| `Stats.NegativeCounterIsPending` | index.js:198-200 | `changed = -1` with everything else 0 is "pending", where a `> 0` test would say "synced" |
| `Stats.NoReportMeansFailing` | index.js:181-188 | a missing document, or a document lacking `time` or `resources`, ends on the failing icon, without the file-not-found flag |
| `Stats.ChangedRunIsPending` | index.js:181-210 | a run with `changed: 3` of 10 resources publishes a report with icon 2, status "pending", the counters as given and `last_run * 1000` as its time |
| `Stats.FailedAndCleanRuns` | index.js:198-207 | `failed: 2` with the pending counters 0 is "failing"; all counters 0 is "synced" |
| `Stats.MissingFileNamesPath` | index.js:218-221 | an `ENOENT:` error gives icon 1, the file-not-found flag, and an error text containing the status file's path |
| `Popup.LastLifecycle` | index.js:98-135 | the last `'create-window'` or `'after-close'` event of a log; `None` when the log has neither |
| `Popup.LastLifecycleAppend` | index.js:98-135 | for an extended log, the newer events decide the last lifecycle event when they contain one; otherwise the older log does |
| `Popup.EffectiveTrayPos` | index.js:67-78 | the bounds passed in are kept when present with x other than 0; otherwise the tray's `getBounds()` replaces them when the tray has that method; the result is missing only when both are missing |
| `Popup.PositionName` | index.js:80-86 | with missing bounds or bounds at x = 0 and a window position starting with `tray`: `bottomRight` on win32, `topRight` elsewhere; in every other case the configured window position |
| `Popup.Placement` | index.js:88-89 | a defined `opts.x` or `opts.y` replaces the computed coordinate; otherwise the positioner's coordinate is used |
| `Popup.FallbackOnlyForTrayPositions` | index.js:82-84 | a window position that does not start with `tray` is never replaced |
| `Popup.PositionNameRange` | index.js:81-86 | the name given to the positioner is the configured position, `bottomRight` or `topRight` |
| `Menubar.DefaultOptions` | index.js:27-41 | the default window position starts with `tray`; no explicit coordinates; always-on-top only in dev mode; the status file path depends on dev mode |
| `Menubar.Shown` | index.js:61-93 | the window after `showWindow` is visible and placed |
| `Menubar.Hidden` | index.js:123-128 | hiding keeps the window reference and its position and makes it invisible; without a window there is nothing to hide |
| `Menubar.Menubar.constructor` | index.js:25-41 | a fresh menubar holds no window, has emitted nothing and has no poll results |
| `Menubar.Menubar.Clicked` | index.js:44-58 | with a modifier key: 'hiding-window', then hide, and the window is kept; else with a window: 'clear-window' and 'after-close', and the window is dropped; else with bounds: the window is created and shown, with the four events in order; else a `ReferenceError` is thrown and nothing changes |
| `Menubar.Menubar.ShowWindow` | index.js:61-94 | creates the window only if none is held; the window is visible at the position computed from the current bounds alone; emits 'showing-window' and 'after-show' |
| `Menubar.Menubar.CreateWindow` | index.js:97-120 | takes a new hidden, unplaced window and emits 'create-window' and 'after-create-window' |
| `Menubar.Menubar.OnBlur` | index.js:109-111 | with always-on-top: emits 'focus-lost' and keeps the window; otherwise drops the window |
| `Menubar.Menubar.HideWindow` | index.js:123-129 | a no-op without a window; otherwise hides it without dropping it and emits 'hide' and 'after-hide' |
| `Menubar.Menubar.WindowClear` | index.js:132-135 | the window reference is dropped and 'after-close' is emitted, whether or not a window was held |
| `Menubar.Menubar.EmitBlur` | index.js:138-140 | emits 'focus-lost' and changes nothing else |
| `Menubar.Menubar.GetStats` | index.js:175-234 | the new `this.yaml`, `this.summary`, `global.summary` and tray image are those `Poll` gives; `this.yaml` and `this.summary` keep their old values where the poll does not reach their assignment |

## Left out

- The Electron wiring is not modelled: `app` ready handling, `Tray`, `BrowserWindow` options, `setVisibleOnAllWorkspaces`, `loadURL`, the dock, the tooltip and the choice of click event (index.js:143-172). None of it changes the modelled state.
- Reading the file (`fs.readFileSync`) and parsing it (`yaml.safeLoad`) are foreign code. Their result, or the exception they raise, is the input `Stats.Load`.
- `new Date(...).toLocaleString()` depends on the locale and time zone. `Stats.LastRun` keeps only the instant in milliseconds.
- The `setInterval` polling is timer-driven. One call of `getStats` is the modelled unit.
- `electron-positioner` is foreign code: `calculate` is a parameter and the `positioner` field is not kept. `extend`, `path` and `minimist` are not modelled either: `Menubar.DefaultOptions` takes the icon paths and the dev-mode flag as given.
- The console-logging event listeners and the `'file-set'` event (index.js:157, 236-245) have no logic.
- `null` and `undefined` are not told apart. A counter that is `null` in the file is modelled as missing.
- Counters are integers or missing. Strings, floats and booleans in those fields are not modelled.
- `Stats.UndefinedPropertyMessage`: the wording is a recent V8 one. The wording varies between engines and versions, and the behaviour only needs the message to be non-empty and not to start with `ENOENT:`.
- The native window behind `this.window` is not modelled. `windowClear` drops only the reference, and a window dropped this way can still fire its blur and close handlers later. So `OnBlur` and `WindowClear` may be called at any time, whether or not a window is held.
- `Js.IndexOf`: for an empty pattern with `from` past the end it returns -1, where JavaScript returns the string's length. The code only searches from 0.
- `Js.Substr`: only a non-negative start is modelled. The code only calls it with start 0.
