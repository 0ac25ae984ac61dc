# Camera switcher cards: the active-camera selection engine

This project models the selection logic of two dashboard cards for a home-automation
frontend. Each card shows one live camera and switches between cameras according to the
state of motion sensors ("triggers").

- **Camera-switcher card** (`camera-switcher-card.js`, `CameraSwitcherCard`):
  - It scans the configured cameras in order. The **last-listed** camera with a trigger
    reading `"on"` wins.
  - When no trigger is on, it holds the camera that last had motion until `timeout`
    seconds have passed since the last run of `_updateLogic` that saw that motion. It keeps
    at most one re-check timer handle for the end of the hold.
  - After that, and whenever nothing has triggered, it shows the first configured camera.
  - Its visual editor (`CameraSwitcherCardEditor`) edits the camera list: move, remove,
    add, and edit triggers.
- **Motion-camera card** (`motion-camera-card.js`, `MotionCameraCard`):
  - The **first-listed** camera with a trigger reading `"on"` wins. Otherwise the card
    shows the first configured camera. There is no hold time.
  - It has stricter configuration checks, a change filter (`_shouldUpdate`) and two small
    helpers.

Modules:

- `Wrappers` holds `Option` and `Result`.
- `Hass` holds the host's data:
  - entity ids, and state snapshots as maps from entity id to a state value;
  - the configuration as the user wrote it (`RawConfig`, `RawCamera`);
  - a validated camera binding (`Binding`).
- `CameraSwitcher`:
  - validation and the watch list;
  - the scan `LastTriggered`;
  - one run of `_updateLogic` as the function `Step` over the engine fields, and the lemmas
    about it;
  - the class `CameraSwitcherCard`, whose methods are proved to change its fields exactly
    as `Step` says.
- `CameraSwitcherEditor` holds the list edits as functions and the editor class.
- `MotionCamera` holds validation, the scan `FirstTriggered`, and the class
  `MotionCameraCard`.
- `SelectionVariants` compares the two selection rules.

Environment inputs are explicit:

- The clock (`Date.now()`) is the parameter `now`, in milliseconds.
- A pending `setTimeout` is the field `timeoutTimer`, which records when the timer was
  scheduled and its delay.
- The timer's callback is the method `TimerFired(now)`.
- `_render` calls of the motion-camera card are counted in the field `renders`.

Where this description and the code differ, the model follows the code:

- Neither card has priorities or a recency tie-break, although the camera-switcher card's
  registration text (camera-switcher-card.js:548) mentions priority.
- `setConfig` of the camera-switcher card does not cancel a pending timer. It only forgets
  the timer's handle (camera-switcher-card.js:73). A callback scheduled under the previous
  configuration can therefore still fire. `TimerFired` has no precondition on the handle,
  so the model allows this.
- The hold is not measured from the moment motion stops, although the editor's help text
  (camera-switcher-card.js:406) describes it that way. `_updateLogic` stamps
  `_lastMotionTime` only on the runs that see motion (camera-switcher-card.js:126), and the
  hass setter runs it only when a watched entity changes. A trigger that stays "on" for
  `timeout` seconds or longer, with no other run of `_updateLogic` in between (neither a
  watched change nor a re-check timer firing), therefore gets no hold at all when it turns
  off (`NoHoldAfterLongMotion`, `ExtraRunWithMotionRestartsHold`).
- A `timeout` key that is absent defaults to 10 seconds, because of the object spread at
  camera-switcher-card.js:55-61. Only an explicit `null`, `0` or negative value means "revert at once", since
  `cfg.timeout || 0` keeps a negative number (camera-switcher-card.js:141).

## Model

| member | source | states |
|---|---|---|
| `CameraSwitcher.FirstMissingEntity` | camera-switcher-card.js:45-48 | none exactly when every entry has a truthy `camera_entity`; otherwise the index of the first entry lacking one |
| `CameraSwitcher.Validate` | camera-switcher-card.js:40-61 | a missing, non-array or empty `cameras` fails with `NoCameras`; otherwise the first entry lacking `camera_entity` fails with its 1-based number; success exactly when neither happens, installing one binding per entry (non-array `motion_entities` becomes `[]`), `timeout` 10 when absent, and a well-formed configuration |
| `CameraSwitcher.ValidateConfig` | camera-switcher-card.js:40-53 | the emptiness check and the entry-by-entry `map` compute exactly `Validate` |
| `CameraSwitcher.Normalised` | camera-switcher-card.js:49-52 | definition of one installed binding: `motion_entities` kept when it is an array, else `[]`; its properties are stated in `Validate` |
| `CameraSwitcher.InstalledTimeout` | camera-switcher-card.js:55-61 | definition of the timeout after the spread `{timeout: 10, ...config}`: absent gives 10, null stays null; its properties are stated in `Validate` and `NonPositiveTimeoutRevertsAtOnce` |
| `CameraSwitcher.WatchList` | camera-switcher-card.js:63-68 | every binding's camera and triggers are in the watch list; `WatchListIsUnion` proves nothing else is |
| `CameraSwitcher.Step` | camera-switcher-card.js:104-166 | definition of one run of `_updateLogic` on the engine fields; its properties are the lemmas `MotionSelectsLastListedCamera` to `StepKeepsSelectable` below |
| `CameraSwitcher.Fire` | camera-switcher-card.js:150-154 | the timer callback: a timer left afterwards is one it scheduled itself at `now`; `TimerEndsHold` states its effect |
| `CameraSwitcher.MotionFlagTracksTriggers` | camera-switcher-card.js:109-138 | after a run, `_isMotionActive` is true iff some trigger of some camera reads "on" |
| `CameraSwitcher.TimerKeptOrScheduledNow` | camera-switcher-card.js:128-155 | after a run, a timer is either the one that was pending or, when none was, a new one scheduled at `now` |
| `CameraSwitcher.NoHoldAfterLongMotion` | camera-switcher-card.js:122-160 | a run without motion `timeout` or more after the last run with motion shows the first camera and holds nothing |
| `CameraSwitcher.ExtraRunWithMotionRestartsHold` | camera-switcher-card.js:122-160 | with a 10 s timeout and a trigger on from 0 s to 12 s, the camera reverts at once at 12 s, but is held if one more run saw the motion at 8 s |
| `CameraSwitcher.WatchListIsUnion` | camera-switcher-card.js:63-68 | an id is in the watch list iff it is some camera's entity or one of its triggers |
| `CameraSwitcher.LastTriggered` | camera-switcher-card.js:110-120 | the scan finds nothing iff no binding has a trigger reading "on" (absent entities are off); what it finds is the camera of a binding with motion |
| `CameraSwitcher.LastTriggeredIsLastWithMotion` | camera-switcher-card.js:112-120 | the camera found is that of the last-listed binding with motion, whatever precedes it |
| `CameraSwitcher.LastTriggeredReadsOnlyTriggers` | camera-switcher-card.js:112-120 | the scan depends only on whether the bindings' triggers are "on" |
| `CameraSwitcher.MotionSelectsLastListedCamera` | camera-switcher-card.js:112-134 | with motion, the last-listed camera with motion becomes active and last-triggered, the motion time becomes `now`, and a pending timer is dropped iff the active camera changes |
| `CameraSwitcher.NoMotionShowsDefault` | camera-switcher-card.js:161-164 | with no motion and nothing held, the first camera becomes active and nothing else but the motion flag changes |
| `CameraSwitcher.HoldWithinTimeout` | camera-switcher-card.js:139-155 | with no motion and less than `timeout` since the last motion, the held camera stays active; a pending timer is kept, else one is scheduled at `now` for the remaining time plus 100 ms, due 100 ms after the hold ends |
| `CameraSwitcher.RevertAfterTimeout` | camera-switcher-card.js:156-160 | with no motion and at least `timeout` since the last motion, the first camera becomes active and the held camera is forgotten |
| `CameraSwitcher.NonPositiveTimeoutRevertsAtOnce` | camera-switcher-card.js:139-160 | a null, zero or negative timeout reverts to the first camera as soon as no trigger is on, with a clock that does not run backwards |
| `CameraSwitcher.PendingTimerKeptUnlessSwitched` | camera-switcher-card.js:128-134 | a pending timer is never replaced, and it is dropped only when motion makes a different camera active |
| `CameraSwitcher.TimerEndsHold` | camera-switcher-card.js:139-160 | after motion stops, the scheduled timer, firing at or after its due time with still no motion, reverts to the first camera with no host snapshot needed |
| `CameraSwitcher.StepIdempotent` | camera-switcher-card.js:104-166 | a second run on the same snapshot at the same time changes nothing and schedules nothing |
| `CameraSwitcher.UnwatchedChangesIrrelevant` | camera-switcher-card.js:83-97 | two runs of `_updateLogic` at the same time on snapshots that agree on every watched entity reach the same state; this does not compare a run with a skipped one, which differ in when motion was last seen (`ExtraRunWithMotionRestartsHold`) |
| `CameraSwitcher.StepKeepsSelectable` | camera-switcher-card.js:104-166 | the active and the held camera are always configured cameras |
| `CameraSwitcher.CameraSwitcherCard.SetConfig` | camera-switcher-card.js:40-75 | a rejected configuration throws `Validate`'s error and changes nothing; otherwise the configuration is installed, the watch list rebuilt, the first camera active, nothing held, motion time 0, no timer |
| `CameraSwitcher.CameraSwitcherCard.RebuildWatchList` | camera-switcher-card.js:63-68 | the loops over cameras and their triggers build exactly `WatchList` of the installed cameras |
| `CameraSwitcher.CameraSwitcherCard.WatchedEntityChanged` | camera-switcher-card.js:86-93 | true iff some watched entity's state entry differs between the two snapshots |
| `CameraSwitcher.CameraSwitcherCard.SetHass` | camera-switcher-card.js:77-98 | the snapshot is stored; unconfigured, nothing else changes; configured, `_updateLogic` runs iff this is the first snapshot or a watched entry changed |
| `CameraSwitcher.CameraSwitcherCard.ScanForMotion` | camera-switcher-card.js:109-120 | the nested loops find exactly `LastTriggered` and raise the motion flag iff they find a camera |
| `CameraSwitcher.CameraSwitcherCard.RunEngine` | camera-switcher-card.js:106-165 | the scan and the decision branches change the engine fields exactly as `Step` says |
| `CameraSwitcher.CameraSwitcherCard.UpdateLogic` | camera-switcher-card.js:104-166 | the engine fields become `Step` of their old values; configuration and watch list are untouched |
| `CameraSwitcher.CameraSwitcherCard.TimerFired` | camera-switcher-card.js:150-154 | the callback clears the handle and then runs `_updateLogic` |
| `CameraSwitcherEditor.Moved` | camera-switcher-card.js:311-322 | moving keeps length and multiset; with a neighbour in that direction exactly the two entries swap, at the ends the list is unchanged |
| `CameraSwitcherEditor.RemovedAt` | camera-switcher-card.js:324-329 | `splice(k, 1)` shortens the list by one, keeps the order of the rest, and removes exactly one occurrence of entry `k` |
| `CameraSwitcherEditor.MoveUpThenDownRestores` | camera-switcher-card.js:311-322 | moving an entry up and then back down restores the list |
| `CameraSwitcherEditor.RemoveLastUndoesAppend` | camera-switcher-card.js:324-336 | removing the entry just appended restores the list |
| `CameraSwitcherEditor.CameraSwitcherCardEditor.constructor` | camera-switcher-card.js:283-285 | the editor keeps the configuration it is given |
| `CameraSwitcherEditor.CameraSwitcherCardEditor.MoveCamera` | camera-switcher-card.js:311-322 | `cameras` becomes `Moved` of the old list, and at the ends the configuration is left as it was |
| `CameraSwitcherEditor.CameraSwitcherCardEditor.RemoveCamera` | camera-switcher-card.js:324-329 | `cameras` becomes the old list without entry `index`; other keys kept |
| `CameraSwitcherEditor.CameraSwitcherCardEditor.AddCamera` | camera-switcher-card.js:331-336 | `{camera_entity: "", motion_entities: []}` is appended; other keys kept |
| `CameraSwitcherEditor.CameraSwitcherCardEditor.UpdateMotionEntities` | camera-switcher-card.js:345-358 | a null value removes that trigger, any other value replaces it in place; only that camera's triggers change |
| `CameraSwitcherEditor.CameraSwitcherCardEditor.AddMotionEntity` | camera-switcher-card.js:360-367 | an empty trigger is appended to that camera only |
| `CameraSwitcherEditor.CameraSwitcherCardEditor.RemoveMotionEntity` | camera-switcher-card.js:369-371 | the same as updating that trigger with null |
| `MotionCamera.FirstProblem` | motion-camera-card.js:54-61 | no error iff every entry has a `camera_entity` and a non-empty `motion_entities` array |
| `MotionCamera.FirstProblemAt` | motion-camera-card.js:54-61 | the error thrown is that of the first failing entry, `camera_entity` checked before `motion_entities` |
| `MotionCamera.CheckCameras` | motion-camera-card.js:54-61 | the loop computes exactly `FirstProblem` |
| `MotionCamera.ToBindings` | motion-camera-card.js:63 | every installed binding has a camera and at least one trigger |
| `MotionCamera.CameraProblem` | motion-camera-card.js:55-60 | definition of the check on one entry: `camera_entity` first, then a non-empty `motion_entities` array; `FirstProblem` and `FirstProblemAt` state how it is applied |
| `MotionCamera.ValidateAsWritten` | motion-camera-card.js:50-63 | as written: only a missing `cameras` gives `NeedCameras`; otherwise the error is that of the first failing entry, success iff every entry passes, installing the entries' own values |
| `MotionCamera.Validate` | motion-camera-card.js:49-64 | a missing, non-array or empty `cameras` fails with `NeedCameras`; for a non-empty list the error is that of the first failing entry (`FirstProblem`); success iff every entry passes, installing a non-empty list with the entries' own values |
| `MotionCamera.EmptyCameraListAcceptedAsWritten` | motion-camera-card.js:50-64 | as written, `cameras: []` passes the checks; the corrected check rejects it |
| `MotionCamera.CorrectionOnlyRejectsEmptyList` | motion-camera-card.js:50-64 | the corrected check differs from the written one on the empty list only |
| `MotionCamera.FirstTriggered` | motion-camera-card.js:77-91 | none iff no binding has a trigger reading "on"; otherwise the camera of a binding with motion |
| `MotionCamera.FirstTriggeredIsFirstWithMotion` | motion-camera-card.js:77-91 | the camera chosen is that of the first-listed binding with motion, whatever follows it |
| `MotionCamera.Selected` | motion-camera-card.js:77-97 | definition of the shown camera: first with motion, else the first configured one; `FirstTriggeredIsFirstWithMotion` and `SelectedIsConfigured` state its properties |
| `MotionCamera.SelectedIsConfigured` | motion-camera-card.js:72-98 | the selected camera (first with motion, else the first one) is a configured camera |
| `MotionCamera.UnchangedTriggersKeepSelection` | motion-camera-card.js:28-37 | if no trigger's state string changed, both snapshots select the same camera |
| `MotionCamera.FindCamera` | motion-camera-card.js:196 | `find` returns nothing iff no binding has that camera; otherwise a binding of that camera |
| `MotionCamera.FindCameraIsFirst` | motion-camera-card.js:196 | `find` returns the first binding of that camera |
| `MotionCamera.MotionCameraCard.constructor` | motion-camera-card.js:2-9 | nothing configured, no snapshot, no active camera |
| `MotionCamera.MotionCameraCard.SetConfig` | motion-camera-card.js:49-66 | corrected: a rejected configuration throws `Validate`'s error and changes nothing; otherwise it is installed, its first camera active, one render |
| `MotionCamera.MotionCameraCard.SetConfigAsWritten` | motion-camera-card.js:49-66 | as written: with `cameras: []` the empty list is installed and the first-camera read throws, leaving the active camera as it was |
| `MotionCamera.MotionCameraCard.ShouldUpdate` | motion-camera-card.js:23-47 | false without a configuration; otherwise true iff some trigger's state string differs (absent is undefined) or the active camera's state entry differs |
| `MotionCamera.MotionCameraCard.UpdateActiveCamera` | motion-camera-card.js:72-98 | no-op without snapshot or configuration; otherwise the first camera with motion, else the first camera, becomes active, and a render happens iff the active camera changed, so a repeated call renders nothing |
| `MotionCamera.MotionCameraCard.SetHass` | motion-camera-card.js:11-21 | on the first snapshot or a relevant change the active camera is updated; otherwise only a render happens |
| `MotionCamera.MotionCameraCard.IsActiveMotionForCamera` | motion-camera-card.js:195-205 | false for a camera not configured; otherwise whether the first binding of that camera has a trigger reading "on" |
| `MotionCamera.MotionCameraCard.CameraImageUrl` | motion-camera-card.js:207-215 | without a snapshot the empty string; with one, the proxy prefix followed by exactly the entity id |
| `MotionCamera.ImageUrlDeterminesEntity` | motion-camera-card.js:207-215 | with a snapshot, the URL determines the entity id |
| `MotionCamera.MotionIndicatorAgreesWithSelection` | motion-camera-card.js:195-205 | with distinct camera entities, the camera selected for motion shows the motion indicator, and with no motion none does |
| `SelectionVariants.AgreeOnWhetherAnyMotion` | motion-camera-card.js:77-91 | first-match and last-match see motion in exactly the same snapshots |
| `SelectionVariants.AgreeOnSingleMotion` | motion-camera-card.js:77-91 | with motion at exactly one binding both cards pick its camera |
| `SelectionVariants.DisagreeOnTwoMotions` | camera-switcher-card.js:112-120 | with motion at two cameras, the motion-camera card picks the first and the camera-switcher card the last |

## Findings

| source | as written | input that shows it | evidently intended | confidence | as-written member | corrected member |
|---|---|---|---|---|---|---|
| motion-camera-card.js:50-64 | an empty `cameras` array passes the checks and is installed as `_config`; reading `config.cameras[0].camera_entity` then throws a TypeError, so the card keeps a configuration without cameras, and later updates fail at line 94 | `{cameras: []}` | reject the empty list like a missing one ("You need to define cameras") before installing anything, as the camera-switcher card does | medium; not executed | `MotionCamera.MotionCameraCard.SetConfigAsWritten` | `MotionCamera.MotionCameraCard.SetConfig` |

## Left out

- Rendering is not modelled: `render`, `_render`, `_renderCameraContent`, styles, HTML
  templates and the editor's form. The motion-camera card only counts its `_render` calls.
- Host integration is not modelled: `customElements.define`, `window.customCards`,
  `attachShadow`, `requestUpdate` (also the one in the timer callback) and the
  `console.info` banner.
- `_fireConfigChanged` is not modelled, so the editor's edits do not dispatch a
  `config-changed` event in the model.
- `getStubConfig`, `getConfigElement`, `getCardSize`, `_valueChanged` and
  `_updateCameraEntity` are not modelled. They are host-facing constants, event decoding,
  and an edit outside the modelled core.
- Real timers and clocks are replaced: `setTimeout` by the `timeoutTimer` field and
  `TimerFired`, `Date.now()` by the parameter `now`. Nothing makes the timer fire; a caller
  of `TimerFired` stands for that.
- Timeouts are whole seconds. Hold time is compared in integer milliseconds
  (`now - last < timeout * 1000`) instead of the fractional seconds of line 140. Fractional
  and non-numeric timeouts, such as the editor's text field value, are not modelled.
- State entries are compared by value, not by JavaScript object identity
  (camera-switcher-card.js:88, motion-camera-card.js:42).
- Some configuration values are not modelled:
  - non-string truthy `camera_entity` values;
  - `null` entries in `cameras`;
  - a truthy non-array `cameras` in the editor (it would be spread or throw).
  The keys `show_name`, `stretch` and `controls` are carried by the host and ignored here.
- Error messages are not modelled as text. The camera-switcher card's error for an entry
  lacking `camera_entity` carries the 1-based entry number that its message prints.
- `CameraSwitcherEditor.CameraSwitcherCardEditor.MoveCamera`, `RemoveCamera`,
  `UpdateMotionEntities`, `AddMotionEntity` and `RemoveMotionEntity` require indices of
  existing entries. For a missing camera entry the source throws a TypeError
  (camera-switcher-card.js:347, 362). The
  editor's form only passes those. Out-of-range `splice` calls and array writes that would
  leave holes are not modelled.
- `CameraSwitcherEditor.TriggersOf` reads a truthy non-array `motion_entities` as `[]`. The
  source spreads it (camera-switcher-card.js:347, 362): a string becomes its characters,
  another value throws. The editor's form cannot produce such a value, because rendering
  calls `.map` on it first (camera-switcher-card.js:462).
- Priority and recency tie-breaking are not modelled, because neither card implements
  them.
