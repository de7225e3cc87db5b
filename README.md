# Timeline widget: play controls, playhead and scroll sync

A Dafny model of the logic inside a browser timeline panel. The panel has a
ruler, a track list, a keyframe grid, a playhead and two numeric play
controls. Most of the repository is rendering. Four pieces hold exact rules,
and this project models them:

- **The numeric input field** (`number_input.dfy`, module `NumberInput`).
  The commit rule rounds the typed value to the nearest multiple of `step`,
  using `Math.round`'s half-up rule, then clamps it into `[min, max]`. Up and
  down arrows emit one step from the default. These are functions. The field
  itself is the class `NumberInputField`. Its `value` and `isTyping` fields
  change in place, one method per event: change, blur, key-down, click, and a
  re-render with a new `defaultValue`. The value handed to `onChange` is each
  method's `Option<real>` result.
- **The play controls** (`play_controls.dfy`, module `PlayControls`). Two pure
  handlers build the new `{time, duration}` record. The module also holds the
  bounds of the two fields, and lemmas that commits keep
  `0 <= time <= duration` and `100 <= duration <= 6000`.
- **The playhead** (`playhead.dfy`, module `Playhead`). `Resolve` gives the
  position and visibility of the playhead for a ruler scroll. The class
  `PlayheadNode` holds the node's `hidden` class and transform offset, which
  the scroll handler and re-renders update in place. The ruler's scroll
  listener is attached when the node arrives and not on later renders, so it
  uses the time of that render.
- **Scroll synchronisation** (`sync_scroll.dfy`, module `SyncScroll`). The
  scroll offsets of all DOM nodes are one shared `array<ScrollPos>`. A
  `ScrollSyncGroup` holds its connected node indices and the set of nodes on
  which its listener is attached. `HandleScrollInNodes` loops over the group
  and copies the scrolled node's offsets on the group's axes into every other
  node. It is proved against the function `SyncedAll`.

`scenarios.dfy` (module `TimelineScenarios`) replays the repository's test
scenarios as client methods that use only the contracts. Examples: typing
`105.5` then Enter emits `110`; a 3000 ms time is cut to a 2000 ms duration;
scrolling the ruler moves the keyframe list. It also builds the panel's two
scroll groups, which share the keyframe list. `wrappers.dfy` holds the
`Option` type.

Numbers are exact reals. `Math.round(x)` is `(x + 1/2).Floor`. Deferred work
(`setTimeout`, `requestAnimationFrame`) runs atomically right after the
handler that schedules it. So Escape resets the value and then commits it
through its deferred blur. That commit is silent exactly when committing the
default gives the default back (`ValidateDefaultQuietIff`). This holds
whenever the default is a step multiple inside the range, as the tests'
default 0 is (`ValidateCommittedDefaultIsQuiet`).

## Model

| member | source | states |
|---|---|---|
| NumberInput.JsRound | src/components/NumberInputField.tsx:43 | `Math.round` gives the integer r with r - 1/2 <= x < r + 1/2, so a half rounds up |
| NumberInput.JsRoundUnique | src/components/NumberInputField.tsx:43 | any integer that close to x is `Math.round(x)` |
| NumberInput.RoundToStep | src/components/NumberInputField.tsx:42-43 | `Math.round(value/step)*step` lies within half a step of `value`, a tie going to the larger multiple |
| NumberInput.RoundToStepOfMultiple | src/components/NumberInputField.tsx:43 | a multiple of `step` rounds to itself |
| NumberInput.RoundToStepUnique | src/components/NumberInputField.tsx:43 | the rounding is the only multiple of `step` within half a step of `value` (so 105.5 with step 10 gives 110) |
| NumberInput.Clamp | src/components/NumberInputField.tsx:44-49 | a value below `min` becomes `min`, one above `max` becomes `max`, one inside is kept; the result is in `[min, max]` when `min <= max` |
| NumberInput.CommitValue | src/components/NumberInputField.tsx:41-49 | the committed value lies in `[min, max]` when `min <= max`, and within half a step of the typed value when the rounding is in range |
| NumberInput.CommitNegativeIsMin | src/components/NumberInputField.tsx:43-46 | with `0 <= min <= max`, a negative entry commits to `min` |
| NumberInput.CommitOfCommitted | src/components/NumberInputField.tsx:43-49 | a step multiple inside `[min, max]` commits to itself |
| NumberInput.CommitIdempotent | src/components/NumberInputField.tsx:41-49 | when `min` and `max` are step multiples, committing a committed value changes nothing |
| NumberInput.Validate | src/components/NumberInputField.tsx:41-57 | the new value is the committed value; it is written back exactly when it differs from `value`; `onChange` gets it exactly when it differs from `defaultValue` |
| NumberInput.ValidateCommittedDefaultIsQuiet | src/components/NumberInputField.tsx:104-108 | after Escape restores a default that is a step multiple in range, the deferred commit writes nothing and calls nobody |
| NumberInput.ValidateDefaultQuietIff | src/components/NumberInputField.tsx:104-108 | the deferred commit after Escape neither writes nor calls `onChange` exactly when committing `defaultValue` gives `defaultValue` back |
| NumberInput.SecondCommitIsQuiet | src/components/NumberInputField.tsx:51-56 | once the parent adopts a committed value as its default, a second commit neither rewrites nor calls `onChange` |
| NumberInput.ArrowUpValue | src/components/NumberInputField.tsx:89-90 | ArrowUp emits `defaultValue + step`, or `max` when that passes `max`; never above `max` |
| NumberInput.ArrowDownValue | src/components/NumberInputField.tsx:94-95 | ArrowDown emits `defaultValue - step`, or 0 when that is not positive; never below 0 (the floor is 0, not `min`) |
| NumberInput.ArrowUpThenDown | src/components/NumberInputField.tsx:89-97 | up then down, the parent adopting each emitted value, returns to a default in `[0, max - step]` |
| NumberInput.ArrowDownThenUp | src/components/NumberInputField.tsx:89-97 | down then up returns to a default in `(step, max]` |
| NumberInput.NumberInputField.constructor | src/components/NumberInputField.tsx:36-39 | the first render shows `defaultValue` and is not typing |
| NumberInput.NumberInputField.ValidateValueAndOnChange | src/components/NumberInputField.tsx:41-57 | the field's new value and the emitted value are those of `Validate` on the current state |
| NumberInput.NumberInputField.HandleInputChange | src/components/NumberInputField.tsx:59-69 | a change always sets `value`; it forwards the raw number to `onChange` only when not typing |
| NumberInput.NumberInputField.HandleInputBlur | src/components/NumberInputField.tsx:75-79 | blur clears `isTyping` and commits |
| NumberInput.NumberInputField.HandleInputKeyDown | src/components/NumberInputField.tsx:81-111 | Enter and Escape clear `isTyping` and every other key sets it; Enter commits the value; Escape commits `defaultValue`; the arrows emit a step from `defaultValue` and leave `value`; other keys emit nothing |
| NumberInput.NumberInputField.HandleInputClick | src/components/NumberInputField.tsx:113-118 | a click clears `isTyping` |
| NumberInput.NumberInputField.Rerender | src/components/NumberInputField.tsx:120-124 | a changed `defaultValue` prop overwrites `value`; an unchanged one leaves it |
| PlayControls.TimeField | src/Timeline/PlayControls.tsx:53-60 | the time field runs from 0 to the current duration |
| PlayControls.DurationField | src/Timeline/PlayControls.tsx:64-71 | the duration field runs from 100 to 6000 |
| PlayControls.OnTimeChange | src/Timeline/PlayControls.tsx:35-43 | the new time is `newTime` cut down to the duration; the duration is unchanged; `time <= duration` always |
| PlayControls.OnDurationChange | src/Timeline/PlayControls.tsx:25-33 | the new duration is `newDuration`; the time is lowered to it only if it exceeds it; `time <= duration` always |
| PlayControls.HandlersIdempotent | src/Timeline/PlayControls.tsx:25-43 | applying a handler twice with the same input is applying it once |
| PlayControls.DurationCommitKeepsWellFormed | src/Timeline/PlayControls.tsx:16-21 | a committed duration lies in `[100, 6000]` and adopting it keeps `0 <= time <= duration` |
| PlayControls.TimeCommitKeepsWellFormed | src/Timeline/PlayControls.tsx:53-60 | a committed time lies in `[0, duration]`, so the handler takes it uncut |
| PlayControls.DurationArrowDownLeavesRange | src/components/NumberInputField.tsx:94-95 | ArrowDown on a duration of 100 emits 90, below the duration field's minimum |
| PlayControls.ArrowsKeepWellFormed | src/Timeline/PlayControls.tsx:25-43 | both arrows on the time field, and ArrowUp on the duration field, keep the controls well formed |
| PlayControls.Initial | src/Timeline/Timeline.tsx:11-14 | the panel starts at time 0 with duration 2000, a well-formed state |
| Playhead.Resolve | src/Timeline/Playhead.tsx:24-27 | the position is `time - scrollLeft`; the playhead is hidden exactly when that is below -16 or more than `clientWidth - 16` |
| Playhead.VisibleWithinPaddedViewport | src/Timeline/Playhead.tsx:26-27 | a visible playhead sits in `[-16, clientWidth - 16]` |
| Playhead.ResolveTranslationInvariant | src/Timeline/Playhead.tsx:26-27 | moving time and scroll by the same amount changes neither position nor visibility |
| Playhead.VisibleScrollsAreInterval | src/Timeline/Playhead.tsx:26-27 | the scroll offsets that show the playhead form an interval |
| Playhead.PlayheadNode.constructor | src/Timeline/Playhead.tsx:53-59 | the first render places the node at `time`, not hidden, before its ref is set |
| Playhead.PlayheadNode.HandleRefPlayhead | src/Timeline/Playhead.tsx:14-19 | the ref keeps the last non-null node; a new node re-attaches the ruler listener, which captures the current `time` |
| Playhead.PlayheadNode.Render | src/Timeline/Playhead.tsx:58 | a re-render with a new `time` sets the transform from `time` itself and does not re-attach the listener |
| Playhead.PlayheadNode.ResolvePlayheadPosition | src/Timeline/Playhead.tsx:21-35 | with no ruler or no node nothing changes; otherwise the position is the listener's captured time minus `scrollLeft`; when hidden only the hidden flag is set and the transform is kept; when visible the flag is cleared and the transform is the position |
| SyncScroll.SyncedAll | src/hooks/useSyncScroll.ts:31-40 | after a scroll on `s`, every connected node takes `s`'s offset on each synced axis and keeps its own on the others; `s` and unconnected nodes are untouched |
| SyncScroll.EchoScrollIsHarmless | src/hooks/useSyncScroll.ts:31-44 | handling the scroll echoed from any synced node changes nothing more |
| SyncScroll.SyncScrollPosition | src/hooks/useSyncScroll.ts:12-29 | copies `scrollTop` only when vertical and `scrollLeft` only when horizontal; only the sync node changes |
| SyncScroll.ScrollSyncGroup.constructor | src/hooks/useSyncScroll.ts:6-7 | a new group has no connected nodes and no listeners |
| SyncScroll.ScrollSyncGroup.AttachScrollEvents | src/hooks/useSyncScroll.ts:46-48 | the node gets the group's listener |
| SyncScroll.ScrollSyncGroup.RemoveScrollEvents | src/hooks/useSyncScroll.ts:50-52 | the node loses the group's listener |
| SyncScroll.ScrollSyncGroup.RegisterScrollSync | src/hooks/useSyncScroll.ts:54-63 | registering replaces the whole node list; the effect's cleanup and re-attach leave the listener on exactly the new nodes |
| SyncScroll.ScrollSyncGroup.HandleScrollInNodes | src/hooks/useSyncScroll.ts:31-40 | the scroll positions become `SyncedAll` of the old ones; the set of listening nodes is the same before and after |

## Left out

- Floating point: numbers are exact reals. Only `Math.round`'s half-up rule is kept. NaN and infinities are not modelled, so `step` must be positive; a zero step would divide by zero.
- Parsing: `Number(e.target.value)` is not modelled. A change event carries the number directly. An empty input, which the browser parses to 0, is just the change event 0.
- Focus, `select()` and `blur()`: these are DOM calls. The focus handler only selects text, so it has no model. Enter and Escape are assumed to act on a focused field, so their `blur()` reaches the blur handler.
- The number input's native reaction to arrow keys: the browser's own step change is a DOM behaviour. It would reach the model only as a change event, and with `isTyping` set that event calls nobody.
- Deferral: `setTimeout` and `requestAnimationFrame` run atomically right after the handler. The scroll handler `handleScrollEvent` is therefore `HandleScrollInNodes` itself, and the playhead's `handleRulerScroll` is `ResolvePlayheadPosition` run with the time its listener captured.
- The effect that attaches the playhead's scroll listener to the ruler (src/Timeline/Playhead.tsx:41-51) is not modelled step by step. Its one observable consequence is kept: it re-runs only when the node behind the ref changes, so the listener keeps the `time` of that render (`listenerTime`, set by `HandleRefPlayhead`). A scroll after a time change therefore places the playhead from the old time (`TimelineScenarios.ScrollUsesAttachTime`). The model assumes the ruler node exists when the playhead node arrives.
- React details: the stale `step` in `validateValueAndOnChange`'s dependency list is not modelled; `step` is a constant field. Props reach the field only through `Rerender`, and only a changed `defaultValue` triggers its effect.
- Node identity: DOM nodes are indices into one array, so `scrolledNode !== node` is index inequality. Listener identity per group is a set of node indices.
- Transform strings: only the px offset of `translateX(calc(<offset>px - 50%))` is modelled, not the CSS text or the `hidden` class name.
- PlayControls.WellFormed is kept by commits and arrows but not by a raw change event: a change while not typing forwards an unrounded, unclamped number, and ArrowDown on the duration can go below 100 (`DurationArrowDownLeavesRange`).
- Rendering-only components (ruler, track list, keyframe list, segments, the time context) and the panel's composition are not modelled. The panel's initial state and scroll groups appear only as fixtures in `TimelineScenarios`.
- Ruler drag-to-seek: the ruler marks it as not yet written, so there is nothing to model. The two repository tests that expect it are not replayed.
