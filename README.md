# Event bookkeeping of the gpui_study tutorial views

This project models the state machines that run inside the callbacks of three
chapters of a GUI-framework tutorial, and proves what those callbacks promise.

- **Chapter 3, state management.** Two child counters (A starts at 0, B at 10)
  each emit a `CounterChangedEvent { new_value, delta }` when their "+" or "-"
  button is clicked. The parent subscribes to both. For every event it counts one
  change, adds a line to a five-line event log and adds the delta to the total
  display. The parent can also reset everything, or copy A's count into B; neither
  emits an event. The proved accounting invariant: the display's total is the sum
  of the deltas received since the last reset, and the change count is their
  number.
- **Chapter 6, advanced.**
  - An action-driven counter with a five-line action log and a key map (the up/down
    arrows and `k`/`j` step the count, `r` resets it, a digit sets it).
  - A ten-step simulated load with progress, completion and cancel.
  - Cyclic focus over four areas, with the render-time sync of the focused index.
  - A global theme flag that is toggled by negating its current reading.
- **Chapter 5, events.**
  - Click counters in a mouse tracker and a button demo.
  - A ten-key history and a duplicate-free list of held keys.
  - A wheel-event counter with a reset.
  - A hover index whose counter counts changes of the hovered block.

The framework calls are replaced by plain calls:
- `cx.emit` becomes the event a child's method returns, and the parent's handler is
  called with it at once (`ClickIncrement`, `ClickDecrement`).
- `window.dispatch_action` becomes a direct call to the action handler.
- A `FocusHandle::focus(window)` request becomes the area index a method returns.
- The window's focus state at render time is a `seq<bool>` parameter.
- `cx.notify` is dropped.

Log lines are datatypes that carry the values the source formats into strings.

Files: `bounded_log.dfy` (the push-then-drop-oldest rule shared by every log),
`wrappers.dfy` (`Option`), `state_management.dfy` (03_state_management),
`advanced.dfy` (06_advanced), `events.dfy` (05_events).

In the load task, the tenth progress update and the final "done" update run with
no await between them. So the model's `Resume` performs both in one wake-up: progress reaches 100 in the
same step that finishes the load.

## Model

| member | source | states |
|---|---|---|
| `BoundedLog.Push` | 06_advanced/src/main.rs:54-59 | a log within its cap stays within it; below the cap the entry is appended and nothing is dropped; at the cap exactly the oldest entry (index 0) is dropped; the new entry is always last |
| `BoundedLog.PushAllKeepsNewest` | 05_events/src/main.rs:275-280 | after any number of pushes a bounded log holds exactly the newest `cap` entries of everything pushed, in arrival order |
| `StateManagement.SumAppend` | 03_state_management/src/main.rs:272-278 | adding one received delta to the total keeps the total equal to the sum of all received deltas |
| `StateManagement.SumOfUnitDeltasBounded` | 03_state_management/src/main.rs:55-74 | when every event delta is +1 or -1, as the children emit, the total is never further from zero than the number of changes counted |
| `StateManagement.ChildCounter.constructor` | 03_state_management/src/main.rs:46-52 | a child starts at the initial count its parent passes |
| `StateManagement.ChildCounter.Increment` | 03_state_management/src/main.rs:55-64 | count rises by exactly 1; the emitted event carries the new count and delta +1 |
| `StateManagement.ChildCounter.Decrement` | 03_state_management/src/main.rs:66-74 | count falls by exactly 1; the emitted event carries the new count and delta -1 |
| `StateManagement.TotalDisplay.constructor` | 03_state_management/src/main.rs:164-171 | the display starts at total 0, waiting for a change |
| `StateManagement.StateManagementApp.constructor` | 03_state_management/src/main.rs:238-330 | A = 0, B = 10, total = 0, no changes counted, empty event log, accounting invariant established |
| `StateManagement.StateManagementApp.OnCounterChanged` | 03_state_management/src/main.rs:255-309 | one more change counted, one log line added with the oldest dropped past five, the delta added to the total and shown as last change, children untouched, accounting invariant kept: total is the sum of the received unit deltas and lies between minus and plus the change count |
| `StateManagement.StateManagementApp.ClickIncrement` | 03_state_management/src/main.rs:144-146 | the clicked child rises by 1 and the relay counts it: one change, total + 1, the display's last change is (side, +1), one bounded log line with the new value, accounting invariant kept |
| `StateManagement.StateManagementApp.ClickDecrement` | 03_state_management/src/main.rs:115-117 | the clicked child falls by 1 and the relay counts it: one change, total - 1, the display's last change is (side, -1), one bounded log line with the new value, accounting invariant kept |
| `StateManagement.StateManagementApp.ObserveA` | 03_state_management/src/main.rs:314-319 | the observer returns A's current count and changes no state |
| `StateManagement.StateManagementApp.ResetAll` | 03_state_management/src/main.rs:333-354 | both counts, the total and the change count become 0 and the log empties; no event is received |
| `StateManagement.StateManagementApp.SyncCounters` | 03_state_management/src/main.rs:357-373 | B takes A's count; A, the total and the change count are unchanged; exactly one bounded log line is added |
| `StateManagement.ThreeIncrementsThenSync` | 03_state_management/src/main.rs:357-365 | three increments of A and a sync give A = 3, B = 3, total 3, three changes, and the four log lines in order |
| `Advanced.KeyEffectOf` | 06_advanced/src/main.rs:106-118 | "up"/"k" mean Increment, "down"/"j" Decrement, "r" Reset (each if and only if); exactly the keys "0".."9" set the count, to that digit; every other key does nothing |
| `Advanced.ActionDemo.constructor` | 06_advanced/src/main.rs:46-52 | count 0 and a log holding only the placeholder line |
| `Advanced.ActionDemo.LogAction` | 06_advanced/src/main.rs:54-59 | the entry is appended and the log, kept between 1 and 5 lines, drops index 0 when over five |
| `Advanced.ActionDemo.HandleIncrement` | 06_advanced/src/main.rs:62-66 | count + 1 and exactly one log line with the new count |
| `Advanced.ActionDemo.HandleDecrement` | 06_advanced/src/main.rs:68-72 | count - 1 and exactly one log line with the new count |
| `Advanced.ActionDemo.HandleReset` | 06_advanced/src/main.rs:74-78 | count 0 and exactly one "reset" log line |
| `Advanced.ActionDemo.DispatchAction` | 06_advanced/src/main.rs:97-100 | each registered action runs its handler; ToggleTheme has no handler here and changes nothing |
| `Advanced.ActionDemo.OnKeyDown` | 06_advanced/src/main.rs:103-120 | step keys change the count by one and log it, "r" resets, a digit key sets the count to its value and logs it, any other key changes neither count nor log |
| `Advanced.AsyncDemo.constructor` | 06_advanced/src/main.rs:242-249 | not loading, no result, progress 0, no task |
| `Advanced.AsyncDemo.StartLoading` | 06_advanced/src/main.rs:252-282 | loading, progress 0, no result, a fresh task at step 0 replacing any previous one |
| `Advanced.AsyncDemo.CancelLoading` | 06_advanced/src/main.rs:285-291 | task dropped, not loading, progress 0, result "cancelled" |
| `Advanced.AsyncDemo.Resume` | 06_advanced/src/main.rs:261-277 | step i sets progress to i * 10, strictly more than before and never above 100; step 10 also ends loading with a "loaded" result; a dropped or finished task changes nothing |
| `Advanced.AsyncDemo.RunToCompletion` | 06_advanced/src/main.rs:259-278 | the ten-step loop run without a cancel ends at progress 100, not loading, with the "loaded" result |
| `Advanced.AsyncDemo.ClickStart` | 06_advanced/src/main.rs:380-384 | start only acts while not loading; while loading nothing changes |
| `Advanced.AsyncDemo.ClickCancel` | 06_advanced/src/main.rs:404-408 | cancel only acts while loading; otherwise nothing changes |
| `Advanced.NextArea` | 06_advanced/src/main.rs:448-454 | the target is always below n; none focused goes to 0; area i goes to i + 1, and the last wraps to 0 |
| `Advanced.PrevArea` | 06_advanced/src/main.rs:456-468 | the target is always below n; none focused and area 0 go to n - 1; area i > 0 goes to i - 1 |
| `Advanced.PrevUndoesNext` | 06_advanced/src/main.rs:448-468 | from any focused area, "previous" after "next" and "next" after "previous" come back to it |
| `Advanced.FirstFocused` | 06_advanced/src/main.rs:474-480 | the result is the first focused area's index, or none exactly when no area is focused |
| `Advanced.FocusDemo.constructor` | 06_advanced/src/main.rs:428-439 | nothing focused, log holding only the placeholder line |
| `Advanced.FocusDemo.LogFocus` | 06_advanced/src/main.rs:441-446 | the entry is appended and the log stays at most five lines, oldest dropped first |
| `Advanced.FocusDemo.FocusNext` | 06_advanced/src/main.rs:448-454 | the area requested is NextArea of the focused index among the four areas, always a valid area |
| `Advanced.FocusDemo.FocusPrev` | 06_advanced/src/main.rs:456-468 | the area requested is PrevArea of the focused index among the four areas, always a valid area |
| `Advanced.FocusDemo.OnAreaKeyDown` | 06_advanced/src/main.rs:542-556 | tab, right and down request the next area, shift-tab, left and up the previous one, other keys request nothing |
| `Advanced.FocusDemo.SyncFocus` | 06_advanced/src/main.rs:474-487 | the focused index becomes the first focused area; one log line is added only when the index changed onto an area |
| `Advanced.Globals.IsDark` | 06_advanced/src/main.rs:617-619 | the theme reads dark exactly when it is set and dark; an absent global reads light |
| `Advanced.Globals.SetTheme` | 06_advanced/src/main.rs:692 | the stored theme is replaced by the given one |
| `Advanced.Globals.Toggle` | 06_advanced/src/main.rs:687-693 | the stored theme is the negation of the current reading |
| `Advanced.ToggleTwice` | 06_advanced/src/main.rs:687-693 | two toggles bring back the reading, whether or not a theme was set before |
| `Advanced.GlobalDemo.constructor` | 06_advanced/src/main.rs:609-611 | local count starts at 0 |
| `Advanced.GlobalDemo.IncrementLocal` | 06_advanced/src/main.rs:668-671 | local count rises by 1 |
| `Advanced.AdvancedApp.constructor` | 06_advanced/src/main.rs:717-732 | the theme is set to light; the four demos are new objects in their initial states: count 0 with the awaiting-action log line, no load running, no result and no task, no focused area with the awaiting-focus log line, local count 0 |
| `Events.MouseTracker.constructor` | 05_events/src/main.rs:32-39 | not pressing, no clicks, waiting line |
| `Events.MouseTracker.OnMouseDown` | 05_events/src/main.rs:62-67 | pressing, "pressed" line, clicks unchanged |
| `Events.MouseTracker.OnMouseUp` | 05_events/src/main.rs:69-73 | not pressing, "released" line, clicks unchanged |
| `Events.MouseTracker.OnClick` | 05_events/src/main.rs:80-85 | click count + 1 exactly, reported with its new number |
| `Events.ButtonDemo.constructor` | 05_events/src/main.rs:133-139 | no clicks, waiting line, no modifier line |
| `Events.ButtonDemo.OnMainClick` | 05_events/src/main.rs:164-175 | click count + 1 exactly and the click's modifiers recorded |
| `Events.ButtonDemo.OnButtonDown` | 05_events/src/main.rs:193-228 | a press on a button block only changes the last-event line |
| `Events.Without` | 05_events/src/main.rs:320 | exactly the other keys remain, in their order; a duplicate-free list stays duplicate-free; a key not held leaves the list as it was |
| `Events.ReleaseUndoesPress` | 05_events/src/main.rs:307-322 | pressing a key that was not held and releasing it gives back the held list as it was |
| `Events.KeyboardDemo.constructor` | 05_events/src/main.rs:267-273 | empty history, no held keys |
| `Events.KeyboardDemo.AddKey` | 05_events/src/main.rs:275-280 | the key is appended and the history stays at most ten keys, oldest dropped first |
| `Events.KeyboardDemo.OnKeyDown` | 05_events/src/main.rs:307-316 | a repeat changes nothing; a fresh press is recorded in the history and added to the held list only if absent, which stays duplicate-free |
| `Events.KeyboardDemo.OnKeyUp` | 05_events/src/main.rs:318-322 | the key leaves the held list, the other keys stay in order, the history is untouched |
| `Events.ScrollWheelDemo.constructor` | 05_events/src/main.rs:424-429 | zero delta, no scroll events |
| `Events.ScrollWheelDemo.OnScrollWheel` | 05_events/src/main.rs:451-457 | scroll count + 1 exactly and the event's delta added to the running sum |
| `Events.ScrollWheelDemo.Reset` | 05_events/src/main.rs:431-434 | scroll count and both delta components back to zero |
| `Events.HoverDemo.constructor` | 05_events/src/main.rs:552-557 | nothing hovered, no hovers counted |
| `Events.HoverDemo.OnItemMouseMove` | 05_events/src/main.rs:612-618 | block i becomes hovered; the hover count rises by 1 only if i was not already hovered |
| `Events.HoverDemo.OnClearMouseMove` | 05_events/src/main.rs:631-636 | nothing is hovered afterwards and the hover count is unchanged |

## Left out

- StateManagement.ChildCounter.Increment: the count, like every `i32` counter of the
  views (ChildCounter.Decrement, ActionDemo.HandleIncrement and HandleDecrement,
  MouseTracker.OnClick, ButtonDemo.OnMainClick, ScrollWheelDemo.OnScrollWheel,
  HoverDemo.OnItemMouseMove, GlobalDemo.IncrementLocal, the parent's change count), is
  an unbounded integer. The source would panic (debug build) or wrap (release
  build) after 2^31 - 1 steps.
- Events.ScrollWheelDemo.OnScrollWheel: the delta is summed as exact reals. The
  `f32` rounding, the 20-pixel line conversion and the clamp to ±100 at render
  time are floating-point display details.
- Subscription, observation and notification plumbing (`cx.subscribe`,
  `cx.observe`, `cx.notify`, entity handles) is framework code. An event reaches its
  one subscriber synchronously, which is how the model calls the handler.
- The observer's print of A's count is I/O.
- The async task's executor, its 200 ms timers and the weak view handle are
  framework code. The loop is modelled as wake-ups (`Resume`). A dropped task never
  wakes again. The case of a view torn down mid-load is not modelled, because every
  view lives as long as the app.
- The finish time of a load (`SystemTime::now`) is a parameter of `Resume`.
- The focus tree, `FocusHandle::focus`, clicks that focus one area, `track_focus`
  and `key_context` are framework code. The model keeps the focused index and
  returns the area a key press asks the window to focus.
- The mouse position (`mouse_position`, pixel coordinates), the relative progress
  width, colours, layout and every `render` style chain are presentation.
- The string formatting of log lines, last-event and last-change lines: they are
  datatypes carrying the same values.
- The chapters 1 and 2 views and the standalone examples hold no state
  transitions; the counter example's transitions are those of `ActionDemo`.
  Chapter 4's only transitions set presentation flags (the layout mode at
  04_styling/src/main.rs:253-256 and the debug overlay at
  04_styling/src/main.rs:824-827), which change how the page is drawn and
  nothing the other chapters keep.
- Window and application setup in every `main` is framework code.
