# Hummingbird tracking core in Dafny

Hummingbird lets a user move or resize any window by holding a modifier-key
combination while moving the mouse. This project models its core:

- **Modifier sets** (`modifiers.dfy`): the keys that must be held to move and to
  resize, over the vocabulary shift, control, alt, command and fn. An event's
  flags are a raw 64-bit `CGEventFlags` word. `ExclusivelySet` matches when the
  event holds exactly the set's keys, ignoring every bit outside the vocabulary.
- **The tracker** (`tracker.dfy`, `tracker_properties.dfy`): the `Tracker`
  class with `currentState`, both modifier sets and the per-drag
  `trackingInfo` record. `HandleEvent` classifies an event as moving, resizing
  or idle. It then runs the 3x3 transition table, which starts, continues or
  ends a drag. The pure function `Step` specifies `HandleEvent` and the lemmas
  state its properties.
- **The window accessor** (`accessibility.dfy`): a `Screen` holding the window
  under each point and the readable origin and size of each window. It keeps a
  log of every geometry write.
- **Usage metrics** (`metrics.dfy`): distance moved and area resized, with
  `+` and `/`, and the area a resize step sweeps (`AreaDelta`).
- **Day-bucketed history** (`history.dfy`): one value per calendar day. Today's
  bucket can always be written. A dated write lands only on or after the
  retention cutoff. Reads and iteration are never gated.
- **Milestone notifications** (`notifications.dfy`): the action and category
  identifiers, the `category` property of a notification's content, and the
  rule that at most one milestone notification goes out per day.

The external world enters through parameters:

- The media clock (`CACurrentMediaTime`) is a `now: real` in seconds.
- The wall clock is a `clock` date, in whole seconds from a local midnight.
- The length of a mouse delta is the tracker's `magnitude` function. It returns
  a `Length`, which is never negative.
- A notification's delivery result is a `deliveryFailed` flag.

The model follows the code in these points, which a reader might expect to
work otherwise:

- Resizing has no corner logic. The delta is added to the size and, unwritten,
  to the origin.
- In `areaDelta` the diagonal term `dx*dy` is guarded by `d.magnitude >= 0`.
  That guard always holds, so the term is always counted, also when `dx` and
  `dy` have opposite signs. The test value 4 for (2, -1) on a 2x2 size confirms
  this.
- Only the case where both modifier sets are empty is guarded. An empty set
  follows the exact-match rule, so it matches events that hold no vocabulary
  key (`EmptyMatchesUnmodified`).
- Starting a drag where there is no window still enters the new state and
  absorbs the event. The record keeps the previous drag's window, so later
  events move that window (`StartWithoutWindowKeepsPreviousWindow`).
- Continuing a move or a resize is never absorbed.

## Model

| member | source | states |
|---|---|---|
| `Modifiers.Held` | HummingbirdTests/HummingbirdTests.swift:15-19 | the keys found in a flags word are exactly those whose `CGEventFlags` mask bit is set |
| `Modifiers.ExclusivelySet` | HummingbirdTests/HummingbirdTests.swift:21-31 | a set matches iff every vocabulary key is held exactly when it is in the set |
| `Modifiers.ExtraBitsIgnored` | HummingbirdTests/HummingbirdTests.swift:23-30 | adding bits outside the vocabulary never changes whether a set matches |
| `Modifiers.MatchIsUnique` | Hummingbird/Tracker.swift:88-90 | two sets that match the same event are equal, so move and resize both match only when configured alike |
| `Modifiers.EmptyMatchesUnmodified` | Hummingbird/Tracker.swift:76-80 | the empty set matches exactly the events that hold no vocabulary key |
| `Modifiers.ExclusivelySetExamples` | HummingbirdTests/HummingbirdTests.swift:21-31 | the test cases: {fn, control} matches with extra bits 0x1 and caps lock, not on fn alone; {shift} matches with 0x22 |
| `Modifiers.Toggle` | HummingbirdTests/HummingbirdTests.swift:55-59 | toggling flips exactly the given key and keeps every other key |
| `Modifiers.ToggleInvolutive` | HummingbirdTests/HummingbirdTests.swift:55-59 | toggling the same key twice gives the set back |
| `Modifiers.ToggleExamples` | HummingbirdTests/HummingbirdTests.swift:55-59 | the test cases: removing control, adding command |
| `UsageMetrics.AreaDelta` | Hummingbird/Metrics.swift:22-24 | for a growing delta the swept area is exactly the area gained; no motion sweeps nothing |
| `UsageMetrics.AreaDeltaAsWritten` | Hummingbird/Metrics.swift:22-24 | the formula as written, guard included: for any non-negative magnitude it is `AreaDelta`; only a negative magnitude, which cannot occur, would drop the diagonal term |
| `UsageMetrics.AreaDeltaReversed` | Hummingbird/Metrics.swift:22-24 | the opposite delta sweeps the same area |
| `UsageMetrics.AreaDeltaTransposed` | Hummingbird/Metrics.swift:22-24 | swapping the axes of size and delta sweeps the same area |
| `UsageMetrics.AreaDeltaExamples` | HummingbirdTests/HummingbirdTests.swift:65-76 | the regression values 8 for (2, 1) and 4 for (2, -1) on a 2x2 size |
| `UsageMetrics.Add` | Hummingbird/Metrics.swift:27-29 | adding `Metrics()` changes nothing, and adding non-negative metrics never lowers either counter |
| `UsageMetrics.Divide` | Hummingbird/Metrics.swift:32-34 | for a non-zero divisor `k`, each counter of the quotient times `k` gives the original counter back |
| `UsageMetrics.AddCommutative` | Hummingbird/Metrics.swift:27-29 | `a + b == b + a` |
| `UsageMetrics.AddAssociative` | Hummingbird/Metrics.swift:27-29 | `(a + b) + c == a + (b + c)` |
| `UsageMetrics.AddIdentity` | Hummingbird/Metrics.swift:12-15 | `Metrics()` is the identity of `+` |
| `UsageMetrics.DivideDistributes` | Hummingbird/Metrics.swift:32-34 | division by a non-zero `k` distributes over `+` |
| `UsageMetrics.AverageOfTwin` | Hummingbird/Metrics.swift:27-34 | `(a + a) / 2 == a` |
| `History.Truncate` | Hummingbird/History.swift:22-26 | a date truncates to the day whose bounds contain it |
| `History.SameDay` | Hummingbird/History.swift:22-26 | two dates share a bucket iff the second lies within the first one's day |
| `History.StartOfDay` | Hummingbird/History.swift:53-54 | the date made from a day's components truncates back to that day |
| `History.Cutoff` | Hummingbird/History.swift:30-33 | there is a cutoff exactly when the calendar answers, and it is the day holding that answer |
| `History.CutoffIsDepthDaysBack` | Hummingbird/History.swift:30-33 | when the calendar adds `depth` whole days, the cutoff is today + `depth` |
| `History.Lookup` | Hummingbird/History.swift:37-47 | a read returns the stored value of the day, nothing for a day without a bucket |
| `History.Assign` | Hummingbird/History.swift:40-57 | a write stores the value or removes the bucket for `nil`; every other bucket is untouched |
| `History.ReadBack` | Hummingbird/History.swift:35-48 | a value written for one date reads back through any date of the same day |
| `History.RetentionGate` | Hummingbird/History.swift:49-59 | a dated write on or after the cutoff is stored; an earlier one, or one without a cutoff, leaves the map unchanged |
| `History.GatedWriteIsLocal` | Hummingbird/History.swift:49-59 | a dated write never touches another day's bucket |
| `History.RewriteKeepsCount` | Hummingbird/History.swift:62 | rewriting a stored day keeps `count` |
| `History.NewDayAddsOne` | Hummingbird/History.swift:62 | writing a new day raises `count` by one |
| `History.History.constructor` | Hummingbird/History.swift:12-18 | a new history has the given depth and no buckets |
| `History.History.CurrentValue` | Hummingbird/History.swift:35-38 | the getter returns today's bucket, and nothing when today has none |
| `History.History.SetCurrentValue` | Hummingbird/History.swift:35-42 | today's bucket is assigned without any cutoff check and reads back as written |
| `History.History.Get` | Hummingbird/History.swift:44-48 | a dated read returns the bucket of the day holding the date, however old, and nothing when that day has none |
| `History.History.Set` | Hummingbird/History.swift:30-60 | with a calendar answer, the write is stored exactly when its day is on or after today + `depth` (the retention depth); with none, nothing changes; when admitted it reads back as written |
| `History.History.Count` | Hummingbird/History.swift:62 | `count` is the number of stored days, zero exactly for an empty history |
| `History.History.Entries` | Hummingbird/History.swift:67-82 | iteration yields every stored (day, value) pair once, old ones included, `count` in all |
| `Notifications.ActionFromId` | Hummingbird/Notifications.swift:15-17 | a recognised identifier names the action whose raw value it is |
| `Notifications.ActionIdRoundTrip` | Hummingbird/Notifications.swift:15-17 | `Actions(rawValue:)` gives action `a` exactly for `a`'s raw value |
| `Notifications.ActionTitles` | Hummingbird/Notifications.swift:19-33 | titles "Turn off" and "Show"; the milestone actions are turn-off then show |
| `Notifications.CategoryFromId` | Hummingbird/Notifications.swift:36-37 | a recognised identifier names the category whose raw value it is |
| `Notifications.CategoryIdRoundTrip` | Hummingbird/Notifications.swift:36-37 | `Categories(rawValue:)` gives the category exactly for its raw value |
| `Notifications.Describe` | Hummingbird/Notifications.swift:28-31 | a registered action is identified by its raw value and labelled with its title |
| `Notifications.DescribeCategory` | Hummingbird/Notifications.swift:39-48 | the milestone category carries its raw value and the milestone actions in order |
| `Notifications.NotificationContent.constructor` | Hummingbird/Notifications.swift:66 | new content has an empty category identifier, so its category reads as none |
| `Notifications.NotificationContent.SetCategory` | Hummingbird/Notifications.swift:88-97 | setting `nil` keeps the identifier; setting a category makes the getter return it |
| `Notifications.MaySend` | Hummingbird/Notifications.swift:57-65 | a request is made iff a tracker is active and no stored date lies within the current date's day |
| `Notifications.AfterSend` | Hummingbird/Notifications.swift:76-81 | a requested delivery without error stores the current date; a failed or unrequested one keeps the stored date |
| `Notifications.Notifier.constructor` | Hummingbird/Notifications.swift:62 | the notifier starts from the date last stored under `lastNotified`, or none |
| `Notifications.Notifier.Send` | Hummingbird/Notifications.swift:57-83 | a request is made iff a tracker is active and the last notification was not on today's day; the stored date follows `AfterSend` |
| `Notifications.AtMostOncePerDay` | Hummingbird/Notifications.swift:57-83 | any run of sends within one day delivers at most once, and not at all if a delivery already happened that day |
| `Accessibility.Screen.Perform` | Hummingbird/Tracker.swift:172 | a geometry write is logged and lands on the window if its geometry can be read |
| `Tracker.NextState` | Hummingbird/Tracker.swift:82-94 | moving iff the move set matches, resizing iff only the resize set matches, idle iff neither |
| `Tracker.Started` | Hummingbird/Tracker.swift:135-142 | the record is either untouched or tracks the window under the mouse with distance and area zeroed; the size is kept |
| `Tracker.ResizeParams` | Hummingbird/Tracker.swift:177-182 | succeeds iff a window is tracked and its size can be read, then records that size; only the size changes |
| `Tracker.MoveStep` | Hummingbird/Tracker.swift:160-174 | moving keeps window, size and area; a write is an origin write to the tracked window with the accumulated origin |
| `Tracker.ResizeStep` | Hummingbird/Tracker.swift:185-201 | resizing keeps the window; a write is a size write to the tracked window with the accumulated size |
| `Tracker.Transition` | Hummingbird/Tracker.swift:96-131 | the new state is always the requested one; a drag total is handed on iff a drag ends; only staying in a state writes |
| `Tracker.Step` | Hummingbird/Tracker.swift:66-132 | an absorbed event enters a drag and neither writes nor ends a drag; an event past neither guard changes nothing and is not absorbed |
| `Tracker.Tracker.constructor` | Hummingbird/Tracker.swift:33-43 | a new tracker is idle with a fresh record and the loaded modifier sets |
| `Tracker.Tracker.HandleEvent` | Hummingbird/Tracker.swift:66-132 | the new state, record, result, window writes and metrics are those `Step` gives for the old state; the modifier sets are unchanged |
| `Tracker.Tracker.StartTracking` | Hummingbird/Tracker.swift:135-142 | the record becomes `Started` of the old record at the event location |
| `Tracker.Tracker.StopTracking` | Hummingbird/Tracker.swift:145-148 | the timer is reset and the drag's distance and area are added to today's bucket |
| `Tracker.Tracker.KeepMoving` | Hummingbird/Tracker.swift:160-174 | the record and window writes are those of `MoveStep` |
| `Tracker.Tracker.DetermineResizeParams` | Hummingbird/Tracker.swift:177-182 | records the tracked window's size and returns whether it could be read |
| `Tracker.Tracker.KeepResizing` | Hummingbird/Tracker.swift:185-201 | the record and window writes are those of `ResizeStep` |
| `Tracker.Tracker.UpdateModifiers` | Hummingbird/Tracker.swift:203-206 | both modifier sets are replaced wholesale |
| `TrackerProperties.TapDisabledChangesNothing` | Hummingbird/Tracker.swift:67-74 | a tap-disabled notification returns false and changes neither state, record, windows nor metrics |
| `TrackerProperties.NoModifiersChangesNothing` | Hummingbird/Tracker.swift:76 | with both sets empty, every event returns false and changes nothing |
| `TrackerProperties.ClassificationTable` | Hummingbird/Tracker.swift:78-94 | move-only and both give moving, resize-only gives resizing, neither gives idle |
| `TrackerProperties.StateFollowsEvent` | Hummingbird/Tracker.swift:82-129 | past the guards the new state is the classified one, even when no window was found |
| `TrackerProperties.AbsorbedEvents` | Hummingbird/Tracker.swift:96-131 | absorbed iff idle to a drag, resizing to moving, or moving to resizing with a readable tracked size |
| `TrackerProperties.DragEnd` | Hummingbird/Tracker.swift:112-121 | ending a drag returns false, resets the timer, writes no window and hands the drag's distance and area to today's metrics |
| `TrackerProperties.IdleStaysIdle` | Hummingbird/Tracker.swift:100-102 | idle to idle changes nothing and returns false |
| `TrackerProperties.EffectsBelongToDrags` | Hummingbird/Tracker.swift:98-127 | only ending a drag touches metrics; only continuing a drag writes to a window |
| `TrackerProperties.StartTrackingSnapshot` | Hummingbird/Tracker.swift:135-142 | no window: record unchanged; else window, origin (zero if unreadable) and time set, distance and area zeroed |
| `TrackerProperties.MoveStepAccumulates` | Hummingbird/Tracker.swift:160-174 | distance and origin always accumulate; the origin is written and the timer reset iff more than 0.01 s passed |
| `TrackerProperties.ResizeStepAccumulates` | Hummingbird/Tracker.swift:185-201 | distance, area, origin and size always accumulate; the size is written and the timer reset iff more than 0.02 s passed |
| `TrackerProperties.StartWithoutWindowKeepsPreviousWindow` | Hummingbird/Tracker.swift:103-115 | a move started where there is no window is absorbed, keeps the old record, and the next step moves the old window |
| `TrackerProperties.NoMovementLost` | Hummingbird/Tracker.swift:160-174 | over a whole move drag the origin is the start plus every delta and the distance the sum of every length, whatever the throttle wrote |
| `TrackerProperties.ResizeAreaTelescopes` | Hummingbird/Tracker.swift:185-201 | over a whole resize drag the size is the start plus every delta; for a growing window the accumulated area is exactly the area gained |
| `TrackerProperties.MoveScenario` | Hummingbird/Tracker.swift:98-131 | a whole move: start absorbed with the origin snapshotted, a throttled (5, 0) write, then an unabsorbed end handing distance 5 to the metrics |

## Left out

- Event-tap plumbing is OS I/O and is left out: `enableTap`, `disableTap`, `myCGEventCallback`, the run-loop source and the `tapEnable` re-arm call. The model keeps only that a tap-disabled notification returns false.
- The `Tracker.shared` singleton (`enable`, `disable`, `isActive`) and the registration of the defaults-change observer are process lifecycle, not logic. `Send` takes whether a tracker is active as a parameter.
- `AXUIElement` window lookup and geometry access are foreign calls. They are replaced by the `Screen` layout and its write log.
- The weak reference of `trackingInfo.window` is not modelled. A closed window stays as an id whose geometry cannot be read, and writes to it have no effect.
- Tracker.KeepMoving: the two `CACurrentMediaTime()` reads are one `now`, so the timer is reset to the instant the elapsed time was measured. The same holds for Tracker.KeepResizing.
- `delta.magnitude` is a square root. It is the abstract `magnitude` function, known only to be non-negative.
- `CGFloat` arithmetic is `real`. Floating-point rounding, infinities and NaN are not modelled.
- UsageMetrics.Divide: requires a non-zero divisor. Division by zero, which yields infinity or NaN, is not modelled.
- Dates are whole seconds counted from a local midnight, and a day is 86400 seconds. Time zones, daylight-saving days and sub-second dates are not modelled.
- History.History.Set: `Calendar.date(byAdding:to:)` is a foreign call. `Set` receives its answer, which may be none; when there is one, it is required to be exactly `depth` days of 86400 seconds after the current date, so calendar days of another length are not modelled. Converting a truncated day back to a date always succeeds in the model.
- Persistence is left out: `History.save`, `History.init(forKey:defaults:)`, the default depth of -30 days that only the encoded default value carries, `Defaults.swift`, the loading of modifier sets and the save call in `stopTracking`. `UpdateModifiers` receives the loaded sets as parameters.
- Tracker.StopTracking: the tracker uses a non-optional `currentValue` that `History.swift` does not have. An absent bucket is read as `Metrics()`, and the sum is written back as today's value.
- `checkMilestone` and the `Milestone` type are not part of this model, so the milestone hook called by `stopTracking` is left out.
- Notification delivery is a framework call: `UNUserNotificationCenter`, the content's title and body, the request identifier and `registerCategories`. The model keeps only the result, delivered or error.
- Notifications.Notifier.Send: the source reads the current date twice, once for the daily gate and once in the completion handler. The model uses one `clock` for both. The completion handler runs asynchronously in the source. The model applies it before the next send, so it does not capture two sends that both pass the gate before either handler runs.
- `UNNotificationResponse.action` is `ActionFromId` applied to the response's action identifier, so it has no member of its own.
- The `Move` and `Resize` type tags of `Modifiers` carry no behaviour and are dropped. So is the string formatting of `Modifiers` and `Metrics`, whose implementation is not among the files.
- The definitions of the `Modifiers` option set, `TrackingInfo`, `Delta` and `Date.truncated()` are not part of this model's sources. They are modelled from how `Tracker.swift` uses them and from the unit tests in `HummingbirdTests.swift`.
- `AppDelegate.swift`, `Functions.swift` and the `easy-move-resize` headers are UI and declarations and are left out.
