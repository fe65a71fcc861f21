# satwatcher native core, modelled in Dafny

The Android side of the satwatcher app (a satellite-pass and EMF-exposure
tracker) holds three pieces of local logic inside its platform glue. This
project models them and proves their properties.

- **Fired-alarm reconciliation** (`AlarmReceiver`). When a scheduled alarm fires,
  the receiver loads the persisted alarm list from the "FlutterSharedPreferences"
  file. It keeps every record whose id differs from the fired id, in order, and
  writes the list back. It skips the write when the list is absent or a record
  cannot be read. Then it posts the notification in the slot named by the fired id.
- **Widget view derivation** (`EMFWidgetProvider`). A render pass reads five
  cached values from the "emf_widget_data" file, using a default for each
  missing key. It clamps the percentage into a 0..100 progress value, picks one
  of four colour tiers (thresholds 10, 25 and 50) and prefixes the next-pass
  label with "Next: ". The periodic worker restamps only `last_update`, then
  repaints every widget instance.
- **Bridge dispatch** (`MainActivity`). Two method channels map a method name
  and optional arguments to a reply: success, an `INVALID_ARGS` error or
  not-implemented. They also map them to a command: schedule or cancel an
  alarm, write the widget snapshot, or open the alarm settings. The alarm mode
  depends on the SDK level and the exact-alarm permission.

Layout: `wrappers.dfy` (Option), `host.dfy` (stored values and the `Device`
class, which holds the device state these handlers touch),
`alarm_receiver.dfy`, `emf_widget_provider.dfy` and `main_activity.dfy`.

The device is a class. Its fields are the two preference files as maps, the
registered alarms, the posted notifications and the painted widget views. A
ghost `log` records the observable effects in order. The handlers are methods
that change those fields, and each one's `ensures` ties the new state to a
specification function. The properties are lemmas about those functions. A
string at the alarm key that org.json parses as a JSON array is represented by its parse
(`AlarmsV`). A record with no readable integer `id` has `id == None`.

Two facts about the code that a reader might not expect:
- The periodic worker rewrites `last_update` with the current time before it
  repaints (EMFWidgetProvider.java:139-142).
- The native `scheduleAlarm` only registers the alarm with AlarmManager; it adds
  no record to the persisted alarm list. Only the UI layer adds records to that
  list, and that code is not part of this model.

## Model

| member | source | states |
|---|---|---|
| AlarmReceiver.StoredList | android/app/src/main/java/com/ziehro/satwatcher/AlarmReceiver.java:68-76 | the alarm list is used only when the key is present, holds a parsed array, and every record has an integer id |
| AlarmReceiver.Reconciled | android/app/src/main/java/com/ziehro/satwatcher/AlarmReceiver.java:61-87 | all keys are kept and no key other than the alarm list changes; an absent or unreadable list leaves the store untouched; otherwise the list becomes the filtered list |
| AlarmReceiver.WithoutAppend | android/app/src/main/java/com/ziehro/satwatcher/AlarmReceiver.java:74-79 | filtering a concatenation filters each part, so the kept records stay in their original relative order |
| AlarmReceiver.WithoutSplit | android/app/src/main/java/com/ziehro/satwatcher/AlarmReceiver.java:74-79 | kept records that came before position k still come before the kept records that came after it |
| AlarmReceiver.Without | android/app/src/main/java/com/ziehro/satwatcher/AlarmReceiver.java:74-79 | the filtered list is no longer than the input; every kept record comes from the input and none carries the fired id |
| AlarmReceiver.WithoutKeepsOthers | android/app/src/main/java/com/ziehro/satwatcher/AlarmReceiver.java:74-79 | each record with another id is kept as many times as it occurred; records with the fired id are all dropped, duplicates included |
| AlarmReceiver.WithoutLength | android/app/src/main/java/com/ziehro/satwatcher/AlarmReceiver.java:74-79 | new length = old length minus the number of records with the fired id |
| AlarmReceiver.WithoutNoMatch | android/app/src/main/java/com/ziehro/satwatcher/AlarmReceiver.java:74-83 | when no record has the fired id, the list written back equals the original |
| AlarmReceiver.WithoutIdempotent | android/app/src/main/java/com/ziehro/satwatcher/AlarmReceiver.java:74-79 | filtering twice with the same id is filtering once |
| AlarmReceiver.WithoutReadable | android/app/src/main/java/com/ziehro/satwatcher/AlarmReceiver.java:74-79 | a readable list stays readable after filtering |
| AlarmReceiver.WithoutCommutes | android/app/src/main/java/com/ziehro/satwatcher/AlarmReceiver.java:74-79 | two firings leave the same list whichever fires first |
| AlarmReceiver.DistinctRemovesAtMostOne | android/app/src/main/java/com/ziehro/satwatcher/AlarmReceiver.java:74-79 | when ids are distinct, a firing removes at most one record |
| AlarmReceiver.ReconcileWrites | android/app/src/main/java/com/ziehro/satwatcher/AlarmReceiver.java:81-83 | at most one write; the list is written exactly when it was present and readable, and what is written is the reconciled list |
| AlarmReceiver.ReconcileRemovesFired | android/app/src/main/java/com/ziehro/satwatcher/AlarmReceiver.java:71-83 | after reconciling a readable list, the stored list is still readable and holds no record with the fired id |
| AlarmReceiver.ReconcileNoMatch | android/app/src/main/java/com/ziehro/satwatcher/AlarmReceiver.java:71-83 | firing an id that no stored record carries leaves the store as it was |
| AlarmReceiver.ReconcileIdempotent | android/app/src/main/java/com/ziehro/satwatcher/AlarmReceiver.java:61-87 | a second firing of the same id does not change the store |
| AlarmReceiver.ReconcileCommutes | android/app/src/main/java/com/ziehro/satwatcher/AlarmReceiver.java:61-87 | two firings in sequence leave the same store in either order |
| AlarmReceiver.FilterFired | android/app/src/main/java/com/ziehro/satwatcher/AlarmReceiver.java:72-79 | the loop returns the filtered list when every record is readable, and gives up (the exception path) otherwise |
| AlarmReceiver.RemoveScheduledAlarm | android/app/src/main/java/com/ziehro/satwatcher/AlarmReceiver.java:61-87 | the store becomes the reconciled store; the list is logged as written only when reconciliation writes |
| AlarmReceiver.SlotOf | android/app/src/main/java/com/ziehro/satwatcher/AlarmReceiver.java:21 | the notification slot is the id extra when it is present and 0 when it is missing |
| AlarmReceiver.OnReceive | android/app/src/main/java/com/ziehro/satwatcher/AlarmReceiver.java:18-59 | the store is reconciled for the fired id (0 when the extra is missing); then, whatever reconciliation did, the notification is posted in that id's slot, replacing any earlier one there; the log shows the write before the post |
| EMFWidgetProvider.LoadSnapshot | android/app/src/main/java/com/ziehro/satwatcher/EMFWidgetProvider.java:54-59 | each of the five values is the stored one, or 0.0, 0, 0.0, "No upcoming passes" or "--:--" when its key is missing |
| EMFWidgetProvider.JavaIntCast | android/app/src/main/java/com/ziehro/satwatcher/EMFWidgetProvider.java:69 | the (int) cast truncates toward zero and saturates at the 32-bit range |
| EMFWidgetProvider.Progress | android/app/src/main/java/com/ziehro/satwatcher/EMFWidgetProvider.java:69 | progress lies in 0..100: negative input gives 0, input >= 100 gives 100, and 0 <= p < 100 gives the integer part of p |
| EMFWidgetProvider.ProgressMonotone | android/app/src/main/java/com/ziehro/satwatcher/EMFWidgetProvider.java:69 | a larger percentage never shows a shorter bar |
| EMFWidgetProvider.TierOf | android/app/src/main/java/com/ziehro/satwatcher/EMFWidgetProvider.java:73-82 | >= 50 is red, 25 <= p < 50 orange, 10 <= p < 25 yellow, and otherwise green, each as an if-and-only-if |
| EMFWidgetProvider.TierMonotone | android/app/src/main/java/com/ziehro/satwatcher/EMFWidgetProvider.java:73-82 | p <= q implies tier(p) <= tier(q) in the order green < yellow < orange < red |
| EMFWidgetProvider.TierAgreesWithProgress | android/app/src/main/java/com/ziehro/satwatcher/EMFWidgetProvider.java:69-82 | the colour of a percentage is the colour of its progress value, so bar and tint never disagree |
| EMFWidgetProvider.TierAndProgressSamples | android/app/src/main/java/com/ziehro/satwatcher/EMFWidgetProvider.java:69-82 | sample inputs 5, 10, 24, 25, 49, 50 and 90 fall into the expected tiers; -5, 150 and 73.2 give bar values 0, 100 and 73 |
| EMFWidgetProvider.ColorOf | android/app/src/main/java/com/ziehro/satwatcher/EMFWidgetProvider.java:73-82 | red is 0xFFFF0000, orange 0xFFFFA500, yellow 0xFFFFFF00 and green 0xFF4CAF50, each as an if-and-only-if |
| EMFWidgetProvider.TierColorsDistinct | android/app/src/main/java/com/ziehro/satwatcher/EMFWidgetProvider.java:73-82 | the four tiers paint four different colours |
| EMFWidgetProvider.Render | android/app/src/main/java/com/ziehro/satwatcher/EMFWidgetProvider.java:50-99 | the bar has maximum 100 and shows Progress(percentLimit), a value in 0..100; the tint is ColorOf(TierOf(percentLimit)) from SDK S on and unset below |
| EMFWidgetProvider.RenderShowsSnapshot | android/app/src/main/java/com/ziehro/satwatcher/EMFWidgetProvider.java:61-66 | the next-pass text is exactly "Next: " followed by the stored label; every other field shows the stored value unchanged |
| EMFWidgetProvider.EmptyStoreShowsDefaults | android/app/src/main/java/com/ziehro/satwatcher/EMFWidgetProvider.java:54-82 | with an empty store the widget shows the defaults, an empty bar and the green tier |
| EMFWidgetProvider.RenderEventsOncePerId | android/app/src/main/java/com/ziehro/satwatcher/EMFWidgetProvider.java:150-152 | each listed widget is rendered once for each time it is listed, and no other widget is rendered |
| EMFWidgetProvider.UpdateAppWidget | android/app/src/main/java/com/ziehro/satwatcher/EMFWidgetProvider.java:50-99 | the widget is painted from the store and the store is not written |
| EMFWidgetProvider.UpdateAll | android/app/src/main/java/com/ziehro/satwatcher/EMFWidgetProvider.java:150-152 | every listed widget gets the current view, one render each in list order, and the store is not written |
| EMFWidgetProvider.OnUpdate | android/app/src/main/java/com/ziehro/satwatcher/EMFWidgetProvider.java:30-36 | every widget id passed in is repainted from the store |
| EMFWidgetProvider.Stamped | android/app/src/main/java/com/ziehro/satwatcher/EMFWidgetProvider.java:139-142 | only last_update is written; every other key keeps its value |
| EMFWidgetProvider.StampedChangesOnlyLastUpdate | android/app/src/main/java/com/ziehro/satwatcher/EMFWidgetProvider.java:139-142 | after the stamp, emf_value, sat_count, percent_limit and next_pass read back unchanged and last_update reads back as the new time |
| EMFWidgetProvider.CalculateAndUpdateWidget | android/app/src/main/java/com/ziehro/satwatcher/EMFWidgetProvider.java:134-153 | the worker stamps the time, then repaints every widget from the stamped store |
| MainActivity.CanScheduleExactAlarms | android/app/src/main/java/com/ziehro/satwatcher/MainActivity.java:92-98 | true whenever the SDK is below S; from S on, exactly the permission |
| MainActivity.ScheduleMode | android/app/src/main/java/com/ziehro/satwatcher/MainActivity.java:122-132 | SDK >= S with the permission gives exact-while-idle and without it inexact-while-idle; M <= SDK < S gives exact-while-idle; below M gives exact |
| MainActivity.InexactIffNoExactCapability | android/app/src/main/java/com/ziehro/satwatcher/MainActivity.java:122-132 | an alarm is scheduled inexact exactly when canScheduleExactAlarms would answer false |
| MainActivity.Dispatch | android/app/src/main/java/com/ziehro/satwatcher/MainActivity.java:31-89 | notImplemented exactly for a name the channel does not handle; only a null success carries a command; an error is INVALID_ARGS from scheduleAlarm or cancelAlarm on the alarm channel; a boolean reply comes exactly from canScheduleExactAlarms and is its answer |
| MainActivity.NotImplementedIffUnknown | android/app/src/main/java/com/ziehro/satwatcher/MainActivity.java:31-89 | a call is answered notImplemented exactly when its channel does not handle the method name |
| MainActivity.FailedCallsHaveNoEffect | android/app/src/main/java/com/ziehro/satwatcher/MainActivity.java:61-81 | an error reply or a notImplemented reply comes with no side effect |
| MainActivity.ScheduleAlarmNeedsAllArgs | android/app/src/main/java/com/ziehro/satwatcher/MainActivity.java:61-72 | scheduleAlarm succeeds and schedules exactly when id, title, body and timestamp are all present; otherwise it replies INVALID_ARGS and schedules nothing |
| MainActivity.CancelAlarmNeedsId | android/app/src/main/java/com/ziehro/satwatcher/MainActivity.java:73-81 | cancelAlarm cancels exactly when id is present; otherwise it replies INVALID_ARGS and cancels nothing |
| MainActivity.CancelAllAlarmsIsNoop | android/app/src/main/java/com/ziehro/satwatcher/MainActivity.java:82-85 | cancelAllAlarms always succeeds and issues no command |
| MainActivity.UpdateWidgetDefaults | android/app/src/main/java/com/ziehro/satwatcher/MainActivity.java:32-44 | updateWidget always succeeds; missing arguments become 0.0, 0, 0.0 and "No upcoming passes" |
| MainActivity.WriteSnapshot | android/app/src/main/java/com/ziehro/satwatcher/MainActivity.java:155-161 | the five keys are written and every other key keeps its value |
| MainActivity.WriteThenLoad | android/app/src/main/java/com/ziehro/satwatcher/MainActivity.java:155-161 | after updateWidget's writes the store is readable, and the next load returns exactly the written values and time |
| MainActivity.WriteThenRender | android/app/src/main/java/com/ziehro/satwatcher/MainActivity.java:151-171 | a render right after updateWidget shows exactly the values just written, so the view is never stale |
| MainActivity.UpdateWidget | android/app/src/main/java/com/ziehro/satwatcher/MainActivity.java:151-171 | the store becomes the written snapshot and every widget is repainted with it, one render each |
| MainActivity.AlarmsAfter | android/app/src/main/java/com/ziehro/satwatcher/MainActivity.java:122-145 | scheduling adds or replaces the alarm under its request code with the chosen mode; cancelling removes that code; every other alarm is untouched; other commands change nothing |
| MainActivity.HandleCall | android/app/src/main/java/com/ziehro/satwatcher/MainActivity.java:31-89 | the reply is the handler's; scheduling replaces the alarm under its id with the selected mode; cancelling removes it; updateWidget writes and repaints; openAlarmSettings opens the settings only from SDK S on; nothing else changes |

## Left out

- JSON text: the model does not parse or serialise the alarm list with org.json. A stored string is represented by its parse, and text the parser rejects is the failure path.
- JSON coercion: `getInt`'s coercions (numeric strings, truncated doubles) are not modelled. An id is either an integer or unreadable.
- Notification rendering: channel creation, the PendingIntent, builder styling and vibration are platform calls. A notification is modelled as its slot, title and body.
- Platform widget calls: RemoteViews, AppWidgetManager and PendingIntent flags are reduced to the view fields the render pass sets.
- Periodic work: the WorkManager registration (`scheduleWidgetUpdates`, `onEnabled`, `onDisabled`) is host scheduling, so it is not modelled.
- Time and host lookups: the wall-clock time formatted as "HH:mm" is an input string `now`. The widget ids come from the host and are a parameter.
- Number formatting: `String.format("%.3f")` and `"%.4f%%"` are not modelled. The view carries the numbers themselves.
- Numeric precision: numbers are reals, so the model does not capture the Double-to-float narrowing or NaN.
- Integer widths: alarm ids and satellite counts are unbounded integers. Only the `(int)` cast in the progress value is modelled at 32 bits. Argument type mismatches on the bridge (a ClassCastException) are not modelled.
- Settings screen: `openAlarmSettings` is modelled only as a logged `SettingsOpened` event.
- Concurrency: two firings that race on the alarm list (a lost update) are not modelled. The model is sequential.
- EMFWidgetProvider.LoadSnapshot: requires each widget key that is present to hold the kind its getter expects. A mismatched value throws an uncaught ClassCastException, and every writer in this code keeps the store well-typed (`StampedChangesOnlyLastUpdate`, `WriteThenLoad`).
- EMFWidgetProvider.UpdateAppWidget: has the same well-typed-store requirement as LoadSnapshot, for the same reason.
- EMFWidgetProvider.UpdateAll: has the same well-typed-store requirement as LoadSnapshot, for the same reason.
- EMFWidgetProvider.OnUpdate: has the same well-typed-store requirement as LoadSnapshot, for the same reason.
- EMFWidgetProvider.CalculateAndUpdateWidget: requires the store to be well-typed after the stamp (a mistyped `last_update` is allowed, since the worker overwrites it before anything reads it), for the same reason as LoadSnapshot.
- AlarmReceiver.OnReceive: does not remove the fired alarm from the device's registered alarms, although AlarmManager drops a one-shot alarm once it fires; `alarms` after a firing is not meaningful in this model.
