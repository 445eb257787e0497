# Streakly home-screen widget: state store and renderer

This project is a Dafny model of the Android side of the Streakly habit tracker's home-screen
widget. It covers two paths.

- **Write path.** MainActivity's "com.streakly.app/widget" method channel receives
  `updateWidget`, `refreshWidget`, `clearWidgetData` and `getWidgetData`. `updateWidget`
  takes a loosely typed argument map, gives each field its default, normalises the
  calendar list and overwrites the "streakly_widget" preference file. `getWidgetData`
  reads a default-filled snapshot back.
- **Render path.** StreaklyWidgetProvider's `updateAppWidget` seeds the `mode` and
  `initialized` keys when they are missing. It reads the state, shows or hides the
  completion icon and the habit name, and `applyCalendar` maps the stored `days` array
  onto the widget's 35 day cells.

Modules:

- `Basics` (basics.dfy): the Kotlin runtime pieces the code uses.
  - `Number.toInt()` as a 32-bit wrap-around.
  - `isBlank` with Kotlin's whitespace set.
  - `Int.toString()`, with a round-trip proof.
- `WidgetPrefs` (widget_prefs.dfy): the preference file as a class `Prefs` over a
  `map<string, Value>`.
  - Its typed getters return the default when a key is absent, and None when the key holds
    another type. None stands for Android's ClassCastException.
  - `WellTyped` states the type each key is written with.
- `WidgetChannel` (widget_channel.dfy): the widget channel of MainActivity.kt.
- `WidgetRenderer` (widget_renderer.dfy): StreaklyWidgetProvider.kt.
  - `RemoteViews` is a class holding an `array<Cell>` of length 35.
  - `ApplyCalendar` is the loop over those cells. It is proved against the function
    `CalendarCells`.
- `WidgetSync` (widget_sync.dfy): results across both files.
  - What the widget shows after an update or a clear.
  - Any sequence of updates, clears and renders, starting from an empty file, keeps every
    key at its type. So no read on either side ever throws.

Behaviour worth noting:

- `getWidgetData` defaults `streakCount` to 0.
- The renderer defaults the habit name to "", while `getWidgetData` defaults it to
  "Streakly".
- An update broadcast is sent only when the widget id list is non-null and non-empty.
- A calendar entry that is not a JSON object leaves its cell untouched.
- When the stored text has no `days` array, the view tree sets nothing on the day cells.
- `mode` is stored as whatever string the app sends.

## Model

| member | source | states |
|---|---|---|
| `Basics.ToInt32` | android/app/src/main/kotlin/com/harirajan/streakly/MainActivity.kt:57-62 | `Number.toInt()` gives a 32-bit value congruent to the input modulo 2^32, equal to the input when that is already in range |
| `Basics.Decimal` | android/app/src/main/kotlin/com/harirajan/streakly/StreaklyWidgetProvider.kt:130 | `(i + 1).toString()` is a non-empty string of decimal digits without a leading zero |
| `Basics.DecimalRoundTrip` | android/app/src/main/kotlin/com/harirajan/streakly/StreaklyWidgetProvider.kt:130 | reading the digits of the fallback label back gives the number: the label really is i + 1 |
| `Basics.DecimalNotBlank` | android/app/src/main/kotlin/com/harirajan/streakly/StreaklyWidgetProvider.kt:130 | the fallback label is never blank |
| `WidgetChannel.NormaliseItem` | android/app/src/main/kotlin/com/harirajan/streakly/MainActivity.kt:66-70 | a calendar item is kept iff it is a map with a String `day`; the entry has that day, and `done` is true iff the item's `done` is the Boolean true |
| `WidgetChannel.NormaliseCalendar` | android/app/src/main/kotlin/com/harirajan/streakly/MainActivity.kt:65-71 | the normalised calendar is never longer than the input list |
| `WidgetChannel.NormaliseAppend` | android/app/src/main/kotlin/com/harirajan/streakly/MainActivity.kt:65-71 | normalisation works item by item in input order: it maps a concatenation to the concatenation of the results |
| `WidgetChannel.NormaliseKeepsAll` | android/app/src/main/kotlin/com/harirajan/streakly/MainActivity.kt:65-71 | nothing is dropped iff every item is a map with a String `day`, and then entry i is item i normalised |
| `WidgetChannel.NormaliseOrigin` | android/app/src/main/kotlin/com/harirajan/streakly/MainActivity.kt:65-71 | every normalised entry comes from an item of the input |
| `WidgetChannel.ParseArgs` | android/app/src/main/kotlin/com/harirajan/streakly/MainActivity.kt:55-71 | non-map arguments are rejected. Otherwise a missing or wrongly typed field takes its default: streakCount 0, todayCompleted false, habitName "Streakly", nextReminder "", habitColor -1, habitIcon -1, mode "all", no habitId. A missing or non-list calendar becomes the empty list. Integer fields are 32-bit |
| `WidgetChannel.WriteFields` | android/app/src/main/kotlin/com/harirajan/streakly/MainActivity.kt:73-84 | every written key is overwritten with its field. An absent habit id removes the key. `calendar` is exactly `{"days": normalised}`. No other key changes |
| `WidgetChannel.WriteKeepsWellTyped` | android/app/src/main/kotlin/com/harirajan/streakly/MainActivity.kt:73-84 | an update keeps every key of the file at its declared type |
| `WidgetChannel.ReadSnapshot` | android/app/src/main/kotlin/com/harirajan/streakly/MainActivity.kt:119-129 | the eight reads (habitIcon among them) succeed exactly when no read key holds a value of another type, always on a well-typed file. A stored key reads as its value, an absent one as its default, and habitId is present exactly when stored |
| `WidgetChannel.WidgetData` | android/app/src/main/kotlin/com/harirajan/streakly/MainActivity.kt:119-138 | the handler throws exactly when one of the eight read keys holds a value of another type. Otherwise it replies the seven-key map (never `habitIcon`), each key giving the stored value or its default (habitId null) |
| `WidgetChannel.UpdateWidget` | android/app/src/main/kotlin/com/harirajan/streakly/MainActivity.kt:54-99 | non-map arguments give error BAD_ARGS, leave the file unchanged and send nothing. Map arguments make the file `WriteFields` of the old file, reply success, and broadcast to the ids only when the list is non-null and non-empty |
| `WidgetChannel.RefreshWidget` | android/app/src/main/kotlin/com/harirajan/streakly/MainActivity.kt:101-112 | always replies success, and broadcasts to the ids iff the list is non-null and non-empty |
| `WidgetChannel.ClearWidgetData` | android/app/src/main/kotlin/com/harirajan/streakly/MainActivity.kt:114-118 | the file is empty afterwards and the reply is success |
| `WidgetChannel.GetWidgetData` | android/app/src/main/kotlin/com/harirajan/streakly/MainActivity.kt:119-139 | changes nothing and replies `WidgetData` of the file: on a well-typed file a success without `habitIcon` |
| `WidgetChannel.UpdateThenGet` | android/app/src/main/kotlin/com/harirajan/streakly/MainActivity.kt:73-138 | after a successful update, `getWidgetData` gives back the written streakCount, todayCompleted, habitName, nextReminder, habitColor, mode and habitId (null when absent), whatever the file held before |
| `WidgetChannel.ClearThenGet` | android/app/src/main/kotlin/com/harirajan/streakly/MainActivity.kt:114-138 | after a clear, `getWidgetData` gives all defaults: 0, false, "Streakly", "", -1, "all", null |
| `WidgetPrefs.Prefs.Put` | android/app/src/main/kotlin/com/harirajan/streakly/MainActivity.kt:74-82 | a put overwrites one key and changes nothing else |
| `WidgetPrefs.Prefs.Remove` | android/app/src/main/kotlin/com/harirajan/streakly/MainActivity.kt:82 | `putString(key, null)` removes the key and nothing else |
| `WidgetPrefs.Prefs.Clear` | android/app/src/main/kotlin/com/harirajan/streakly/MainActivity.kt:116 | the file holds no key afterwards |
| `WidgetRenderer.DayLabel` | android/app/src/main/kotlin/com/harirajan/streakly/StreaklyWidgetProvider.kt:130 | the label is the entry's `day` when that is present and not blank, and `(i + 1).toString()` otherwise; it is never blank |
| `WidgetRenderer.CalendarRules` | android/app/src/main/kotlin/com/harirajan/streakly/StreaklyWidgetProvider.kt:117-145 | without a days array no cell changes. A cell past the array's end is empty, transparent and white. A non-object entry leaves its cell as it was. An object entry shows its label, gets the done background iff `done` is true (else the todo one) and white text |
| `WidgetRenderer.CalendarIgnoresTail` | android/app/src/main/kotlin/com/harirajan/streakly/StreaklyWidgetProvider.kt:118-128 | array entries at index 35 or beyond never affect any cell |
| `WidgetRenderer.RemoteViews.constructor` | android/app/src/main/kotlin/com/harirajan/streakly/StreaklyWidgetProvider.kt:68 | a fresh view tree has 35 day cells, all as the layout sets them, and overrides nothing |
| `WidgetRenderer.ApplyCalendar` | android/app/src/main/kotlin/com/harirajan/streakly/StreaklyWidgetProvider.kt:114-146 | the loop leaves the 35 cells exactly as `CalendarCells` of their old contents and the parsed document |
| `WidgetRenderer.Seeded` | android/app/src/main/kotlin/com/harirajan/streakly/StreaklyWidgetProvider.kt:53-59 | seeding adds `mode = "all"` only when `mode` is absent and `initialized = true` only when that is absent. Every existing key keeps its value and no other key appears |
| `WidgetRenderer.SeedingIdempotent` | android/app/src/main/kotlin/com/harirajan/streakly/StreaklyWidgetProvider.kt:53-59 | a second render's seeding leaves the file unchanged |
| `WidgetRenderer.SeedingKeepsWellTyped` | android/app/src/main/kotlin/com/harirajan/streakly/StreaklyWidgetProvider.kt:53-59 | seeding keeps every key at its declared type |
| `WidgetRenderer.SeedDefaults` | android/app/src/main/kotlin/com/harirajan/streakly/StreaklyWidgetProvider.kt:53-59 | the two conditional puts leave the file as `Seeded` of the old file |
| `WidgetRenderer.ReadWidgetState` | android/app/src/main/kotlin/com/harirajan/streakly/StreaklyWidgetProvider.kt:60-66 | the seven reads fail exactly when one of their keys holds a value of another type, and never on a well-typed file |
| `WidgetRenderer.ReadWidgetStateValues` | android/app/src/main/kotlin/com/harirajan/streakly/StreaklyWidgetProvider.kt:60-66 | when the reads succeed, a stored key reads as its value and an absent one as the renderer's default (0, false, "", "", -1, -1). A stored calendar document gives its days; any other stored string, or none, gives no document |
| `WidgetRenderer.Render` | android/app/src/main/kotlin/com/harirajan/streakly/StreaklyWidgetProvider.kt:60-105 | the completed icon is visible iff todayCompleted, and gone otherwise. The habit name is visible with its text iff it is not blank, and gone with its text untouched otherwise. The cells are the calendar applied to a fresh layout |
| `WidgetRenderer.UpdateAppWidget` | android/app/src/main/kotlin/com/harirajan/streakly/StreaklyWidgetProvider.kt:50-108 | the file becomes `Seeded` of the old file. The new view tree shows `Render` of it, or nothing is built when a read throws |
| `WidgetRenderer.WidgetManager.Push` | android/app/src/main/kotlin/com/harirajan/streakly/StreaklyWidgetProvider.kt:107 | pushing a view tree makes it the one recorded for that instance; no other instance's entry changes |
| `WidgetRenderer.OnUpdate` | android/app/src/main/kotlin/com/harirajan/streakly/StreaklyWidgetProvider.kt:13-17 | every listed instance shows the same rendered frame, and other instances are untouched. The file is seeded once there is an instance. A throwing read stops at the first instance with nothing pushed |
| `WidgetSync.UpdateThenRender` | android/app/src/main/kotlin/com/harirajan/streakly/StreaklyWidgetProvider.kt:126-141 | after `updateWidget` (MainActivity.kt:65-83) and a render, the icon follows todayCompleted and the name shows iff it is not blank. Cell i < min(35, n) shows normalised day i, or i + 1 when that is blank, in its done or todo style. Later cells are empty, and no cell is skipped |
| `WidgetSync.ClearThenRender` | android/app/src/main/kotlin/com/harirajan/streakly/StreaklyWidgetProvider.kt:60-66 | after a clear, a render hides the icon and the name ("" is the renderer's default) and sets nothing on any day cell |
| `WidgetSync.RunKeepsWellTyped` | android/app/src/main/kotlin/com/harirajan/streakly/StreaklyWidgetProvider.kt:53-66 | any sequence of updates, clears and renders keeps every key at its declared type |
| `WidgetSync.ReadsNeverThrow` | android/app/src/main/kotlin/com/harirajan/streakly/StreaklyWidgetProvider.kt:60-66 | from an empty file, after any sequence of operations, neither the renderer's reads nor `getWidgetData` throw |

## Left out

- Permission channel (`canScheduleExactAlarms`, `requestScheduleExactAlarm`, and all of
  com/example/streakly_app/MainActivity.kt): platform version checks around AlarmManager
  and an activity launch, with no state.
- Month label (StreaklyWidgetProvider.kt:86-92): it is formatted from the wall clock and
  the default locale, not from the stored state.
- `onReceive` (StreaklyWidgetProvider.kt:19-47) is not modelled.
  - Its tap action renders every instance (what `OnUpdate` models) and then tries to launch
    the app, swallowing any failure.
  - Its update action also runs the framework's own `AppWidgetProvider.onReceive`, which is
    not part of this model.
  - The tap-to-launch PendingIntent (lines 71-83) is not modelled either.
- `getAppWidgetIds` and broadcast delivery: the id list is a parameter, and a broadcast is
  returned as the id list it is sent to.
- JSON text. The `calendar` preference is kept as the parsed document (`DaysJsonV`), not
  as its characters.
  - A plain string under `calendar` is treated as text with no `days` array. That holds
    for the never-written default "", but not for a hand-written valid document. No code
    path writes one.
  - Reading a `DaysJsonV` under any other key counts as a failed read. No code path
    writes one there.
  - org.json's coercions (`optString` of a number, `optBoolean` of "true") are folded into
    the parsed `DayItem`.
- Floating-point arguments: a Dart double reaching `as? Number` would be truncated by
  `toInt()`. Only integer arguments are modelled.
- Channel arguments are maps with String keys. Non-String keys are never looked up.
- `SharedPreferences.apply()` is asynchronous and visible across processes. Here the file
  is a synchronous map.
- One editor batch (MainActivity.kt:74-84) is modelled as its puts, one after another in
  the source's order. A batch commits all at once; its keys are distinct, so the resulting
  file is the same.
- `WidgetManager` records the view tree last pushed for each instance. What the host then
  displays is not modelled: a host that reuses an earlier view applies only the actions
  the new tree sets, so a cell this model leaves unset may keep what an earlier tree
  showed.
- A handler that throws is reported as `Thrown`. How the platform channel turns that into
  an error reply is not part of this model.
- The `notImplemented` reply for unknown method names is not modelled, and neither is the
  channel's dispatch on the method name.
- Resource ids and colour integers are abstract (`DoneBackground`, `TodoBackground`,
  `Transparent`, `White`).
- `streakCount`, `nextReminder`, `habitColor` and `habitIcon` are read by the renderer.
  Those reads can throw, so they are modelled. Their values are not displayed.
