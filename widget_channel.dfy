/** The "com.streakly.app/widget" method channel of MainActivity: the app sends the widget
    state as a loosely typed map, the platform side defaults each field, normalises the
    calendar and overwrites the preference file; it can also clear the file and read a
    default-filled snapshot back. */
module WidgetChannel {
  import opened Basics
  import opened WidgetPrefs

  /** A value as it arrives over the method channel (null, Boolean, Integer/Long, String,
      List, Map with String keys). */
  datatype Dyn =
    | DNull
    | DBool(b: bool)
    | DInt(i: int)
    | DStr(s: string)
    | DList(items: seq<Dyn>)
    | DMap(fields: map<string, Dyn>)

  /** `map[key]`: a missing key reads as null. */
  function Arg(m: map<string, Dyn>, key: string): Dyn {
    if key in m then m[key] else DNull
  }

  /** `(m[key] as? Number)?.toInt() ?: default` */
  function IntArg(m: map<string, Dyn>, key: string, default: int): int {
    if Arg(m, key).DInt? then ToInt32(Arg(m, key).i) else default
  }

  /** `m[key] as? Boolean ?: default` */
  function BoolArg(m: map<string, Dyn>, key: string, default: bool): bool {
    if Arg(m, key).DBool? then Arg(m, key).b else default
  }

  /** `m[key] as? String` */
  function StrArg(m: map<string, Dyn>, key: string): Option<string> {
    if Arg(m, key).DStr? then Some(Arg(m, key).s) else None
  }

  /** One normalised calendar entry. */
  datatype DayEntry = DayEntry(day: string, done: bool)

  /** What one item of the calendar list becomes: kept only when it is a map with a String
      `day`; its `done` is the given Boolean, else false. */
  function NormaliseItem(x: Dyn): (r: Option<DayEntry>)
    ensures r.Some? <==> x.DMap? && Arg(x.fields, "day").DStr?
    ensures r.Some? ==> r.value.day == Arg(x.fields, "day").s
    ensures r.Some? ==> (r.value.done <==> Arg(x.fields, "done") == DBool(true))
  {
    if x.DMap? && StrArg(x.fields, "day").Some? then
      Some(DayEntry(StrArg(x.fields, "day").value, BoolArg(x.fields, "done", false)))
    else None
  }

  /** `mapNotNull` of `NormaliseItem` over the calendar list. */
  function NormaliseCalendar(xs: seq<Dyn>): (r: seq<DayEntry>)
    ensures |r| <= |xs|
    decreases |xs|
  {
    if xs == [] then []
    else
      var rest := NormaliseCalendar(xs[1..]);
      match NormaliseItem(xs[0])
      case Some(e) => [e] + rest
      case None => rest
  }

  /** Normalisation works item by item, so it keeps the input order: the result for a
      concatenation is the concatenation of the results. */
  lemma {:induction false} NormaliseAppend(xs: seq<Dyn>, ys: seq<Dyn>)
    ensures NormaliseCalendar(xs + ys) == NormaliseCalendar(xs) + NormaliseCalendar(ys)
    decreases |xs|
  {
    if xs == [] {
      assert xs + ys == ys;
    } else {
      assert (xs + ys)[1..] == xs[1..] + ys;
      NormaliseAppend(xs[1..], ys);
    }
  }

  /** Nothing is dropped exactly when every item is a map with a String `day`, and then
      entry i is item i normalised. */
  lemma {:induction false} NormaliseKeepsAll(xs: seq<Dyn>)
    ensures |NormaliseCalendar(xs)| == |xs| <==> forall i :: 0 <= i < |xs| ==> NormaliseItem(xs[i]).Some?
    ensures |NormaliseCalendar(xs)| == |xs| ==>
      forall i :: 0 <= i < |xs| ==> NormaliseCalendar(xs)[i] == NormaliseItem(xs[i]).value
    decreases |xs|
  {
    if xs != [] {
      NormaliseKeepsAll(xs[1..]);
      assert forall i :: 1 <= i < |xs| ==> xs[i] == xs[1..][i - 1];
    }
  }

  /** Every normalised entry comes from some item of the input. */
  lemma {:induction false} NormaliseOrigin(xs: seq<Dyn>, e: DayEntry)
    requires e in NormaliseCalendar(xs)
    ensures exists x :: x in xs && NormaliseItem(x) == Some(e)
    decreases |xs|
  {
    if NormaliseItem(xs[0]) == Some(e) {
      assert xs[0] in xs;
    } else {
      NormaliseOrigin(xs[1..], e);
      var x :| x in xs[1..] && NormaliseItem(x) == Some(e);
      assert x in xs;
    }
  }

  /** The widget state after defaults are applied to the `updateWidget` arguments. */
  datatype WidgetFields = WidgetFields(
    streakCount: int,
    todayCompleted: bool,
    habitName: string,
    nextReminder: string,
    habitColor: int,
    habitIcon: int,
    mode: string,
    habitId: Option<string>,
    calendar: seq<DayEntry>)

  /** `call.arguments as? Map<*, *>` and the per-field defaults; None when the arguments
      are not a map. */
  function ParseArgs(args: Dyn): (r: Option<WidgetFields>)
    ensures r.Some? <==> args.DMap?
    ensures r.Some? ==>
      var m, f := args.fields, r.value;
      && (Arg(m, "streakCount").DInt? ==> f.streakCount == ToInt32(Arg(m, "streakCount").i))
      && (!Arg(m, "streakCount").DInt? ==> f.streakCount == 0)
      && (f.todayCompleted <==> Arg(m, "todayCompleted") == DBool(true))
      && f.habitName == (if Arg(m, "habitName").DStr? then Arg(m, "habitName").s else "Streakly")
      && f.nextReminder == (if Arg(m, "nextReminder").DStr? then Arg(m, "nextReminder").s else "")
      && (Arg(m, "habitColor").DInt? ==> f.habitColor == ToInt32(Arg(m, "habitColor").i))
      && (!Arg(m, "habitColor").DInt? ==> f.habitColor == -1)
      && (Arg(m, "habitIcon").DInt? ==> f.habitIcon == ToInt32(Arg(m, "habitIcon").i))
      && (!Arg(m, "habitIcon").DInt? ==> f.habitIcon == -1)
      && f.mode == (if Arg(m, "mode").DStr? then Arg(m, "mode").s else "all")
      && (f.habitId.Some? <==> Arg(m, "habitId").DStr?)
      && (f.habitId.Some? ==> f.habitId.value == Arg(m, "habitId").s)
      && (Arg(m, "calendar").DList? ==> f.calendar == NormaliseCalendar(Arg(m, "calendar").items))
      && (!Arg(m, "calendar").DList? ==> f.calendar == [])
    ensures r.Some? ==> InInt32(r.value.streakCount) && InInt32(r.value.habitColor) && InInt32(r.value.habitIcon)
  {
    match args
    case DMap(m) =>
      var calendar := if Arg(m, "calendar").DList? then NormaliseCalendar(Arg(m, "calendar").items) else [];
      Some(WidgetFields(
        IntArg(m, "streakCount", 0),
        BoolArg(m, "todayCompleted", false),
        StrArg(m, "habitName").GetOr("Streakly"),
        StrArg(m, "nextReminder").GetOr(""),
        IntArg(m, "habitColor", -1),
        IntArg(m, "habitIcon", -1),
        StrArg(m, "mode").GetOr("all"),
        StrArg(m, "habitId"),
        calendar))
    case _ => None
  }

  /** How a normalised entry reads back from the JSON document `{"day": ..., "done": ...}`. */
  function EntryItem(e: DayEntry): DayItem {
    DayObject(Some(e.day), Some(e.done))
  }

  function CalendarDocument(entries: seq<DayEntry>): (r: seq<DayItem>)
    ensures |r| == |entries|
    ensures forall i :: 0 <= i < |entries| ==> r[i] == EntryItem(entries[i])
  {
    seq(|entries|, i requires 0 <= i < |entries| => EntryItem(entries[i]))
  }

  const WrittenKeys: set<string> := {StreakCountKey, TodayCompletedKey, HabitNameKey,
    NextReminderKey, HabitColorKey, HabitIconKey, ModeKey, HabitIdKey, CalendarKey}

  /** The store after `updateWidget` persisted `f`: every written key overwritten, an absent
      habit id removed, the calendar exactly `{"days": normalised}`, nothing else touched. */
  function WriteFields(s: Store, f: WidgetFields): (r: Store)
    ensures WrittenKeys - {HabitIdKey} <= r.Keys
    ensures r[StreakCountKey] == IntV(f.streakCount) && r[TodayCompletedKey] == BoolV(f.todayCompleted)
    ensures r[HabitNameKey] == StrV(f.habitName) && r[NextReminderKey] == StrV(f.nextReminder)
    ensures r[HabitColorKey] == IntV(f.habitColor) && r[HabitIconKey] == IntV(f.habitIcon)
    ensures r[ModeKey] == StrV(f.mode)
    ensures f.habitId.Some? ==> HabitIdKey in r && r[HabitIdKey] == StrV(f.habitId.value)
    ensures f.habitId.None? ==> HabitIdKey !in r
    ensures r[CalendarKey] == DaysJsonV(CalendarDocument(f.calendar))
    ensures forall k :: k !in WrittenKeys ==> (k in r <==> k in s)
    ensures forall k :: k !in WrittenKeys && k in s ==> r[k] == s[k]
  {
    var fields := s[StreakCountKey := IntV(f.streakCount)]
                   [TodayCompletedKey := BoolV(f.todayCompleted)]
                   [HabitNameKey := StrV(f.habitName)]
                   [NextReminderKey := StrV(f.nextReminder)]
                   [HabitColorKey := IntV(f.habitColor)]
                   [HabitIconKey := IntV(f.habitIcon)]
                   [ModeKey := StrV(f.mode)];
    var withId := if f.habitId.Some? then fields[HabitIdKey := StrV(f.habitId.value)] else fields - {HabitIdKey};
    withId[CalendarKey := DaysJsonV(CalendarDocument(f.calendar))]
  }

  /** Writing keeps every key at its declared type. */
  lemma WriteKeepsWellTyped(s: Store, f: WidgetFields)
    requires WellTyped(s)
    ensures WellTyped(WriteFields(s, f))
  {
    var r := WriteFields(s, f);
    forall k | k in r && k !in WrittenKeys
      ensures k in s && r[k] == s[k]
    {
    }
  }

  /** The default-filled snapshot `getWidgetData` builds. */
  datatype Snapshot = Snapshot(
    streakCount: int,
    todayCompleted: bool,
    habitName: string,
    nextReminder: string,
    habitColor: int,
    mode: string,
    habitId: Option<string>)

  /** None of the eight getters of `getWidgetData` finds a value of another type. */
  predicate SnapshotReadable(s: Store) {
    && IntReadable(s, StreakCountKey) && BoolReadable(s, TodayCompletedKey)
    && StringReadable(s, HabitNameKey) && StringReadable(s, NextReminderKey)
    && IntReadable(s, HabitColorKey) && StringReadable(s, ModeKey)
    && StringReadable(s, HabitIdKey) && IntReadable(s, HabitIconKey)
  }

  /** The eight reads of `getWidgetData` (habitIcon among them); None when one of them
      finds a value of another type and throws. A stored key reads as its value, an absent
      one as its default. */
  function ReadSnapshot(s: Store): (r: Option<Snapshot>)
    ensures r.Some? <==> SnapshotReadable(s)
    ensures WellTyped(s) ==> r.Some?
    ensures r.Some? && StreakCountKey in s ==> s[StreakCountKey] == IntV(r.value.streakCount)
    ensures r.Some? && TodayCompletedKey in s ==> s[TodayCompletedKey] == BoolV(r.value.todayCompleted)
    ensures r.Some? && HabitNameKey in s ==> s[HabitNameKey] == StrV(r.value.habitName)
    ensures r.Some? && NextReminderKey in s ==> s[NextReminderKey] == StrV(r.value.nextReminder)
    ensures r.Some? && HabitColorKey in s ==> s[HabitColorKey] == IntV(r.value.habitColor)
    ensures r.Some? && ModeKey in s ==> s[ModeKey] == StrV(r.value.mode)
    ensures r.Some? ==> (r.value.habitId.Some? <==> HabitIdKey in s)
    ensures r.Some? && HabitIdKey in s ==> s[HabitIdKey] == StrV(r.value.habitId.value)
    ensures r.Some? && StreakCountKey !in s ==> r.value.streakCount == 0
    ensures r.Some? && TodayCompletedKey !in s ==> !r.value.todayCompleted
    ensures r.Some? && HabitNameKey !in s ==> r.value.habitName == "Streakly"
    ensures r.Some? && NextReminderKey !in s ==> r.value.nextReminder == ""
    ensures r.Some? && HabitColorKey !in s ==> r.value.habitColor == -1
    ensures r.Some? && ModeKey !in s ==> r.value.mode == "all"
    ensures r.Some? && HabitIdKey !in s ==> r.value.habitId == None
  {
    var streakCount := IntPref(s, StreakCountKey, 0);
    var todayCompleted := BoolPref(s, TodayCompletedKey, false);
    var habitName := StringPrefOr(s, HabitNameKey, "Streakly");
    var nextReminder := StringPrefOr(s, NextReminderKey, "");
    var habitColor := IntPref(s, HabitColorKey, -1);
    var mode := StringPrefOr(s, ModeKey, "all");
    var habitId := StringPref(s, HabitIdKey, None);
    var habitIcon := IntPref(s, HabitIconKey, -1);
    if streakCount.Some? && todayCompleted.Some? && habitName.Some? && nextReminder.Some?
      && habitColor.Some? && mode.Some? && habitId.Some? && habitIcon.Some?
    then
      Some(Snapshot(streakCount.value, todayCompleted.value, habitName.value, nextReminder.value,
                    habitColor.value, mode.value, habitId.value))
    else None
  }

  const SnapshotKeys: set<string> := {StreakCountKey, TodayCompletedKey, HabitNameKey,
    NextReminderKey, HabitColorKey, ModeKey, HabitIdKey}

  /** The map handed back to the app; `habitId` maps to null when there is none. */
  function SnapshotData(sn: Snapshot): map<string, Dyn> {
    map[
      StreakCountKey := DInt(sn.streakCount),
      TodayCompletedKey := DBool(sn.todayCompleted),
      HabitNameKey := DStr(sn.habitName),
      NextReminderKey := DStr(sn.nextReminder),
      HabitColorKey := DInt(sn.habitColor),
      ModeKey := DStr(sn.mode),
      HabitIdKey := if sn.habitId.Some? then DStr(sn.habitId.value) else DNull]
  }

  /** A stored value as it goes back over the channel. */
  function AsDyn(v: Value): Dyn {
    match v
    case IntV(i) => DInt(i)
    case BoolV(b) => DBool(b)
    case StrV(t) => DStr(t)
    case DaysJsonV(_) => DNull
  }

  /** The reply value for `key`: what is stored, else `default`. */
  function StoredOr(s: Store, key: string, default: Dyn): Dyn {
    if key in s then AsDyn(s[key]) else default
  }

  /** A reply on the method channel. `Thrown`: the handler raised an exception. */
  datatype Reply = Success(result: Dyn) | Error(code: string, message: string) | Thrown

  /** What `getWidgetData` replies for a given store. */
  function WidgetData(s: Store): (r: Reply)
    ensures r.Success? || r.Thrown?
    ensures r.Thrown? <==> !SnapshotReadable(s)
    ensures WellTyped(s) ==> r.Success?
    ensures r.Success? ==> r.result.DMap? && r.result.fields.Keys == SnapshotKeys
    ensures r.Success? ==> HabitIconKey !in r.result.fields
    ensures r.Success? ==>
      var m := r.result.fields;
      && m[StreakCountKey] == StoredOr(s, StreakCountKey, DInt(0))
      && m[TodayCompletedKey] == StoredOr(s, TodayCompletedKey, DBool(false))
      && m[HabitNameKey] == StoredOr(s, HabitNameKey, DStr("Streakly"))
      && m[NextReminderKey] == StoredOr(s, NextReminderKey, DStr(""))
      && m[HabitColorKey] == StoredOr(s, HabitColorKey, DInt(-1))
      && m[ModeKey] == StoredOr(s, ModeKey, DStr("all"))
      && m[HabitIdKey] == StoredOr(s, HabitIdKey, DNull)
  {
    match ReadSnapshot(s)
    case Some(sn) =>
      Success(DMap(SnapshotData(sn)))
    case None => Thrown
  }

  /** The update broadcast is sent to the widget ids only when there are some. */
  function UpdateBroadcast(widgetIds: Option<seq<int>>): Option<seq<int>> {
    if widgetIds.Some? && |widgetIds.value| > 0 then widgetIds else None
  }

  /** `updateWidget`. `widgetIds` is what `getAppWidgetIds` returns (None for null);
      `broadcast` is the id list of the ACTION_APPWIDGET_UPDATE broadcast, if one is sent. */
  method UpdateWidget(prefs: Prefs, args: Dyn, widgetIds: Option<seq<int>>)
    returns (reply: Reply, broadcast: Option<seq<int>>)
    modifies prefs
    ensures !args.DMap? ==>
      && reply == Error("BAD_ARGS", "Arguments map expected")
      && broadcast == None
      && prefs.entries == old(prefs.entries)
    ensures args.DMap? ==>
      && reply == Success(DBool(true))
      && broadcast == UpdateBroadcast(widgetIds)
      && (broadcast.Some? <==> widgetIds.Some? && |widgetIds.value| > 0)
      && prefs.entries == WriteFields(old(prefs.entries), ParseArgs(args).value)
  {
    var fields := ParseArgs(args);
    if fields.Some? {
      // One editor batch, written as its puts in the same order.
      var f := fields.value;
      prefs.Put(StreakCountKey, IntV(f.streakCount));
      prefs.Put(TodayCompletedKey, BoolV(f.todayCompleted));
      prefs.Put(HabitNameKey, StrV(f.habitName));
      prefs.Put(NextReminderKey, StrV(f.nextReminder));
      prefs.Put(HabitColorKey, IntV(f.habitColor));
      prefs.Put(HabitIconKey, IntV(f.habitIcon));
      prefs.Put(ModeKey, StrV(f.mode));
      if f.habitId.Some? {
        prefs.Put(HabitIdKey, StrV(f.habitId.value));
      } else {
        prefs.Remove(HabitIdKey);
      }
      prefs.Put(CalendarKey, DaysJsonV(CalendarDocument(f.calendar)));
      broadcast := UpdateBroadcast(widgetIds);
      reply := Success(DBool(true));
    } else {
      reply := Error("BAD_ARGS", "Arguments map expected");
      broadcast := None;
    }
  }

  /** `refreshWidget`: only the broadcast; always a success. */
  method RefreshWidget(widgetIds: Option<seq<int>>) returns (reply: Reply, broadcast: Option<seq<int>>)
    ensures reply == Success(DBool(true))
    ensures broadcast.Some? <==> widgetIds.Some? && |widgetIds.value| > 0
    ensures broadcast.Some? ==> broadcast == widgetIds
  {
    broadcast := UpdateBroadcast(widgetIds);
    reply := Success(DBool(true));
  }

  /** `clearWidgetData`: empties the preference file. */
  method ClearWidgetData(prefs: Prefs) returns (reply: Reply)
    modifies prefs
    ensures prefs.entries == map[]
    ensures reply == Success(DBool(true))
  {
    prefs.Clear();
    reply := Success(DBool(true));
  }

  /** `getWidgetData`: reads the store and changes nothing. */
  method GetWidgetData(prefs: Prefs) returns (reply: Reply)
    ensures reply == WidgetData(prefs.entries)
    ensures WellTyped(prefs.entries) ==> reply.Success? && HabitIconKey !in reply.result.fields
  {
    reply := WidgetData(prefs.entries);
  }

  /** Write then read: after a successful `updateWidget`, `getWidgetData` gives back the
      written streak count, completion flag, name, reminder, colour, mode and habit id,
      whatever the store held before. */
  lemma UpdateThenGet(s: Store, args: Dyn)
    requires args.DMap?
    ensures var f := ParseArgs(args).value;
      WidgetData(WriteFields(s, f)) == Success(DMap(map[
        StreakCountKey := DInt(f.streakCount),
        TodayCompletedKey := DBool(f.todayCompleted),
        HabitNameKey := DStr(f.habitName),
        NextReminderKey := DStr(f.nextReminder),
        HabitColorKey := DInt(f.habitColor),
        ModeKey := DStr(f.mode),
        HabitIdKey := if f.habitId.Some? then DStr(f.habitId.value) else DNull]))
  {
    var f := ParseArgs(args).value;
    var r := WriteFields(s, f);
    assert IntPref(r, StreakCountKey, 0) == Some(f.streakCount);
    assert BoolPref(r, TodayCompletedKey, false) == Some(f.todayCompleted);
    assert StringPrefOr(r, HabitNameKey, "Streakly") == Some(f.habitName);
    assert StringPrefOr(r, NextReminderKey, "") == Some(f.nextReminder);
    assert IntPref(r, HabitColorKey, -1) == Some(f.habitColor);
    assert StringPrefOr(r, ModeKey, "all") == Some(f.mode);
    assert StringPref(r, HabitIdKey, None) == Some(f.habitId);
    assert IntPref(r, HabitIconKey, -1) == Some(f.habitIcon);
    assert ReadSnapshot(r) == Some(Snapshot(f.streakCount, f.todayCompleted, f.habitName,
      f.nextReminder, f.habitColor, f.mode, f.habitId));
  }

  /** Clear then read: every field comes back as its default. */
  lemma ClearThenGet()
    ensures WidgetData(map[]) == Success(DMap(map[
      StreakCountKey := DInt(0),
      TodayCompletedKey := DBool(false),
      HabitNameKey := DStr("Streakly"),
      NextReminderKey := DStr(""),
      HabitColorKey := DInt(-1),
      ModeKey := DStr("all"),
      HabitIdKey := DNull]))
  {
  }
}
