/** The "streakly_widget" SharedPreferences file: one flat key-value namespace shared by the
    app's widget channel (writer) and the widget provider (reader). */
module WidgetPrefs {
  import opened Basics

  /** One element of the `days` array of a calendar document, as the widget reads it:
      `optJSONObject(i)` gives no object, or an object whose `optString("day")` and
      `optBoolean("done")` give a string or a boolean when the key is there and usable. */
  datatype DayItem = NotObject | DayObject(day: Option<string>, done: Option<bool>)

  /** A stored preference value. `DaysJsonV` is the String the app writes under "calendar":
      the text of the JSON document `{"days": [...]}`, kept here in its parsed shape. */
  datatype Value =
    | IntV(i: int)
    | BoolV(b: bool)
    | StrV(s: string)
    | DaysJsonV(days: seq<DayItem>)

  type Store = map<string, Value>

  // Typed getters. A key that is absent gives the default; a key holding a value of
  // another type makes the Android getter throw a ClassCastException, modelled as None.

  /** `getInt` returns instead of throwing: the key is absent or holds an Int. */
  predicate IntReadable(s: Store, key: string) {
    key in s ==> s[key].IntV?
  }

  predicate BoolReadable(s: Store, key: string) {
    key in s ==> s[key].BoolV?
  }

  predicate StringReadable(s: Store, key: string) {
    key in s ==> s[key].StrV?
  }

  function IntPref(s: Store, key: string, default: int): (r: Option<int>)
    ensures r.Some? <==> IntReadable(s, key)
    ensures r.Some? ==> r.value == if key in s then s[key].i else default
  {
    if key !in s then Some(default)
    else if s[key].IntV? then Some(s[key].i)
    else None
  }

  function BoolPref(s: Store, key: string, default: bool): (r: Option<bool>)
    ensures r.Some? <==> BoolReadable(s, key)
    ensures r.Some? ==> r.value == if key in s then s[key].b else default
  {
    if key !in s then Some(default)
    else if s[key].BoolV? then Some(s[key].b)
    else None
  }

  /** `getString(key, default)`, with `default` possibly null (None). */
  function StringPref(s: Store, key: string, default: Option<string>): (r: Option<Option<string>>)
    ensures r.Some? <==> StringReadable(s, key)
    ensures r.Some? ==> r.value == if key in s then Some(s[key].s) else default
  {
    if key !in s then Some(default)
    else if s[key].StrV? then Some(Some(s[key].s))
    else None
  }

  /** `getString(key, default)` with a non-null default. */
  function StringPrefOr(s: Store, key: string, default: string): (r: Option<string>)
    ensures r.Some? <==> StringReadable(s, key)
    ensures r.Some? ==> r.value == if key in s then s[key].s else default
  {
    match StringPref(s, key, Some(default))
    case Some(Some(v)) => Some(v)
    case _ => None
  }

  // The keys the app uses.
  const StreakCountKey := "streakCount"
  const TodayCompletedKey := "todayCompleted"
  const HabitNameKey := "habitName"
  const NextReminderKey := "nextReminder"
  const HabitColorKey := "habitColor"
  const HabitIconKey := "habitIcon"
  const ModeKey := "mode"
  const HabitIdKey := "habitId"
  const CalendarKey := "calendar"
  const InitializedKey := "initialized"

  /** The type each key of the namespace is written with. */
  predicate WellTyped(s: Store) {
    (forall k :: k in s && k in {StreakCountKey, HabitColorKey, HabitIconKey} ==> s[k].IntV?)
    && (forall k :: k in s && k in {TodayCompletedKey, InitializedKey} ==> s[k].BoolV?)
    && (forall k :: k in s && k in {HabitNameKey, NextReminderKey, ModeKey, HabitIdKey} ==> s[k].StrV?)
    && (CalendarKey in s ==> s[CalendarKey].StrV? || s[CalendarKey].DaysJsonV?)
  }

  /** The preference file as an object whose editor batches change it in place. */
  class Prefs {
    var entries: Store

    constructor ()
      ensures entries == map[]
    {
      entries := map[];
    }

    predicate Contains(key: string)
      reads this
    {
      key in entries
    }

    /** `putInt` / `putBoolean` / `putString` with a non-null value. */
    method Put(key: string, v: Value)
      modifies this
      ensures entries == old(entries)[key := v]
    {
      entries := entries[key := v];
    }

    /** `remove(key)`, and `putString(key, null)`. */
    method Remove(key: string)
      modifies this
      ensures entries == old(entries) - {key}
    {
      entries := entries - {key};
    }

    /** `edit().clear().apply()`: removes every key. */
    method Clear()
      modifies this
      ensures entries == map[]
    {
      entries := map[];
    }
  }
}
