/** StreaklyWidgetProvider: reads the "streakly_widget" preference file, seeds two missing
    keys, and renders the completion icon, the habit name and 35 calendar day cells. */
module WidgetRenderer {
  import opened Basics
  import opened WidgetPrefs

  /** The layout has exactly this many day cells (day1 .. day35). */
  const DayCellCount: nat := 35

  datatype Background = DoneBackground | TodoBackground | Transparent
  datatype TextColor = White
  datatype Visibility = Visible | Gone

  /** What a view of the widget shows: None is whatever the layout itself sets, which the
      renderer has not overridden. */
  datatype Cell = Cell(text: Option<string>, background: Option<Background>, textColor: Option<TextColor>)

  const LayoutCell := Cell(None, None, None)

  /** The day cells of a fresh view tree. */
  function LayoutCells(): (r: seq<Cell>)
    ensures |r| == DayCellCount
    ensures forall i :: 0 <= i < |r| ==> r[i] == LayoutCell
  {
    seq(DayCellCount, _ => LayoutCell)
  }

  /** An unused cell: no text, transparent, white text. */
  const EmptyCell := Cell(Some(""), Some(Transparent), Some(White))

  /** `obj.optString("day", (i + 1).toString()).ifBlank { (i + 1).toString() }` */
  function DayLabel(i: nat, day: Option<string>): (r: string)
    ensures day.Some? && !IsBlank(day.value) ==> r == day.value
    ensures day.None? || IsBlank(day.value) ==> r == Decimal(i + 1)
    ensures !IsBlank(r)
  {
    DecimalNotBlank(i + 1);
    var text := day.GetOr(Decimal(i + 1));
    if IsBlank(text) then Decimal(i + 1) else text
  }

  /** Cell i showing a calendar object: its label, the done or todo background by its
      `done` flag (false when missing), white text. */
  function DayCell(i: nat, day: Option<string>, done: Option<bool>): Cell {
    Cell(Some(DayLabel(i, day)), Some(if done.GetOr(false) then DoneBackground else TodoBackground), Some(White))
  }

  /** Cell i after one pass over `days`, given what it showed before. */
  function CalendarCell(before: Cell, i: nat, days: seq<DayItem>): Cell {
    if i < |days| then
      match days[i]
      case NotObject => before
      case DayObject(day, done) => DayCell(i, day, done)
    else EmptyCell
  }

  /** All cells after `applyCalendar`; `doc` is None when the stored text does not parse or
      has no `days` array. */
  function CalendarCells(before: seq<Cell>, doc: Option<seq<DayItem>>): seq<Cell> {
    match doc
    case None => before
    case Some(days) => seq(|before|, i requires 0 <= i < |before| => CalendarCell(before[i], i, days))
  }

  /** The per-cell rules of the calendar, and nothing changes without a document. */
  lemma CalendarRules(before: seq<Cell>, doc: Option<seq<DayItem>>, i: nat)
    requires i < |before|
    ensures |CalendarCells(before, doc)| == |before|
    ensures doc.None? ==> CalendarCells(before, doc)[i] == before[i]
    ensures doc.Some? && i >= |doc.value| ==> CalendarCells(before, doc)[i] == EmptyCell
    ensures doc.Some? && i < |doc.value| && doc.value[i].NotObject? ==> CalendarCells(before, doc)[i] == before[i]
    ensures doc.Some? && i < |doc.value| && doc.value[i].DayObject? ==>
      var item, c := doc.value[i], CalendarCells(before, doc)[i];
      && c.text == Some(if item.day.Some? && !IsBlank(item.day.value) then item.day.value else Decimal(i + 1))
      && (c.background == Some(DoneBackground) <==> item.done == Some(true))
      && (c.background != Some(DoneBackground) ==> c.background == Some(TodoBackground))
      && c.textColor == Some(White)
  {
  }

  /** Entries after the last cell never affect any cell. */
  lemma {:induction false} CalendarIgnoresTail(before: seq<Cell>, days: seq<DayItem>, extra: seq<DayItem>)
    requires |days| >= |before|
    ensures CalendarCells(before, Some(days + extra)) == CalendarCells(before, Some(days))
  {
    var r, q := CalendarCells(before, Some(days + extra)), CalendarCells(before, Some(days));
    forall i | 0 <= i < |before|
      ensures r[i] == q[i]
    {
      assert (days + extra)[i] == days[i];
    }
  }

  /** The widget's `RemoteViews`: the views the renderer sets. */
  class RemoteViews {
    var cells: array<Cell>
    var completedIcon: Option<Visibility>
    var habitNameVisibility: Option<Visibility>
    var habitNameText: Option<string>

    ghost predicate Valid()
      reads this
    {
      cells.Length == DayCellCount
    }

    /** A fresh view tree: everything as the layout has it. */
    constructor ()
      ensures Valid() && fresh(cells)
      ensures cells[..] == LayoutCells()
      ensures completedIcon == None && habitNameVisibility == None && habitNameText == None
    {
      cells := new Cell[DayCellCount](_ => LayoutCell);
      completedIcon, habitNameVisibility, habitNameText := None, None, None;
    }

    function Shown(): Frame
      reads this, cells
    {
      Frame(cells[..], completedIcon, habitNameVisibility, habitNameText)
    }
  }

  /** The content of a rendered view tree, as a value. */
  datatype Frame = Frame(
    cells: seq<Cell>,
    completedIcon: Option<Visibility>,
    habitNameVisibility: Option<Visibility>,
    habitNameText: Option<string>)

  /** `applyCalendar`: one pass over the 35 cells; an entry that is not an object leaves its
      cell as it was and the pass goes on. */
  method ApplyCalendar(views: RemoteViews, doc: Option<seq<DayItem>>)
    requires views.Valid()
    modifies views.cells
    ensures views.cells[..] == CalendarCells(old(views.cells[..]), doc)
  {
    if doc.None? {
      return;
    }
    var days := doc.value;
    var i := 0;
    while i < DayCellCount
      invariant 0 <= i <= DayCellCount
      invariant forall k :: 0 <= k < i ==> views.cells[k] == CalendarCell(old(views.cells[k]), k, days)
      invariant forall k :: i <= k < DayCellCount ==> views.cells[k] == old(views.cells[k])
    {
      if i < |days| {
        if days[i].NotObject? {
          i := i + 1;
          continue;
        }
        var dayText := DayLabel(i, days[i].day);
        var done := days[i].done.GetOr(false);
        var background := if done then DoneBackground else TodoBackground;
        views.cells[i] := Cell(Some(dayText), Some(background), Some(White));
      } else {
        views.cells[i] := EmptyCell;
      }
      i := i + 1;
    }
  }

  /** The store after a render's seeding: "mode" set to "all" and "initialized" to true,
      each only when absent; every other key as it was. */
  function Seeded(s: Store): (r: Store)
    ensures r.Keys == s.Keys + {ModeKey, InitializedKey}
    ensures forall k :: k in s ==> r[k] == s[k]
    ensures ModeKey !in s ==> r[ModeKey] == StrV("all")
    ensures InitializedKey !in s ==> r[InitializedKey] == BoolV(true)
  {
    var withMode := if ModeKey in s then s else s[ModeKey := StrV("all")];
    if InitializedKey in withMode then withMode else withMode[InitializedKey := BoolV(true)]
  }

  /** A second render finds both keys present and leaves the store unchanged. */
  lemma SeedingIdempotent(s: Store)
    ensures Seeded(Seeded(s)) == Seeded(s)
  {
  }

  /** Seeding keeps every key at its declared type. */
  lemma SeedingKeepsWellTyped(s: Store)
    requires WellTyped(s)
    ensures WellTyped(Seeded(s))
  {
  }

  method SeedDefaults(prefs: Prefs)
    modifies prefs
    ensures prefs.entries == Seeded(old(prefs.entries))
  {
    if !prefs.Contains(ModeKey) {
      prefs.Put(ModeKey, StrV("all"));
    }
    if !prefs.Contains(InitializedKey) {
      prefs.Put(InitializedKey, BoolV(true));
    }
  }

  /** What `updateAppWidget` reads from the store. */
  datatype WidgetState = WidgetState(
    streakCount: int,
    todayCompleted: bool,
    nextReminder: string,
    habitName: string,
    habitColor: int,
    habitIcon: int,
    calendar: Option<seq<DayItem>>)

  /** `getString("calendar", "")` followed by the JSON parse and `optJSONArray("days")`:
      outer None when the read throws, inner None when there is no days array (the
      default "" does not parse). */
  function CalendarPref(s: Store): Option<Option<seq<DayItem>>> {
    if CalendarKey !in s then Some(None)
    else match s[CalendarKey]
      case DaysJsonV(days) => Some(Some(days))
      case StrV(_) => Some(None)
      case _ => None
  }

  /** None of the seven getters of `updateAppWidget` finds a value of another type. */
  predicate WidgetStateReadable(s: Store) {
    && IntReadable(s, StreakCountKey) && BoolReadable(s, TodayCompletedKey)
    && StringReadable(s, NextReminderKey) && StringReadable(s, HabitNameKey)
    && IntReadable(s, HabitColorKey) && IntReadable(s, HabitIconKey)
    && (CalendarKey in s ==> s[CalendarKey].StrV? || s[CalendarKey].DaysJsonV?)
  }

  /** The seven reads of `updateAppWidget`, with the renderer's defaults; None exactly when
      one of them throws. */
  function ReadWidgetState(s: Store): (r: Option<WidgetState>)
    ensures r.Some? <==> WidgetStateReadable(s)
    ensures WellTyped(s) ==> r.Some?
  {
    var streakCount := IntPref(s, StreakCountKey, 0);
    var todayCompleted := BoolPref(s, TodayCompletedKey, false);
    var nextReminder := StringPrefOr(s, NextReminderKey, "");
    var habitName := StringPrefOr(s, HabitNameKey, "");
    var habitColor := IntPref(s, HabitColorKey, -1);
    var habitIcon := IntPref(s, HabitIconKey, -1);
    var calendar := CalendarPref(s);
    if streakCount.Some? && todayCompleted.Some? && nextReminder.Some? && habitName.Some?
      && habitColor.Some? && habitIcon.Some? && calendar.Some?
    then
      Some(WidgetState(streakCount.value, todayCompleted.value, nextReminder.value, habitName.value,
                       habitColor.value, habitIcon.value, calendar.value))
    else None
  }

  /** A stored key reads as its value and an absent one as the renderer's default; a stored
      calendar document gives its days, and any other stored string no document. */
  lemma ReadWidgetStateValues(s: Store)
    requires WidgetStateReadable(s)
    ensures var st := ReadWidgetState(s).value;
      && st.streakCount == (if StreakCountKey in s then s[StreakCountKey].i else 0)
      && st.todayCompleted == (if TodayCompletedKey in s then s[TodayCompletedKey].b else false)
      && st.nextReminder == (if NextReminderKey in s then s[NextReminderKey].s else "")
      && st.habitName == (if HabitNameKey in s then s[HabitNameKey].s else "")
      && st.habitColor == (if HabitColorKey in s then s[HabitColorKey].i else -1)
      && st.habitIcon == (if HabitIconKey in s then s[HabitIconKey].i else -1)
      && (CalendarKey in s && s[CalendarKey].DaysJsonV? ==> st.calendar == Some(s[CalendarKey].days))
      && (CalendarKey in s && s[CalendarKey].StrV? ==> st.calendar == None)
      && (CalendarKey !in s ==> st.calendar == None)
  {
  }

  /** What a render of an already seeded store shows; None when a read throws. */
  function Render(s: Store): (r: Option<Frame>)
    ensures r.Some? <==> ReadWidgetState(s).Some?
    ensures r.Some? ==> r.value.cells == CalendarCells(LayoutCells(), ReadWidgetState(s).value.calendar)
    ensures r.Some? ==> (r.value.completedIcon == Some(Visible) <==> ReadWidgetState(s).value.todayCompleted)
    ensures r.Some? ==> (r.value.completedIcon == Some(Gone) <==> !ReadWidgetState(s).value.todayCompleted)
    ensures r.Some? ==> (r.value.habitNameVisibility == Some(Visible) <==> !IsBlank(ReadWidgetState(s).value.habitName))
    ensures r.Some? ==> (r.value.habitNameVisibility == Some(Gone) <==> IsBlank(ReadWidgetState(s).value.habitName))
    ensures r.Some? ==>
      r.value.habitNameText == (if IsBlank(ReadWidgetState(s).value.habitName) then None else Some(ReadWidgetState(s).value.habitName))
  {
    match ReadWidgetState(s)
    case None => None
    case Some(st) =>
      var shown := !IsBlank(st.habitName);
      Some(Frame(
        CalendarCells(LayoutCells(), st.calendar),
        Some(if st.todayCompleted then Visible else Gone),
        Some(if shown then Visible else Gone),
        if shown then Some(st.habitName) else None))
  }

  /** `updateAppWidget`: seeds the store, reads it and builds the view tree; null when a
      read throws (nothing is then pushed). */
  method UpdateAppWidget(prefs: Prefs) returns (views: RemoteViews?)
    modifies prefs
    ensures prefs.entries == Seeded(old(prefs.entries))
    ensures views == null <==> Render(prefs.entries).None?
    ensures views != null ==> fresh(views) && fresh(views.cells) && views.Valid()
    ensures views != null ==> views.Shown() == Render(prefs.entries).value
  {
    SeedDefaults(prefs);
    var state := ReadWidgetState(prefs.entries);
    if state.None? {
      return null;
    }
    var st := state.value;
    views := new RemoteViews();
    views.completedIcon := Some(if st.todayCompleted then Visible else Gone);
    if !IsBlank(st.habitName) {
      views.habitNameText := Some(st.habitName);
      views.habitNameVisibility := Some(Visible);
    } else {
      views.habitNameVisibility := Some(Gone);
    }
    ApplyCalendar(views, st.calendar);
  }

  /** The OS side of `appWidgetManager.updateAppWidget(id, views)`: the view tree last
      pushed for each widget instance. */
  class WidgetManager {
    var shown: map<int, Frame>

    constructor ()
      ensures shown == map[]
    {
      shown := map[];
    }

    method Push(id: int, frame: Frame)
      modifies this
      ensures shown == old(shown)[id := frame]
    {
      shown := shown[id := frame];
    }
  }

  /** `onUpdate`: renders every instance in turn. All instances show the same frame; a
      read that throws stops the loop at the first instance. */
  method OnUpdate(prefs: Prefs, manager: WidgetManager, ids: seq<int>) returns (threw: bool)
    modifies prefs, manager
    ensures prefs.entries == if ids == [] then old(prefs.entries) else Seeded(old(prefs.entries))
    ensures threw <==> ids != [] && Render(Seeded(old(prefs.entries))).None?
    ensures threw ==> manager.shown == old(manager.shown)
    ensures !threw ==> forall id :: id in manager.shown <==> id in old(manager.shown) || id in ids
    ensures !threw ==> forall id :: id in ids ==> manager.shown[id] == Render(Seeded(old(prefs.entries))).value
    ensures !threw ==> forall id :: id in old(manager.shown) && id !in ids ==> manager.shown[id] == old(manager.shown)[id]
  {
    ghost var s0 := prefs.entries;
    ghost var frame := Render(Seeded(s0));
    SeedingIdempotent(s0);
    threw := false;
    var i := 0;
    while i < |ids|
      invariant 0 <= i <= |ids|
      invariant prefs.entries == if i == 0 then s0 else Seeded(s0)
      invariant i > 0 ==> frame.Some?
      invariant i == 0 ==> manager.shown == old(manager.shown)
      invariant forall id :: id in manager.shown <==> id in old(manager.shown) || id in ids[..i]
      invariant forall id :: id in ids[..i] ==> frame.Some? && manager.shown[id] == frame.value
      invariant forall id :: id in old(manager.shown) && id !in ids[..i] ==> manager.shown[id] == old(manager.shown)[id]
    {
      var views := UpdateAppWidget(prefs);
      assert prefs.entries == Seeded(s0);
      if views == null {
        threw := true;
        return;
      }
      assert views.Shown() == frame.value;
      manager.Push(ids[i], views.Shown());
      assert ids[..i + 1] == ids[..i] + [ids[i]];
      i := i + 1;
    }
    assert ids[..i] == ids;
  }
}
