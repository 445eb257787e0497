/** How the two sides meet in the preference file: what the widget shows after the app
    writes or clears the state, and why no read ever throws in practice. */
module WidgetSync {
  import opened Basics
  import opened WidgetPrefs
  import opened WidgetChannel
  import opened WidgetRenderer

  /** The cell the widget shows for position i of a normalised calendar. */
  function ExpectedCell(entries: seq<DayEntry>, i: nat): Cell {
    if i < |entries| then
      Cell(Some(if IsBlank(entries[i].day) then Decimal(i + 1) else entries[i].day),
           Some(if entries[i].done then DoneBackground else TodoBackground),
           Some(White))
    else EmptyCell
  }

  /** After an update and the seeding, the renderer reads back exactly what was written,
      and the calendar as the document of the normalised entries. */
  lemma WrittenStateReadsBack(s: Store, f: WidgetFields)
    ensures ReadWidgetState(Seeded(WriteFields(s, f))) == Some(WidgetState(f.streakCount,
      f.todayCompleted, f.nextReminder, f.habitName, f.habitColor, f.habitIcon,
      Some(CalendarDocument(f.calendar))))
  {
    var s1 := Seeded(WriteFields(s, f));
    assert CalendarPref(s1) == Some(Some(CalendarDocument(f.calendar)));
  }

  /** The calendar document of normalised entries, applied to a fresh layout, shows
      `ExpectedCell` in every cell. */
  lemma DocumentCells(entries: seq<DayEntry>, i: nat)
    requires i < DayCellCount
    ensures CalendarCells(LayoutCells(), Some(CalendarDocument(entries)))[i] == ExpectedCell(entries, i)
    ensures ExpectedCell(entries, i) != LayoutCell
  {
    CalendarRules(LayoutCells(), Some(CalendarDocument(entries)), i);
  }

  /** Update then render: the icon follows todayCompleted, the name is shown iff not blank,
      cell i < min(35, n) shows entry i's day (or i + 1 when blank) in its done or todo
      style, and every later cell is empty. Every cell is set by the view tree, because every
      normalised entry is an object. */
  lemma UpdateThenRender(s: Store, args: Dyn)
    requires args.DMap?
    ensures Render(Seeded(WriteFields(s, ParseArgs(args).value))).Some?
    ensures var f, fr := ParseArgs(args).value, Render(Seeded(WriteFields(s, ParseArgs(args).value))).value;
      && fr.completedIcon == Some(if f.todayCompleted then Visible else Gone)
      && fr.habitNameVisibility == Some(if IsBlank(f.habitName) then Gone else Visible)
      && (!IsBlank(f.habitName) ==> fr.habitNameText == Some(f.habitName))
      && |fr.cells| == DayCellCount
      && (forall i :: 0 <= i < DayCellCount ==> fr.cells[i] == ExpectedCell(f.calendar, i))
      && (forall i :: 0 <= i < DayCellCount ==> fr.cells[i] != LayoutCell)
  {
    var f := ParseArgs(args).value;
    WrittenStateReadsBack(s, f);
    var cells := Render(Seeded(WriteFields(s, f))).value.cells;
    assert cells == CalendarCells(LayoutCells(), Some(CalendarDocument(f.calendar)));
    forall i | 0 <= i < DayCellCount
      ensures cells[i] == ExpectedCell(f.calendar, i) && cells[i] != LayoutCell
    {
      DocumentCells(f.calendar, i);
    }
  }

  /** Clear then render: icon and name hidden, and with no calendar document the view tree
      sets nothing on any cell. (The renderer's name default is "", where `getWidgetData`
      reports "Streakly".) */
  lemma ClearThenRender()
    ensures Render(Seeded(map[])) == Some(Frame(LayoutCells(), Some(Gone), Some(Gone), None))
  {
    assert IsBlank("");
  }

  /** The operations that touch the preference file. */
  datatype Op =
    | UpdateOp(args: Dyn)   // updateWidget
    | ClearOp               // clearWidgetData
    | RenderOp              // one updateAppWidget

  function Step(s: Store, op: Op): Store {
    match op
    case UpdateOp(args) => if args.DMap? then WriteFields(s, ParseArgs(args).value) else s
    case ClearOp => map[]
    case RenderOp => Seeded(s)
  }

  function Run(s: Store, ops: seq<Op>): Store
    decreases |ops|
  {
    if ops == [] then s else Run(Step(s, ops[0]), ops[1..])
  }

  /** Every operation keeps each key at its declared type. */
  lemma {:induction false} RunKeepsWellTyped(s: Store, ops: seq<Op>)
    requires WellTyped(s)
    ensures WellTyped(Run(s, ops))
    decreases |ops|
  {
    if ops != [] {
      match ops[0] {
        case UpdateOp(args) =>
          if args.DMap? {
            WriteKeepsWellTyped(s, ParseArgs(args).value);
          }
        case ClearOp =>
        case RenderOp =>
          SeedingKeepsWellTyped(s);
      }
      RunKeepsWellTyped(Step(s, ops[0]), ops[1..]);
    }
  }

  /** Starting from an empty file, no read of the widget or of `getWidgetData` ever throws. */
  lemma ReadsNeverThrow(ops: seq<Op>)
    ensures Render(Seeded(Run(map[], ops))).Some?
    ensures WidgetData(Run(map[], ops)).Success?
  {
    RunKeepsWellTyped(map[], ops);
    SeedingKeepsWellTyped(Run(map[], ops));
  }
}
