/**
 * Day-of-year schedules as the input scripts build them: a column starts with a
 * constant (or NaN, here `None`), then, for every year from the first to the last
 * year of the date index, a list of masked assignments is applied in order, each
 * writing one value on the dates between two (month, day) bounds of that year.
 * Where two ranges overlap, the later assignment wins.
 */
module Calendar {
  import opened Wrappers

  datatype Date = Date(year: int, month: int, day: int)

  /** Calendar order: year, then month, then day. */
  predicate NotAfter(a: Date, b: Date) {
    a.year < b.year || (a.year == b.year && (a.month < b.month || (a.month == b.month && a.day <= b.day)))
  }

  /** Days in a month of a leap year, so that every day a date index can hold is valid. */
  function DaysInMonth(month: int): int {
    if month == 2 then 29 else if month in {4, 6, 9, 11} then 30 else 31
  }

  predicate ValidDate(dt: Date) {
    1 <= dt.month <= 12 && 1 <= dt.day <= DaysInMonth(dt.month)
  }

  /** One masked assignment of a year loop: from (fromMonth, fromDay) to (toMonth, toDay), both inclusive. */
  datatype RangeWrite = RangeWrite(fromMonth: int, fromDay: int, toMonth: int, toDay: int, value: real)

  /** The row mask of `w` in the pass for year `yr`: `date(yr, from) <= dt <= date(yr, to)`. */
  predicate Selects(w: RangeWrite, yr: int, dt: Date) {
    NotAfter(Date(yr, w.fromMonth, w.fromDay), dt) && NotAfter(dt, Date(yr, w.toMonth, w.toDay))
  }

  /** Whether `w` selects `dt` in the pass for `dt`'s own year. */
  predicate Covers(w: RangeWrite, dt: Date) {
    Selects(w, dt.year, dt)
  }

  /** A pass for year `yr` selects only dates of that year, and those its range covers. */
  lemma SelectsOwnYearOnly(w: RangeWrite, yr: int, dt: Date)
    ensures Selects(w, yr, dt) <==> dt.year == yr && Covers(w, dt)
  {
  }

  /** The value a cell holding `init` ends with once the writes `ws` of its year are applied in order. */
  function ValueAt(ws: seq<RangeWrite>, init: Option<real>, dt: Date): (r: Option<real>)
    ensures r == init || exists j :: 0 <= j < |ws| && Covers(ws[j], dt) && r == Some(ws[j].value)
  {
    if |ws| == 0 then init
    else if Covers(ws[|ws| - 1], dt) then Some(ws[|ws| - 1].value)
    else
      assert forall j :: 0 <= j < |ws| - 1 ==> ws[..|ws| - 1][j] == ws[j];
      ValueAt(ws[..|ws| - 1], init, dt)
  }

  /** The last write covering a date decides its value. */
  lemma {:induction false} LaterWriteWins(ws: seq<RangeWrite>, init: Option<real>, dt: Date, k: nat)
    requires k < |ws| && Covers(ws[k], dt)
    requires forall j :: k < j < |ws| ==> !Covers(ws[j], dt)
    ensures ValueAt(ws, init, dt) == Some(ws[k].value)
  {
    if k < |ws| - 1 {
      LaterWriteWins(ws[..|ws| - 1], init, dt, k);
    }
  }

  /** A date no write covers keeps its initial value. */
  lemma {:induction false} UncoveredKeepsInitial(ws: seq<RangeWrite>, init: Option<real>, dt: Date)
    requires forall j :: 0 <= j < |ws| ==> !Covers(ws[j], dt)
    ensures ValueAt(ws, init, dt) == init
  {
    if |ws| > 0 {
      UncoveredKeepsInitial(ws[..|ws| - 1], init, dt);
    }
  }

  /** A cell ends with a value when it started with one or some write covers it, and only then. */
  lemma {:induction false} ValueAtDefined(ws: seq<RangeWrite>, init: Option<real>, dt: Date)
    ensures ValueAt(ws, init, dt).Some? <==> init.Some? || exists j :: 0 <= j < |ws| && Covers(ws[j], dt)
  {
    if |ws| > 0 {
      var front := ws[..|ws| - 1];
      ValueAtDefined(front, init, dt);
      if exists j :: 0 <= j < |ws| && Covers(ws[j], dt) {
        var j :| 0 <= j < |ws| && Covers(ws[j], dt);
        assert j < |ws| - 1 ==> front[j] == ws[j];
      }
    }
  }

  /** The writes of `ws` together cover every valid day of the year. */
  ghost predicate CoversYear(ws: seq<RangeWrite>) {
    forall dt: Date :: ValidDate(dt) ==> exists j :: 0 <= j < |ws| && Covers(ws[j], dt)
  }

  /** A column: its constant (or `None`) and the writes of every year pass. */
  datatype Schedule = Schedule(init: Option<real>, writes: seq<RangeWrite>)

  /** The column a schedule produces on a date index. */
  function ScheduleColumn(s: Schedule, dates: seq<Date>): (col: seq<Option<real>>)
    ensures |col| == |dates|
  {
    seq(|dates|, i requires 0 <= i < |dates| => ValueAt(s.writes, s.init, dates[i]))
  }

  /** A schedule with a constant, or whose writes cover the whole year, leaves no NaN on valid dates. */
  lemma ScheduleColumnDefined(s: Schedule, dates: seq<Date>)
    requires s.init.Some? || CoversYear(s.writes)
    requires forall i :: 0 <= i < |dates| ==> ValidDate(dates[i])
    ensures forall i :: 0 <= i < |dates| ==> ScheduleColumn(s, dates)[i].Some?
  {
    forall i | 0 <= i < |dates|
      ensures ScheduleColumn(s, dates)[i].Some?
    {
      ValueAtDefined(s.writes, s.init, dates[i]);
    }
  }

  /** One masked `.at` assignment of the pass for year `yr`. */
  method WriteRange(dates: seq<Date>, col: array<Option<real>>, yr: int, w: RangeWrite)
    requires col.Length == |dates|
    modifies col
    ensures forall i :: 0 <= i < col.Length ==> col[i] == (if Selects(w, yr, dates[i]) then Some(w.value) else old(col[i]))
  {
    for i := 0 to col.Length
      invariant forall j :: 0 <= j < i ==> col[j] == (if Selects(w, yr, dates[j]) then Some(w.value) else old(col[j]))
      invariant forall j :: i <= j < col.Length ==> col[j] == old(col[j])
    {
      if Selects(w, yr, dates[i]) {
        col[i] := Some(w.value);
      }
    }
  }

  /** The pass for year `yr`: every write in order; dates of other years are untouched. */
  method WriteYear(dates: seq<Date>, col: array<Option<real>>, yr: int, ws: seq<RangeWrite>)
    requires col.Length == |dates|
    modifies col
    ensures forall i :: 0 <= i < col.Length ==>
      col[i] == (if dates[i].year == yr then ValueAt(ws, old(col[i]), dates[i]) else old(col[i]))
  {
    ghost var init := col[..];
    for k := 0 to |ws|
      invariant forall i :: 0 <= i < col.Length ==>
        col[i] == (if dates[i].year == yr then ValueAt(ws[..k], init[i], dates[i]) else init[i])
    {
      WriteRange(dates, col, yr, ws[k]);
      assert ws[..k + 1][..k] == ws[..k];
      forall i | 0 <= i < col.Length
        ensures col[i] == (if dates[i].year == yr then ValueAt(ws[..k + 1], init[i], dates[i]) else init[i])
      {
        SelectsOwnYearOnly(ws[k], yr, dates[i]);
      }
    }
    assert ws[..|ws|] == ws;
  }

  /**
   * The year loop of a schedule: one pass per year from the smallest to the largest
   * year of the index. An empty index has no smallest year and fails.
   */
  method FillSchedule(dates: seq<Date>, col: array<Option<real>>, ws: seq<RangeWrite>) returns (ok: bool)
    requires col.Length == |dates|
    modifies col
    ensures ok <==> |dates| > 0
    ensures forall i :: 0 <= i < col.Length ==> col[i] == ValueAt(ws, old(col[i]), dates[i])
  {
    if |dates| == 0 {
      return false;
    }
    var first, last := dates[0].year, dates[0].year;
    for i := 1 to |dates|
      invariant forall j :: 0 <= j < i ==> first <= dates[j].year <= last
    {
      if dates[i].year < first {
        first := dates[i].year;
      }
      if dates[i].year > last {
        last := dates[i].year;
      }
    }
    ghost var init := col[..];
    var yr := first;
    while yr <= last
      invariant first <= yr <= last + 1
      invariant forall i :: 0 <= i < col.Length ==>
        col[i] == (if dates[i].year < yr then ValueAt(ws, init[i], dates[i]) else init[i])
    {
      WriteYear(dates, col, yr, ws);
      yr := yr + 1;
    }
    return true;
  }

  /** A column built the way the scripts build it: the constant first, then the year loop. */
  method BuildColumn(s: Schedule, dates: seq<Date>) returns (r: Result<seq<Option<real>>, Error>)
    ensures r.Success? <==> |dates| > 0
    ensures r.Failure? ==> r.error == EmptyIndex
    ensures r.Success? ==> r.value == ScheduleColumn(s, dates)
  {
    var col := new Option<real>[|dates|](_ => s.init);
    var ok := FillSchedule(dates, col, s.writes);
    if !ok {
      return Failure(EmptyIndex);
    }
    return Success(col[..]);
  }
}
