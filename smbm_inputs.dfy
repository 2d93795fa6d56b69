/**
 * Inputs of the bucket model on the regular grid: the per-land-use crop
 * coefficient, pumping and return-flow calendars, RET = Kc * PET in mm, and the
 * per-cell values obtained by weighting every land-use column with the cell's
 * land-use percentage.
 *
 * A table is a map from column name to a daily series; a missing value (NaN) is
 * `None`, and NaN spreads through every sum and product it enters.
 */
module SmbmInputs {
  import opened Wrappers
  import opened Calendar
  import opened Schedules
  import opened Series
  import FineGridInputs

  /** Pumping (mm/day): no pumping for the perennial land uses, 7.7 for vegetables, calendars for rice. */
  function Pumping(landUse: string): (s: Schedule)
    ensures s.init.Some? <==> landUse in {"Scrub", "Tank", "Forest", "Fruit", "Urban", "Vegetable"}
    ensures s.writes != [] <==> landUse in {"PaddyR", "PaddyK"}
  {
    match landUse
    case "Scrub" => Schedule(Some(0.0), [])
    case "Tank" => Schedule(Some(0.0), [])
    case "Forest" => Schedule(Some(0.0), [])
    case "Fruit" => Schedule(Some(0.0), [])
    case "Urban" => Schedule(Some(0.0), [])
    case "Vegetable" => Schedule(Some(7.7), [])
    case "PaddyR" => Schedule(None, PaddyRPumping)
    case "PaddyK" => Schedule(None, PaddyKPumping)
    case _ => Schedule(None, [])
  }

  /**
   * What the pumping calendar gives on a valid date: nothing for the perennial
   * land uses, 7.7 for vegetables, 15.2 for two-season rice on 15 December
   * (the rabi write comes after the nursery write that also covers that day),
   * and nothing for monsoon rice from 1 October to 31 May.
   */
  lemma PumpingOnDate(dt: Date)
    requires ValidDate(dt)
    ensures forall lu :: lu in {"Scrub", "Tank", "Forest", "Fruit", "Urban"} ==> ValueOn(Pumping(lu), dt) == Some(0.0)
    ensures ValueOn(Pumping("Vegetable"), dt) == Some(7.7)
    ensures dt.month == 12 && dt.day == 15 ==> ValueOn(Pumping("PaddyR"), dt) == Some(15.2)
    ensures (dt.month >= 10 || dt.month <= 5) ==> ValueOn(Pumping("PaddyK"), dt) == Some(0.0)
  {
    PaddyRPumpingSeasons(dt, None);
    PaddyKPumpingSeasons(dt, None);
  }

  /** The order in which the script creates the land-use columns. */
  const LandUseOrder: seq<string> := ["Scrub", "Forest", "Fruit", "Tank", "Urban", "PaddyR", "PaddyK", "Vegetable"]

  /** A table whose every column is a series of `days` values. */
  predicate Rectangle(table: map<string, seq<Option<real>>>, days: nat) {
    forall key :: key in table ==> |table[key]| == days
  }

  /** One column per land use, as the constant assignments and the year loops leave it. */
  function ScheduleColumns(sched: string -> Schedule, dates: seq<Date>): (t: map<string, seq<Option<real>>>)
    ensures t.Keys == LandUses && Rectangle(t, |dates|)
    ensures forall lu :: lu in t ==> t[lu] == ScheduleColumn(sched(lu), dates)
  {
    map lu | lu in LandUses :: ScheduleColumn(sched(lu), dates)
  }

  /** Fills the columns of one input table land use by land use; `min` of an empty date index raises. */
  method BuildColumns(sched: string -> Schedule, dates: seq<Date>) returns (r: Result<map<string, seq<Option<real>>>, Error>)
    ensures r.Success? <==> |dates| > 0
    ensures r.Failure? ==> r.error == EmptyIndex
    ensures r.Success? ==> r.value == ScheduleColumns(sched, dates)
  {
    if |dates| == 0 {
      return Failure(EmptyIndex);
    }
    var t: map<string, seq<Option<real>>> := map[];
    for i := 0 to |LandUseOrder|
      invariant t.Keys == set j | 0 <= j < i :: LandUseOrder[j]
      invariant forall lu :: lu in t ==> t[lu] == ScheduleColumn(sched(lu), dates)
    {
      var col := BuildColumn(sched(LandUseOrder[i]), dates);
      assert col.Success?;
      t := t[LandUseOrder[i] := col.value];
    }
    forall lu | lu in LandUses
      ensures lu in t
    {
      var j := if lu == "Scrub" then 0 else if lu == "Forest" then 1 else if lu == "Fruit" then 2
        else if lu == "Tank" then 3 else if lu == "Urban" then 4 else if lu == "PaddyR" then 5
        else if lu == "PaddyK" then 6 else 7;
      assert LandUseOrder[j] == lu;
    }
    return Success(t);
  }

  /** RET in mm: Kc times PET, NaN where Kc is NaN. */
  function RetMm(kc: seq<Option<real>>, pet: seq<real>): (ret: seq<Option<real>>)
    requires |kc| == |pet|
    ensures |ret| == |kc|
    ensures forall d :: 0 <= d < |kc| ==> (ret[d].Some? <==> kc[d].Some?)
    ensures forall d :: 0 <= d < |kc| ==> kc[d].Some? ==> ret[d].value == kc[d].value * pet[d]
  {
    seq(|kc|, d requires 0 <= d < |kc| => if kc[d].Some? then Some(kc[d].value * pet[d]) else None)
  }

  /** The RET table: every Kc column multiplied by the day's PET. */
  function RetTable(kc: map<string, seq<Option<real>>>, pet: seq<real>): (t: map<string, seq<Option<real>>>)
    requires Rectangle(kc, |pet|)
    ensures t.Keys == kc.Keys && Rectangle(t, |pet|)
  {
    map key | key in kc :: RetMm(kc[key], pet)
  }

  /**
   * The fine-grid RET (in metres, with the regional factor 0.9) is the bucket
   * model's RET times 0.9 / 1000, day by day, and both are NaN on the same days.
   */
  lemma RetUnits(kc: seq<Option<real>>, pet: seq<real>, d: nat)
    requires |kc| == |pet| && d < |kc|
    ensures FineGridInputs.RetMetres(kc, pet)[d].Some? <==> RetMm(kc, pet)[d].Some?
    ensures RetMm(kc, pet)[d].Some? ==>
      FineGridInputs.RetMetres(kc, pet)[d].value == RetMm(kc, pet)[d].value * 0.9 / 1000.0
  {
  }

  // ---- weighting by land-use percentage ----

  /** The table column a land-use percentage column feeds: its name without the last three characters. */
  function ColumnKey(lu: string): (key: string)
    ensures |lu| >= 3 ==> key + lu[|lu| - 3..] == lu
    ensures |lu| < 3 ==> key == ""
  {
    if |lu| < 3 then "" else lu[..|lu| - 3]
  }

  /** Every one of the first k percentage columns names an existing table column. */
  predicate Present(table: map<string, seq<Option<real>>>, lus: seq<string>, k: nat)
    requires k <= |lus|
  {
    forall i :: 0 <= i < k ==> ColumnKey(lus[i]) in table
  }

  /** Index of the first percentage column whose table column is missing, or |lus| when there is none. */
  function FirstMissing(table: map<string, seq<Option<real>>>, lus: seq<string>): (k: nat)
    ensures k <= |lus| && Present(table, lus, k)
    ensures k < |lus| ==> ColumnKey(lus[k]) !in table
    decreases |lus|
  {
    if |lus| == 0 then 0
    else
      var k := FirstMissing(table, lus[..|lus| - 1]);
      if k < |lus| - 1 || ColumnKey(lus[|lus| - 1]) !in table then k else |lus|
  }

  /** `x * pct / 100`, NaN for NaN. */
  function Share(x: Option<real>, pct: real): Option<real> {
    if x.Some? then Some(x.value * pct / 100.0) else None
  }

  /** NaN-propagating addition. */
  function Plus(a: Option<real>, b: Option<real>): Option<real> {
    if a.Some? && b.Some? then Some(a.value + b.value) else None
  }

  /** A cell's value on day d after the first k land-use columns have been added in. */
  function WeightedValue(table: map<string, seq<Option<real>>>, lus: seq<string>, pct: seq<real>, d: nat, k: nat): (r: Option<real>)
    requires k <= |lus| == |pct| && Present(table, lus, k)
    requires forall i :: 0 <= i < k ==> d < |table[ColumnKey(lus[i])]|
    ensures r.Some? <==> forall i :: 0 <= i < k ==> table[ColumnKey(lus[i])][d].Some?
  {
    if k == 0 then Some(0.0)
    else Plus(WeightedValue(table, lus, pct, d, k - 1), Share(table[ColumnKey(lus[k - 1])][d], pct[k - 1]))
  }

  /** One cell's weighted series. */
  function CellSeries(table: map<string, seq<Option<real>>>, lus: seq<string>, pct: seq<real>, days: nat): (s: seq<Option<real>>)
    requires Rectangle(table, days) && |lus| == |pct| && Present(table, lus, |lus|)
    ensures |s| == days
  {
    seq(days, d requires 0 <= d < days => WeightedValue(table, lus, pct, d, |lus|))
  }

  /**
   * The weighted table, one series per grid cell; KeyError (`MissingColumn`) on
   * the first percentage column without a table column, raised as soon as there
   * is a cell to fill.
   */
  function Weighted(table: map<string, seq<Option<real>>>, lus: seq<string>, pcts: seq<seq<real>>, days: nat)
    : (r: Result<seq<seq<Option<real>>>, Error>)
    requires Rectangle(table, days)
    requires forall g :: 0 <= g < |pcts| ==> |pcts[g]| == |lus|
    ensures r.Failure? <==> |pcts| > 0 && !Present(table, lus, |lus|)
    ensures r.Success? ==> |r.value| == |pcts| && forall g :: 0 <= g < |pcts| ==> |r.value[g]| == days
  {
    var k := FirstMissing(table, lus);
    if |pcts| > 0 && k < |lus| then Failure(MissingColumn(ColumnKey(lus[k])))
    else Success(seq(|pcts|, g requires 0 <= g < |pcts| => CellSeries(table, lus, pcts[g], days)))
  }

  /** The nested cell / land-use loop with `+=` into a zero-filled per-cell series. */
  method WeightTable(table: map<string, seq<Option<real>>>, lus: seq<string>, pcts: seq<seq<real>>, days: nat)
    returns (r: Result<seq<seq<Option<real>>>, Error>)
    requires Rectangle(table, days)
    requires forall g :: 0 <= g < |pcts| ==> |pcts[g]| == |lus|
    ensures r == Weighted(table, lus, pcts, days)
  {
    var k0 := FirstMissing(table, lus);
    var cells: seq<seq<Option<real>>> := [];
    for g := 0 to |pcts|
      invariant g > 0 ==> k0 == |lus|
      invariant |cells| == g
      invariant forall h :: 0 <= h < g ==> cells[h] == CellSeries(table, lus, pcts[h], days)
    {
      var acc := new Option<real>[days](_ => Some(0.0));
      for k := 0 to |lus|
        invariant Present(table, lus, k)
        invariant forall d :: 0 <= d < days ==> acc[d] == WeightedValue(table, lus, pcts[g], d, k)
      {
        var key := ColumnKey(lus[k]);
        if key !in table {
          assert k0 == k;
          return Failure(MissingColumn(key));
        }
        var col := table[key];
        for d := 0 to days
          invariant forall e :: 0 <= e < d ==> acc[e] == WeightedValue(table, lus, pcts[g], e, k + 1)
          invariant forall e :: d <= e < days ==> acc[e] == WeightedValue(table, lus, pcts[g], e, k)
        {
          acc[d] := Plus(acc[d], Share(col[d], pcts[g][k]));
        }
      }
      assert acc[..] == CellSeries(table, lus, pcts[g], days);
      cells := cells + [acc[..]];
    }
    assert |pcts| == 0 || Present(table, lus, |lus|);
    assert cells == seq(|pcts|, g requires 0 <= g < |pcts| => CellSeries(table, lus, pcts[g], days));
    return Success(cells);
  }

  /** The series of the k percentage columns, NaN read as 0 (used only where no value is NaN). */
  function Values(table: map<string, seq<Option<real>>>, lus: seq<string>, days: nat): (s: seq<seq<real>>)
    requires Rectangle(table, days) && Present(table, lus, |lus|)
    ensures |s| == |lus| && forall i :: 0 <= i < |lus| ==> |s[i]| == days
  {
    seq(|lus|, i requires 0 <= i < |lus| =>
      seq(days, d requires 0 <= d < days => var x := table[ColumnKey(lus[i])][d]; if x.Some? then x.value else 0.0))
  }

  /**
   * A weighted value is NaN exactly when one of its land-use columns is NaN that
   * day; otherwise it is the real-valued weighted sum of those columns.
   */
  lemma {:induction false} WeightedValueDefined(table: map<string, seq<Option<real>>>, lus: seq<string>, pct: seq<real>, days: nat, d: nat, k: nat)
    requires Rectangle(table, days) && d < days
    requires k <= |lus| == |pct| && Present(table, lus, |lus|)
    ensures WeightedValue(table, lus, pct, d, k).Some? <==> forall i :: 0 <= i < k ==> table[ColumnKey(lus[i])][d].Some?
    ensures WeightedValue(table, lus, pct, d, k).Some? ==>
      WeightedValue(table, lus, pct, d, k).value == WeightedAt(Values(table, lus, days), pct, d, k)
  {
    if k > 0 {
      WeightedValueDefined(table, lus, pct, days, d, k - 1);
    }
  }

  /**
   * Percentages summing to 100 give a cell the value its land uses share: a cell
   * made only of land uses whose return-flow share is 1 gets share 1.
   */
  lemma CommonValueKept(table: map<string, seq<Option<real>>>, lus: seq<string>, pct: seq<real>, days: nat, d: nat, c: real)
    requires Rectangle(table, days) && d < days
    requires |lus| == |pct| && Present(table, lus, |lus|) && Sum(pct) == 100.0
    requires forall i :: 0 <= i < |lus| ==> table[ColumnKey(lus[i])][d] == Some(c)
    ensures WeightedValue(table, lus, pct, d, |lus|) == Some(c)
  {
    WeightedValueDefined(table, lus, pct, days, d, |lus|);
    var s := Values(table, lus, days);
    forall j | 0 <= j < |s|
      ensures d < |s[j]| && s[j][d] == c
    {
    }
    WeightedKeepsCommonValue(s, pct, d, c);
  }

  // ---- the whole script ----

  /** The weighted RET, PG and Cf of every grid cell. */
  datatype CellInputs = CellInputs(RET: seq<seq<Option<real>>>, PG: seq<seq<Option<real>>>, Cf: seq<seq<Option<real>>>)

  /** Everything the script computes from the dates, the PET series and the land-use percentages. */
  function Inputs(dates: seq<Date>, pet: seq<real>, lus: seq<string>, pcts: seq<seq<real>>): (r: Result<CellInputs, Error>)
    requires |pet| == |dates|
    requires forall g :: 0 <= g < |pcts| ==> |pcts[g]| == |lus|
    ensures |dates| == 0 ==> r == Failure(EmptyIndex)
    ensures |dates| > 0 ==> (r.Failure? <==> |pcts| > 0 && !Present(ScheduleColumns(Pumping, dates), lus, |lus|))
  {
    if |dates| == 0 then Failure(EmptyIndex)
    else
      var kc := ScheduleColumns(CropCoefficient, dates);
      var pgt := ScheduleColumns(Pumping, dates);
      var cft := ScheduleColumns(ReturnFlowShare, dates);
      var ret := Weighted(RetTable(kc, pet), lus, pcts, |dates|);
      var pg := Weighted(pgt, lus, pcts, |dates|);
      var cf := Weighted(cft, lus, pcts, |dates|);
      SameColumnsPresent(RetTable(kc, pet), pgt, lus);
      SameColumnsPresent(cft, pgt, lus);
      if ret.Failure? then Failure(ret.error)
      else Success(CellInputs(ret.value, pg.value, cf.value))
  }

  /** Whether a percentage column has its table column depends only on the table's column names. */
  lemma SameColumnsPresent(a: map<string, seq<Option<real>>>, b: map<string, seq<Option<real>>>, lus: seq<string>)
    requires a.Keys == b.Keys
    ensures Present(a, lus, |lus|) <==> Present(b, lus, |lus|)
  {
  }

  /**
   * The script end to end. The three tables are weighted one after the other
   * rather than in one interleaved loop; all of them have the same columns, so
   * the result and the first KeyError are the same.
   */
  method BuildInputs(dates: seq<Date>, pet: seq<real>, lus: seq<string>, pcts: seq<seq<real>>) returns (r: Result<CellInputs, Error>)
    requires |pet| == |dates|
    requires forall g :: 0 <= g < |pcts| ==> |pcts[g]| == |lus|
    ensures r == Inputs(dates, pet, lus, pcts)
  {
    var pg := BuildColumns(Pumping, dates);
    if pg.Failure? {
      return Failure(EmptyIndex);
    }
    var kc := BuildColumns(CropCoefficient, dates);
    var cf := BuildColumns(ReturnFlowShare, dates);
    assert kc.Success? && cf.Success?;
    var ret := RetTable(kc.value, pet);
    var retW := WeightTable(ret, lus, pcts, |dates|);
    if retW.Failure? {
      return Failure(retW.error);
    }
    var pgW := WeightTable(pg.value, lus, pcts, |dates|);
    var cfW := WeightTable(cf.value, lus, pcts, |dates|);
    SameColumnsPresent(ret, pg.value, lus);
    SameColumnsPresent(cf.value, pg.value, lus);
    assert pgW.Success? && cfW.Success?;
    return Success(CellInputs(retW.value, pgW.value, cfW.value));
  }
}
