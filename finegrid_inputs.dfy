/**
 * Inputs of the fine-grid runs: the distinct (soil class, land use) categories
 * of the grid, labelled A, B, ..., Z, AA, AB, ..., ZZ in order of first
 * appearance, and, per category, the daily Kc, PG and Cf calendars with RET and
 * PG converted to metres.
 */
module FineGridInputs {
  import opened Wrappers
  import opened Calendar
  import opened Schedules

  /** One grid cell's soil class and land use; a category is one distinct pair. */
  datatype Category = Category(soilClass: string, landUse: string)

  // ---- labels ----

  /** The i-th capital letter. */
  function Letter(i: nat): (ch: char)
    requires i < 26
    ensures ch as int == 'A' as int + i
  {
    ('A' as int + i) as char
  }

  /** The i-th label: the 26 letters, then the 676 pairs of letters, first letter slowest. */
  function AlphaLabel(i: nat): string
    requires i < 702
  {
    if i < 26 then [Letter(i)] else [Letter((i - 26) / 26), Letter((i - 26) % 26)]
  }

  const AlphaIndex: seq<string> := seq(702, i requires 0 <= i < 702 => AlphaLabel(i))

  /** Strict lexicographic order on strings. */
  predicate LexLess(a: string, b: string)
    decreases |a|
  {
    |b| > 0 && (|a| == 0 || a[0] < b[0] || (a[0] == b[0] && LexLess(a[1..], b[1..])))
  }

  /** Shorter labels first, then lexicographic order among labels of one length. */
  predicate LabelBefore(a: string, b: string) {
    |a| < |b| || (|a| == |b| && LexLess(a, b))
  }

  lemma AlphaIndexShape()
    ensures |AlphaIndex| == 702
    ensures AlphaIndex[0] == "A" && AlphaIndex[25] == "Z" && AlphaIndex[26] == "AA"
    ensures AlphaIndex[28] == "AC" && AlphaIndex[701] == "ZZ"
    ensures forall i :: 0 <= i < 702 ==> 1 <= |AlphaIndex[i]| <= 2
  {
  }

  /** Labels come in order, so no two categories share one. */
  lemma AlphaIndexOrdered(i: nat, j: nat)
    requires i < j < 702
    ensures LabelBefore(AlphaIndex[i], AlphaIndex[j])
    ensures AlphaIndex[i] != AlphaIndex[j]
  {
    var a, b := AlphaIndex[i], AlphaIndex[j];
    if 26 <= i {
      var p, q := (i - 26) / 26, (j - 26) / 26;
      assert p <= q;
      if p == q {
        assert (i - 26) % 26 < (j - 26) % 26;
        assert a[0] == b[0] && a[1..][0] < b[1..][0];
      } else {
        assert a[0] < b[0];
      }
    }
  }

  // ---- categories ----

  /** `drop_duplicates`: the distinct rows, each at the place of its first occurrence. */
  function Unique(cells: seq<Category>): (u: seq<Category>)
    ensures forall c :: c in u <==> c in cells
    ensures forall i, j :: 0 <= i < j < |u| ==> u[i] != u[j]
  {
    if |cells| == 0 then []
    else
      var u := Unique(cells[..|cells| - 1]);
      if cells[|cells| - 1] in u then u else u + [cells[|cells| - 1]]
  }

  /** Position of the first occurrence of `x`. */
  function FirstIndex<T(==)>(xs: seq<T>, x: T): (k: nat)
    requires x in xs
    ensures k < |xs| && xs[k] == x && x !in xs[..k]
  {
    if xs[0] == x then 0 else 1 + FirstIndex(xs[1..], x)
  }

  /** The first occurrence is the only position holding `x` with no `x` before it. */
  lemma FirstIndexUnique<T>(xs: seq<T>, x: T, k: nat)
    requires k < |xs| && xs[k] == x && x !in xs[..k]
    ensures FirstIndex(xs, x) == k
  {
  }

  /** Appending to a list does not move the first occurrence of what it already holds. */
  lemma FirstIndexExtends(front: seq<Category>, y: Category, c: Category)
    requires c in front
    ensures FirstIndex(front + [y], c) == FirstIndex(front, c) < |front|
  {
    var k := FirstIndex(front, c);
    assert (front + [y])[..k] == front[..k];
    FirstIndexUnique(front + [y], c, k);
  }

  /** `u` lists elements of `xs` in increasing order of first occurrence. */
  predicate InFirstOrder(xs: seq<Category>, u: seq<Category>) {
    (forall c :: c in u ==> c in xs) &&
    forall i, j :: 0 <= i < j < |u| ==> FirstIndex(xs, u[i]) < FirstIndex(xs, u[j])
  }

  /** The order of first occurrences in `front` survives appending one element. */
  lemma InFirstOrderExtends(front: seq<Category>, y: Category, u: seq<Category>)
    requires InFirstOrder(front, u)
    ensures InFirstOrder(front + [y], u)
  {
    forall c | c in u
      ensures FirstIndex(front + [y], c) == FirstIndex(front, c)
    {
      FirstIndexExtends(front, y, c);
    }
  }

  /** An element new to `front` comes after every element of `front` in first-occurrence order. */
  lemma InFirstOrderSnoc(front: seq<Category>, y: Category, u: seq<Category>)
    requires InFirstOrder(front, u) && y !in front
    ensures InFirstOrder(front + [y], u + [y])
  {
    var cells := front + [y];
    InFirstOrderExtends(front, y, u);
    FirstIndexUnique(cells, y, |front|);
    forall c | c in u
      ensures FirstIndex(cells, c) < |front|
    {
      FirstIndexExtends(front, y, c);
    }
  }

  /** The distinct categories are listed in order of first appearance. */
  lemma {:induction false} UniqueInFirstAppearanceOrder(cells: seq<Category>)
    ensures InFirstOrder(cells, Unique(cells))
  {
    if |cells| > 0 {
      var n := |cells| - 1;
      var front := cells[..n];
      UniqueInFirstAppearanceOrder(front);
      assert cells == front + [cells[n]];
      if cells[n] in Unique(front) {
        InFirstOrderExtends(front, cells[n], Unique(front));
      } else {
        InFirstOrderSnoc(front, cells[n], Unique(front));
      }
    }
  }

  /** Labelling the categories: more than 702 of them do not fit the labels and fail. */
  function Categories(cells: seq<Category>): (r: Result<seq<Category>, Error>)
    ensures r.Success? <==> |Unique(cells)| <= 702
    ensures r.Success? ==> r.value == Unique(cells)
    ensures r.Failure? ==> r.error == TooManyCategories(|Unique(cells)|)
  {
    var u := Unique(cells);
    if |u| <= 702 then Success(u) else Failure(TooManyCategories(|u|))
  }

  // ---- calendars per category ----

  /** PG (mm/day) on the fine grid: Fruit is pumped at 1.9, Vegetable at 7.7, rice by its calendars. */
  function Pumping(landUse: string): (s: Schedule)
    ensures s.init.Some? <==> landUse in {"Scrub", "Forest", "Tank", "Fruit", "Urban", "Vegetable"}
    ensures s.writes != [] <==> landUse in {"PaddyR", "PaddyK"}
  {
    match landUse
    case "Scrub" => Schedule(Some(0.0), [])
    case "Forest" => Schedule(Some(0.0), [])
    case "Tank" => Schedule(Some(0.0), [])
    case "Fruit" => Schedule(Some(1.9), [])
    case "Urban" => Schedule(Some(0.0), [])
    case "Vegetable" => Schedule(Some(7.7), [])
    case "PaddyR" => Schedule(None, PaddyRPumping)
    case "PaddyK" => Schedule(None, PaddyKPumping)
    case _ => Schedule(None, [])
  }

  lemma PumpingConstants(dt: Date)
    ensures forall lu :: lu in {"Scrub", "Forest", "Tank", "Urban"} ==> ValueOn(Pumping(lu), dt) == Some(0.0)
    ensures ValueOn(Pumping("Fruit"), dt) == Some(1.9) && ValueOn(Pumping("Vegetable"), dt) == Some(7.7)
  {
  }

  /** One column per category, as the year loops leave it. */
  function ScheduleTable(sched: string -> Schedule, cats: seq<Category>, dates: seq<Date>): (t: seq<seq<Option<real>>>)
    ensures |t| == |cats|
    ensures forall c :: 0 <= c < |cats| ==> t[c] == ScheduleColumn(sched(cats[c].landUse), dates) && |t[c]| == |dates|
  {
    seq(|cats|, c requires 0 <= c < |cats| => ScheduleColumn(sched(cats[c].landUse), dates))
  }

  /** The year loops over all categories of one input table. */
  method BuildTable(sched: string -> Schedule, cats: seq<Category>, dates: seq<Date>)
    returns (r: Result<seq<seq<Option<real>>>, Error>)
    ensures r.Success? <==> |dates| > 0
    ensures r.Failure? ==> r.error == EmptyIndex
    ensures r.Success? ==> r.value == ScheduleTable(sched, cats, dates)
  {
    if |dates| == 0 {
      return Failure(EmptyIndex);
    }
    var t: seq<seq<Option<real>>> := [];
    for c := 0 to |cats|
      invariant t == ScheduleTable(sched, cats[..c], dates)
    {
      var col := BuildColumn(sched(cats[c].landUse), dates);
      assert col.Success?;
      t := t + [col.value];
      assert cats[..c + 1][..c] == cats[..c];
    }
    assert cats[..|cats|] == cats;
    return Success(t);
  }

  /** RET in metres: Kc times PET (mm) times the regional coefficient 0.9, over 1000; NaN where Kc is. */
  function RetMetres(kc: seq<Option<real>>, pet: seq<real>): (ret: seq<Option<real>>)
    requires |kc| == |pet|
    ensures |ret| == |kc|
    ensures forall d :: 0 <= d < |kc| ==> (ret[d].Some? <==> kc[d].Some?)
    ensures forall d :: 0 <= d < |kc| && kc[d].Some? ==> ret[d].value * 1000.0 == kc[d].value * pet[d] * 0.9
  {
    seq(|kc|, d requires 0 <= d < |kc| => if kc[d].Some? then Some(kc[d].value * pet[d] * 0.9 / 1000.0) else None)
  }

  /** PG in metres. */
  function PumpingMetres(pg: seq<Option<real>>): (m: seq<Option<real>>)
    ensures |m| == |pg|
    ensures forall d :: 0 <= d < |pg| ==> (m[d].Some? <==> pg[d].Some?)
    ensures forall d :: 0 <= d < |pg| && pg[d].Some? ==> m[d].value * 1000.0 == pg[d].value
  {
    seq(|pg|, d requires 0 <= d < |pg| => if pg[d].Some? then Some(pg[d].value / 1000.0) else None)
  }

  /** The four input tables of the fine-grid runs, one column per category. */
  datatype Tables = Tables(
    Kc: seq<seq<Option<real>>>, PG: seq<seq<Option<real>>>,
    Cf: seq<seq<Option<real>>>, RET: seq<seq<Option<real>>>)

  function InputTables(cats: seq<Category>, dates: seq<Date>, pet: seq<real>): (t: Tables)
    requires |pet| == |dates|
    ensures |t.Kc| == |t.PG| == |t.Cf| == |t.RET| == |cats|
    ensures forall c :: 0 <= c < |cats| ==>
      t.Kc[c] == ScheduleColumn(CropCoefficient(cats[c].landUse), dates) &&
      t.PG[c] == PumpingMetres(ScheduleColumn(Pumping(cats[c].landUse), dates)) &&
      t.Cf[c] == ScheduleColumn(ReturnFlowShare(cats[c].landUse), dates) &&
      t.RET[c] == RetMetres(t.Kc[c], pet)
  {
    var kc := ScheduleTable(CropCoefficient, cats, dates);
    Tables(
      kc,
      seq(|cats|, c requires 0 <= c < |cats| => PumpingMetres(ScheduleTable(Pumping, cats, dates)[c])),
      ScheduleTable(ReturnFlowShare, cats, dates),
      seq(|cats|, c requires 0 <= c < |cats| => RetMetres(kc[c], pet)))
  }

  /** The input script end to end, from the grid's categories and the climate table's dates and PET. */
  method BuildInputs(cats: seq<Category>, dates: seq<Date>, pet: seq<real>) returns (r: Result<Tables, Error>)
    requires |pet| == |dates|
    ensures r.Success? <==> |dates| > 0
    ensures r.Failure? ==> r.error == EmptyIndex
    ensures r.Success? ==> r.value == InputTables(cats, dates, pet)
  {
    var kc := BuildTable(CropCoefficient, cats, dates);
    if kc.Failure? {
      return Failure(EmptyIndex);
    }
    var pg := BuildTable(Pumping, cats, dates);
    var cf := BuildTable(ReturnFlowShare, cats, dates);
    assert pg.Success? && cf.Success?;
    var pgm := seq(|cats|, c requires 0 <= c < |cats| => PumpingMetres(pg.value[c]));
    var ret := seq(|cats|, c requires 0 <= c < |cats| => RetMetres(kc.value[c], pet));
    return Success(Tables(kc.value, pgm, cf.value, ret));
  }

  /** On a valid date a category of a known land use has every input, in metres where converted. */
  lemma InputsDefined(cats: seq<Category>, dates: seq<Date>, pet: seq<real>, c: nat, d: nat)
    requires |pet| == |dates| && c < |cats| && d < |dates|
    requires cats[c].landUse in LandUses && ValidDate(dates[d])
    ensures var t := InputTables(cats, dates, pet);
      t.Kc[c][d].Some? && t.PG[c][d].Some? && t.Cf[c][d].Some? && t.RET[c][d].Some?
    ensures var t := InputTables(cats, dates, pet);
      t.RET[c][d].value == t.Kc[c][d].value * pet[d] * 0.9 / 1000.0
  {
    var lu := cats[c].landUse;
    KnownLandUsesDefined(lu, dates[d]);
    if lu == "PaddyR" {
      PaddyRPumpingSeasons(dates[d], None);
    } else if lu == "PaddyK" {
      PaddyKPumpingSeasons(dates[d], None);
    }
  }
}
