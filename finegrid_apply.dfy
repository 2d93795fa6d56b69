/**
 * The one-layer fine-grid run: soil parameters chosen per category from its
 * soil class and land use, one run of the two-regime recurrence per category,
 * and the post-processing of the category outputs — negligible recharge
 * removed, return flow separated from natural recharge, masked means of the
 * state variables, categories spread back over the grid cells and the yearly
 * input/output balance of the basin.
 *
 * Tables are stored one series per category (or per cell).
 */
module FineGrid {
  import opened Wrappers
  import opened Series
  import opened HydMod
  import opened FineGridInputs

  // ---- parameter tables ----

  /** The soil classes, in the order of every per-soil table. */
  const SoilTypes: seq<string> := ["Alfisols 1", "Alfisols 2", "Inceptisols", "Entisols", "Tank"]

  /** `list.index`: position of the soil class, ValueError for a class that is not listed. */
  function SoilIndex(soilClass: string): (r: Result<nat, Error>)
    ensures r.Success? <==> soilClass in SoilTypes
    ensures r.Success? ==> r.value < |SoilTypes| && SoilTypes[r.value] == soilClass
    ensures r.Failure? ==> r.error == UnknownSoilClass(soilClass)
  {
    if soilClass == SoilTypes[0] then Success(0)
    else if soilClass == SoilTypes[1] then Success(1)
    else if soilClass == SoilTypes[2] then Success(2)
    else if soilClass == SoilTypes[3] then Success(3)
    else if soilClass == SoilTypes[4] then Success(4)
    else Failure(UnknownSoilClass(soilClass))
  }

  const SoilThickTab: seq<real> := [1.4, 1.6, 1.2, 2.4, 2.7]
  /** Bund height: rice fields, everything else. */
  const ThreshTab: seq<real> := [0.12, 0.02]

  /** The Brooks–Corey parameters of the five soil classes for one kind of land cover (Ks in m/day). */
  datatype SoilTable = SoilTable(Ks: seq<real>, ThetaS: seq<real>, Lambda: seq<real>, hbc: seq<real>, Eta: seq<real>)

  const DefaultSoil: SoilTable := SoilTable(
    [0.00000579 * 86400.0, 0.00000669 * 86400.0, 0.0000109 * 86400.0, 0.00000317 * 86400.0, 0.000000547 * 86400.0],
    [0.36, 0.37, 0.35, 0.35, 0.56],
    [0.091, 0.112, 0.099, 0.083, 0.048],
    [-0.048, -0.060, -0.118, -0.036, -0.103],
    [27.4, 21.8, 23.7, 27.6, 45.8])

  const ForestSoil: SoilTable := SoilTable(
    [0.0000117 * 86400.0, 0.0000124 * 86400.0, 0.0000165 * 86400.0, 0.00000697 * 86400.0, 0.000000547 * 86400.0],
    [0.26, 0.36, 0.27, 0.35, 0.56],
    [0.090, 0.112, 0.099, 0.083, 0.048],
    [-0.122, -0.132, -0.193, -0.087, -0.103],
    [27.5, 21.8, 23.7, 27.6, 45.8])

  const ScrubSoil: SoilTable := SoilTable(
    [0.0000174 * 86400.0, 0.0000180 * 86400.0, 0.0000220 * 86400.0, 0.0000127 * 86400.0, 0.000000547 * 86400.0],
    [0.26, 0.26, 0.27, 0.34, 0.56],
    [0.090, 0.112, 0.099, 0.083, 0.048],
    [-0.192, -0.202, -0.267, -0.140, -0.103],
    [27.5, 21.8, 23.7, 27.6, 45.8])

  /** The puddled layer of rice fields: one parameter set whatever the soil class. */
  const PaddyKs: real := 0.00000025 * 86400.0
  const PaddyThetaS: real := 0.36
  const PaddyLambda: real := 0.099
  const PaddyHbc: real := -0.05
  const PaddyEta: real := 23.2

  predicate IsPaddy(landUse: string) {
    landUse == "PaddyK" || landUse == "PaddyR"
  }

  /** A table with an entry for every soil class. */
  predicate Complete(t: SoilTable) {
    |t.Ks| == |t.ThetaS| == |t.Lambda| == |t.hbc| == |t.Eta| == |SoilTypes|
  }

  /** The parameter set of row i of a table. */
  function FromTable(t: SoilTable, i: nat, thick: real, thresh: real): (p: Params)
    requires Complete(t) && i < |SoilTypes|
    ensures Sound(t) && thick > 0.0 ==> Usable(p)
  {
    Params(t.Ks[i], thick, t.ThetaS[i], thresh, t.Lambda[i], t.hbc[i], t.Eta[i])
  }

  function PaddyParams(thick: real, thresh: real): (p: Params)
    ensures thick > 0.0 ==> Usable(p)
  {
    Params(PaddyKs, thick, PaddyThetaS, thresh, PaddyLambda, PaddyHbc, PaddyEta)
  }

  /** The land-cover table for a land use other than rice. */
  function CoverTable(landUse: string): (t: SoilTable)
    ensures Complete(t) && Sound(t)
    ensures landUse == "Forest" ==> t == ForestSoil
    ensures landUse == "Scrub" ==> t == ScrubSoil
    ensures landUse != "Forest" && landUse != "Scrub" ==> t == DefaultSoil
  {
    TablesSound();
    if landUse == "Forest" then ForestSoil else if landUse == "Scrub" then ScrubSoil else DefaultSoil
  }

  /** Every row of a table satisfies what the recurrence and its lemmas ask of the parameters. */
  predicate Sound(t: SoilTable)
    requires Complete(t)
  {
    forall i :: 0 <= i < |SoilTypes| ==>
      t.Ks[i] >= 0.0 && t.ThetaS[i] > Floor && t.Lambda[i] != 0.0 && t.hbc[i] <= 0.0
  }

  lemma TablesSound()
    ensures Sound(DefaultSoil) && Sound(ForestSoil) && Sound(ScrubSoil)
    ensures forall i :: 0 <= i < |SoilTypes| ==> SoilThickTab[i] > 0.0
  {
  }

  /** Physically sound parameters: divisible, positive thickness, ThetaS above the floor, Ks >= 0, hbc <= 0. */
  predicate Usable(p: Params) {
    Physical(p) && p.ThetaS > Floor && p.Ks >= 0.0 && p.hbc <= 0.0
  }

  /**
   * The parameters of a category. The thickness always comes from the soil
   * class; rice takes the puddled-layer constants and the high bund, every
   * other land use the low bund and the row of its land-cover table. Every
   * category with a known soil class gets parameters the recurrence accepts
   * and for which its bounds (HydMod.RunBounds) and the non-negativity of its
   * outflows (HydMod.OutflowsNonNegative) hold.
   */
  function CategoryParams(cat: Category): (r: Result<Params, Error>)
    ensures r.Success? <==> cat.soilClass in SoilTypes
    ensures r.Failure? ==> r.error == UnknownSoilClass(cat.soilClass)
    ensures r.Success? ==> Usable(r.value)
    ensures r.Success? ==> r.value.SoilThick == SoilThickTab[SoilIndex(cat.soilClass).value]
    ensures r.Success? ==> (r.value.Thresh == 0.12 <==> IsPaddy(cat.landUse))
    ensures r.Success? && IsPaddy(cat.landUse) ==> r.value.Ks == PaddyKs && r.value.ThetaS == PaddyThetaS
    ensures r.Success? && IsPaddy(cat.landUse) ==>
      r.value == Params(PaddyKs, SoilThickTab[SoilIndex(cat.soilClass).value], PaddyThetaS, 0.12,
                        PaddyLambda, PaddyHbc, PaddyEta)
    ensures r.Success? && !IsPaddy(cat.landUse) ==>
      r.value == FromTable(CoverTable(cat.landUse), SoilIndex(cat.soilClass).value,
                           SoilThickTab[SoilIndex(cat.soilClass).value], 0.02)
  {
    match SoilIndex(cat.soilClass)
    case Failure(e) => Failure(e)
    case Success(i) =>
      TablesSound();
      assert SoilThickTab[i] > 0.0;
      var thick := SoilThickTab[i];
      if IsPaddy(cat.landUse) then Success(PaddyParams(thick, ThreshTab[0]))
      else Success(FromTable(CoverTable(cat.landUse), i, thick, ThreshTab[1]))
  }

  // ---- running every category ----

  /** The forcing of a category: rainfall (mm) in metres, its pumping and its RET (both in metres). */
  function CategoryForcing(rain: seq<real>, pg: seq<real>, ret: seq<real>): (f: seq<Forcing>)
    requires |pg| == |rain| && |ret| == |rain|
    ensures |f| == |rain|
    ensures forall d :: 0 <= d < |f| ==> f[d].R * 1000.0 == rain[d] && f[d].PG == Some(pg[d]) && f[d].RET == ret[d]
  {
    seq(|rain|, d requires 0 <= d < |rain| => Forcing(rain[d] / 1000.0, Some(pg[d]), ret[d]))
  }

  /** A table with one series of `days` values per column. */
  predicate Columns(t: seq<seq<real>>, n: nat, days: nat) {
    |t| == n && forall c :: 0 <= c < n ==> |t[c]| == days
  }

  /** The run of one category with a known soil class. */
  function CategoryRun(cat: Category, pow: Power, rain: seq<real>, pg: seq<real>, ret: seq<real>): seq<Row>
    requires cat.soilClass in SoilTypes
    requires |pg| == |rain| && |ret| == |rain|
  {
    Simulate(CategoryParams(cat).value, pow, CategoryForcing(rain, pg, ret))
  }

  /** Position of the first category whose soil class is not listed, or |cats|. */
  function FirstUnknown(cats: seq<Category>): (k: nat)
    ensures k <= |cats|
    ensures forall c :: 0 <= c < k ==> cats[c].soilClass in SoilTypes
    ensures k < |cats| ==> cats[k].soilClass !in SoilTypes
  {
    if |cats| == 0 || cats[0].soilClass !in SoilTypes then 0 else 1 + FirstUnknown(cats[1..])
  }

  /** The runs of categories whose soil classes are all known. */
  function KnownRuns(cats: seq<Category>, pow: Power, rain: seq<real>, pg: seq<seq<real>>, ret: seq<seq<real>>)
    : (runs: seq<seq<Row>>)
    requires Columns(pg, |cats|, |rain|) && Columns(ret, |cats|, |rain|)
    requires forall c :: 0 <= c < |cats| ==> cats[c].soilClass in SoilTypes
    ensures |runs| == |cats|
    ensures forall c :: 0 <= c < |cats| ==> runs[c] == CategoryRun(cats[c], pow, rain, pg[c], ret[c])
  {
    seq(|cats|, c requires 0 <= c < |cats| => CategoryRun(cats[c], pow, rain, pg[c], ret[c]))
  }

  lemma FirstUnknownAt(cats: seq<Category>, c: nat)
    requires c < |cats| && cats[c].soilClass !in SoilTypes
    requires forall b :: 0 <= b < c ==> cats[b].soilClass in SoilTypes
    ensures FirstUnknown(cats) == c
  { }

  /**
   * What the category loop leaves: the first unknown soil class raises;
   * otherwise every category holds the recurrence run with its own
   * parameters and forcing.
   */
  function Runs(cats: seq<Category>, pow: Power, rain: seq<real>, pg: seq<seq<real>>, ret: seq<seq<real>>)
    : (r: Result<seq<seq<Row>>, Error>)
    requires Columns(pg, |cats|, |rain|) && Columns(ret, |cats|, |rain|)
    ensures r.Success? <==> forall c :: 0 <= c < |cats| ==> cats[c].soilClass in SoilTypes
    ensures r.Success? ==> |r.value| == |cats|
  {
    var k := FirstUnknown(cats);
    if k < |cats| then Failure(UnknownSoilClass(cats[k].soilClass))
    else Success(KnownRuns(cats, pow, rain, pg, ret))
  }

  /** The category loop: select the parameters, run the recurrence, store the run. */
  method RunCategories(cats: seq<Category>, pow: Power, rain: seq<real>, pg: seq<seq<real>>, ret: seq<seq<real>>)
    returns (r: Result<seq<seq<Row>>, Error>)
    requires Columns(pg, |cats|, |rain|) && Columns(ret, |cats|, |rain|)
    ensures r == Runs(cats, pow, rain, pg, ret)
  {
    var runs: seq<seq<Row>> := [];
    for c := 0 to |cats|
      invariant forall b :: 0 <= b < c ==> cats[b].soilClass in SoilTypes
      invariant |runs| == c
      invariant forall b :: 0 <= b < c ==> runs[b] == CategoryRun(cats[b], pow, rain, pg[b], ret[b])
    {
      var params := CategoryParams(cats[c]);
      if params.Failure? {
        FirstUnknownAt(cats, c);
        return Failure(params.error);
      }
      var rows := HydModRun(params.value, pow, CategoryForcing(rain, pg[c], ret[c]));
      var next := runs + [rows];
      forall b | 0 <= b <= c
        ensures next[b] == CategoryRun(cats[b], pow, rain, pg[b], ret[b])
      {
        if b < c { assert next[b] == runs[b]; }
      }
      runs := next;
    }
    assert FirstUnknown(cats) == |cats|;
    assert runs == KnownRuns(cats, pow, rain, pg, ret);
    return Success(runs);
  }

  // ---- post-processing of one category ----

  /** A column of a run. */
  function Field(rows: seq<Row>, f: Row -> real): (s: seq<real>)
    ensures |s| == |rows| && forall d :: 0 <= d < |rows| ==> s[d] == f(rows[d])
  {
    seq(|rows|, d requires 0 <= d < |rows| => f(rows[d]))
  }

  /** Series in metres converted to mm. */
  function Millimetres(s: seq<real>): (mm: seq<real>)
    ensures |mm| == |s| && forall d :: 0 <= d < |s| ==> mm[d] == s[d] * 1000.0
  {
    seq(|s|, d requires 0 <= d < |s| => s[d] * 1000.0)
  }

  /**
   * Recharge in mm with the negligible values (below 1 mm) set to 0: what is
   * left is 0 or at least 1, and every value kept is the recharge in mm.
   */
  function CleanRecharge(qout: seq<real>): (r: seq<real>)
    ensures |r| == |qout|
    ensures forall d :: 0 <= d < |r| ==> r[d] == 0.0 || r[d] >= 1.0
    ensures forall d :: 0 <= d < |r| ==> r[d] != 0.0 ==> r[d] == qout[d] * 1000.0
    ensures forall d :: 0 <= d < |r| ==> qout[d] * 1000.0 >= 1.0 ==> r[d] == qout[d] * 1000.0
  {
    seq(|qout|, d requires 0 <= d < |qout| => if qout[d] * 1000.0 < 1.0 then 0.0 else qout[d] * 1000.0)
  }

  /**
   * Natural recharge of one day of a pumped category (recharge in mm, pumping
   * in m): the share of recharge per mm of pumping above the return-flow
   * coefficient, times the pumping in mm; 0 where the share does not exceed
   * the coefficient and where there is no positive pumping (NaN set to 0).
   */
  function NaturalDay(rech: real, pg: real, cf: real): (r: real)
    ensures r >= 0.0
    ensures pg <= 0.0 ==> r == 0.0
    ensures pg > 0.0 && rech / (pg * 1000.0) <= cf ==> r == 0.0
  {
    if pg > 0.0 && rech / (pg * 1000.0) > cf then
      var m := pg * 1000.0;
      assert rech / m - cf > 0.0 && m > 0.0;
      (rech / m - cf) * m
    else 0.0
  }

  /** On a pumped day the natural recharge is the recharge minus the return flow Cf·PG (in mm), or 0. */
  lemma NaturalDayIsExcess(rech: real, pg: real, cf: real)
    requires pg > 0.0
    ensures NaturalDay(rech, pg, cf) == Max0(rech - cf * (pg * 1000.0))
  {
    var m := pg * 1000.0;
    var s := rech / m;
    assert s * m == rech;
    assert s > cf <==> s * m > cf * m;
    assert (s - cf) * m == s * m - cf * m;
  }

  /** A category whose pumping is non-zero on some day. */
  predicate Pumped(pg: seq<real>) {
    exists d :: 0 <= d < |pg| && pg[d] != 0.0
  }

  /**
   * Recharge with return flow removed: pumped categories take the natural
   * recharge of every day, the others keep their recharge unchanged.
   */
  function NaturalRecharge(rech: seq<real>, pg: seq<real>, cf: seq<real>): (r: seq<real>)
    requires |pg| == |rech| && |cf| == |rech|
    ensures |r| == |rech|
    ensures !Pumped(pg) ==> r == rech
    ensures Pumped(pg) ==> forall d :: 0 <= d < |r| ==> pg[d] <= 0.0 ==> r[d] == 0.0
  {
    if Pumped(pg) then seq(|rech|, d requires 0 <= d < |rech| => NaturalDay(rech[d], pg[d], cf[d]))
    else rech
  }

  /**
   * With non-negative recharge and return-flow coefficients, natural
   * recharge is never negative and never more than the recharge; on a pumped
   * day of a pumped category it is the recharge less the return flow, or 0.
   */
  lemma NaturalRechargeBounds(rech: seq<real>, pg: seq<real>, cf: seq<real>, d: nat)
    requires |pg| == |rech| && |cf| == |rech| && d < |rech|
    requires rech[d] >= 0.0 && cf[d] >= 0.0
    ensures 0.0 <= NaturalRecharge(rech, pg, cf)[d] <= rech[d]
    ensures Pumped(pg) && pg[d] > 0.0 ==> NaturalRecharge(rech, pg, cf)[d] == Max0(rech[d] - cf[d] * (pg[d] * 1000.0))
  {
    if pg[d] > 0.0 {
      NaturalDayIsExcess(rech[d], pg[d], cf[d]);
      assert cf[d] * (pg[d] * 1000.0) >= 0.0;
    }
  }

  /** Harmonic mean of the conductivities not below 1e-5 (the smaller ones are masked). */
  function KhSummary(kh: seq<real>): (r: Option<real>)
    ensures r.Some? <==> exists d :: 0 <= d < |kh| && kh[d] >= 0.00001
  {
    KeepAtLeastEmpty(kh, 0.00001);
    HarmonicMean(KeepAtLeast(kh, 0.00001))
  }

  /** The Kh summary of conductivities at most `hi` lies between 1e-5 and `hi`. */
  lemma KhSummaryWithin(kh: seq<real>, hi: real)
    requires forall d :: 0 <= d < |kh| ==> kh[d] <= hi
    ensures KhSummary(kh).Some? ==> 0.00001 <= KhSummary(kh).value <= hi
  {
    var kept := KeepAtLeast(kh, 0.00001);
    if |kept| > 0 {
      HarmonicMeanWithin(kept, 0.00001, hi);
    }
  }

  /** Arithmetic mean of the pressure heads not below -1000 m (the lower ones are masked). */
  function HeadSummary(h: seq<real>): (r: Option<real>)
    ensures r.Some? <==> exists d :: 0 <= d < |h| && h[d] >= -1000.0
  {
    KeepAtLeastEmpty(h, -1000.0);
    Mean(KeepAtLeast(h, -1000.0))
  }

  /** The head summary of heads at most `hi` lies between -1000 and `hi`. */
  lemma HeadSummaryWithin(h: seq<real>, hi: real)
    requires forall d :: 0 <= d < |h| ==> h[d] <= hi
    ensures HeadSummary(h).Some? ==> -1000.0 <= HeadSummary(h).value <= hi
  {
    var kept := KeepAtLeast(h, -1000.0);
    if |kept| > 0 {
      MeanWithin(kept, -1000.0, hi);
    }
  }

  /** What the script keeps of one category's run. */
  datatype Outputs = Outputs(
    Rech: seq<real>,     // natural recharge, mm/day
    Runoff: seq<real>,   // mm/day
    Deficit: seq<real>,  // mm/day
    AET: seq<real>,      // m/day
    Kh: Option<real>, hUnsat: Option<real>, Theta: Option<real>)

  function CategoryOutputs(rows: seq<Row>, pg: seq<real>, cf: seq<real>): (o: Outputs)
    requires |pg| == |rows| && |cf| == |rows|
    ensures |o.Rech| == |o.Runoff| == |o.Deficit| == |o.AET| == |rows|
  {
    Outputs(
      NaturalRecharge(CleanRecharge(Field(rows, (x: Row) => x.qout)), pg, cf),
      Millimetres(Field(rows, (x: Row) => x.Runoff)),
      Millimetres(Field(rows, (x: Row) => x.Deficit)),
      Field(rows, (x: Row) => x.AET),
      KhSummary(Field(rows, (x: Row) => x.Kh)),
      HeadSummary(Field(rows, (x: Row) => x.hUnsat)),
      Mean(Field(rows, (x: Row) => x.Theta1)))
  }

  /**
   * Reported recharge is never negative, and with non-negative return-flow
   * coefficients never more than the run's clean recharge.
   */
  lemma OutputRechargeBounds(rows: seq<Row>, pg: seq<real>, cf: seq<real>, d: nat)
    requires |pg| == |rows| && |cf| == |rows| && d < |rows| && cf[d] >= 0.0
    ensures 0.0 <= CategoryOutputs(rows, pg, cf).Rech[d] <= CleanRecharge(Field(rows, (x: Row) => x.qout))[d]
  {
    var clean := CleanRecharge(Field(rows, (x: Row) => x.qout));
    NaturalRechargeBounds(clean, pg, cf, d);
  }

  // ---- from categories to grid cells ----

  /** Categories listed at most once. */
  predicate Distinct(cats: seq<Category>) {
    forall i, j :: 0 <= i < j < |cats| ==> cats[i] != cats[j]
  }

  /**
   * The cell loop: each cell takes the value of the category with its soil
   * class and land use; a cell without one cannot be filled.
   */
  method MapToCells<T>(cells: seq<Category>, cats: seq<Category>, values: seq<T>) returns (r: Result<seq<T>, Error>)
    requires |values| == |cats| && Distinct(cats)
    ensures r.Success? <==> forall j :: 0 <= j < |cells| ==> cells[j] in cats
    ensures r.Success? ==> |r.value| == |cells|
    ensures r.Success? ==>
      forall j, i :: 0 <= j < |cells| && 0 <= i < |cats| && cats[i] == cells[j] ==> r.value[j] == values[i]
    ensures r.Failure? ==> exists j :: 0 <= j < |cells| && cells[j] !in cats && r.error == NoMatchingCategory(j)
  {
    var out: seq<T> := [];
    for j := 0 to |cells|
      invariant |out| == j
      invariant forall k :: 0 <= k < j ==> cells[k] in cats
      invariant forall k, i :: 0 <= k < j && 0 <= i < |cats| && cats[i] == cells[k] ==> out[k] == values[i]
    {
      var i := 0;
      while i < |cats| && cats[i] != cells[j]
        invariant 0 <= i <= |cats|
        invariant cells[j] !in cats[..i]
      {
        i := i + 1;
      }
      if i == |cats| {
        assert cats[..i] == cats;
        return Failure(NoMatchingCategory(j));
      }
      out := out + [values[i]];
    }
    return Success(out);
  }

  /** The categories of a grid are its distinct cells, so every cell finds its category. */
  lemma EveryCellHasCategory(cells: seq<Category>)
    ensures Distinct(Unique(cells))
    ensures forall j :: 0 <= j < |cells| ==> cells[j] in Unique(cells)
  {
  }

  // ---- yearly balance ----

  /** Sum of the values that are not NaN (pandas `sum` skips NaN). */
  function SumKnown(s: seq<Option<real>>): (r: real)
    ensures (forall k :: 0 <= k < |s| ==> s[k].None?) ==> r == 0.0
    ensures (forall k :: 0 <= k < |s| && s[k].Some? ==> s[k].value >= 0.0) ==> r >= 0.0
    decreases |s|
  {
    if |s| == 0 then 0.0
    else SumKnown(s[..|s| - 1]) + (if s[|s| - 1].Some? then s[|s| - 1].value else 0.0)
  }

  /**
   * The basin residual of year k: mean pumping (m, to mm) plus rainfall (mm)
   * minus mean AET (m, to mm), mean runoff and mean natural recharge (mm),
   * the means taken over the grid cells; NaN for a grid without cells.
   */
  function YearResidual(pg: seq<seq<real>>, rnff: seq<seq<real>>, rech: seq<seq<real>>, aet: seq<seq<real>>,
                        rain: seq<real>, years: nat, k: nat): (r: Option<real>)
    requires Rectangular(pg, years) && Rectangular(rnff, years) && Rectangular(rech, years) && Rectangular(aet, years)
    requires |rnff| == |rech| == |aet| == |pg| && |rain| == years && k < years
    ensures r.Some? <==> |pg| > 0
  {
    if |pg| == 0 then None
    else
      Some(CellResidual(Mean(Column(pg, k)).value, Mean(Column(rnff, k)).value,
                        Mean(Column(rech, k)).value, Mean(Column(aet, k)).value, rain[k]))
  }

  /** One cell's residual in year k, in mm. */
  function CellResidual(pg: real, rnff: real, rech: real, aet: real, rain: real): (r: real)
    ensures r == 0.0 <==> pg * 1000.0 + rain == aet * 1000.0 + rnff + rech
    ensures r > 0.0 <==> pg * 1000.0 + rain > aet * 1000.0 + rnff + rech
  {
    pg * 1000.0 + rain - (aet * 1000.0 + rnff + rech)
  }

  /** The residual column of a year, one value per cell. */
  function CellResiduals(pg: seq<real>, rnff: seq<real>, rech: seq<real>, aet: seq<real>, rain: real): (e: seq<real>)
    requires |rnff| == |rech| == |aet| == |pg|
    ensures |e| == |pg|
  {
    seq(|pg|, c requires 0 <= c < |pg| => CellResidual(pg[c], rnff[c], rech[c], aet[c], rain))
  }

  lemma {:induction false} SumCellResiduals(pg: seq<real>, rnff: seq<real>, rech: seq<real>, aet: seq<real>, rain: real)
    requires |rnff| == |rech| == |aet| == |pg|
    ensures Sum(CellResiduals(pg, rnff, rech, aet, rain)) ==
      Sum(pg) * 1000.0 + |pg| as real * rain - (Sum(aet) * 1000.0 + Sum(rnff) + Sum(rech))
    decreases |pg|
  {
    if |pg| > 0 {
      var n := |pg| - 1;
      assert CellResiduals(pg, rnff, rech, aet, rain)[..n] == CellResiduals(pg[..n], rnff[..n], rech[..n], aet[..n], rain);
      SumCellResiduals(pg[..n], rnff[..n], rech[..n], aet[..n], rain);
    }
  }

  lemma MeanOfCombination(se: real, sp: real, sn: real, sr: real, sa: real, rain: real, n: real)
    requires n > 0.0
    requires se == sp * 1000.0 + n * rain - (sa * 1000.0 + sn + sr)
    ensures se / n == CellResidual(sp / n, sn / n, sr / n, sa / n, rain)
  {
    var p, a, q, r := sp / n, sa / n, sn / n, sr / n;
    assert p * n == sp && a * n == sa && q * n == sn && r * n == sr;
    assert se == CellResidual(p, q, r, a, rain) * n;
  }

  /** The mean of the cells' residuals is the residual of the cells' means. */
  lemma MeanOfResiduals(p: seq<real>, n: seq<real>, r: seq<real>, a: seq<real>, rain: real)
    requires |n| == |r| == |a| == |p| > 0
    ensures Mean(CellResiduals(p, n, r, a, rain)) ==
      Some(CellResidual(Mean(p).value, Mean(n).value, Mean(r).value, Mean(a).value, rain))
  {
    var m := |p| as real;
    var sp, sa, sn, sr, se := Sum(p), Sum(a), Sum(n), Sum(r), Sum(CellResiduals(p, n, r, a, rain));
    SumCellResiduals(p, n, r, a, rain);
    MeanOfCombination(se, sp, sn, sr, sa, rain, m);
  }

  /**
   * The basin residual of a year is the mean of the cells' own residuals, so
   * it vanishes whenever every cell balances.
   */
  lemma YearResidualIsMeanOfCells(pg: seq<seq<real>>, rnff: seq<seq<real>>, rech: seq<seq<real>>, aet: seq<seq<real>>,
                                  rain: seq<real>, years: nat, k: nat)
    requires Rectangular(pg, years) && Rectangular(rnff, years) && Rectangular(rech, years) && Rectangular(aet, years)
    requires |rnff| == |rech| == |aet| == |pg| > 0 && |rain| == years && k < years
    ensures YearResidual(pg, rnff, rech, aet, rain, years, k) ==
      Mean(CellResiduals(Column(pg, k), Column(rnff, k), Column(rech, k), Column(aet, k), rain[k]))
  {
    MeanOfResiduals(Column(pg, k), Column(rnff, k), Column(rech, k), Column(aet, k), rain[k]);
  }

  /** The yearly residuals of the basin. */
  function Residuals(pg: seq<seq<real>>, rnff: seq<seq<real>>, rech: seq<seq<real>>, aet: seq<seq<real>>,
                     rain: seq<real>, years: nat): (r: seq<Option<real>>)
    requires Rectangular(pg, years) && Rectangular(rnff, years) && Rectangular(rech, years) && Rectangular(aet, years)
    requires |rnff| == |rech| == |aet| == |pg| && |rain| == years
    ensures |r| == years
  {
    seq(years, k requires 0 <= k < years => YearResidual(pg, rnff, rech, aet, rain, years, k))
  }

  /** The total residual: the yearly residuals from the third year on (the first two are spin-up). */
  function TotalResidual(residuals: seq<Option<real>>): (r: real)
    ensures |residuals| <= 2 ==> r == 0.0
    ensures (forall k :: 2 <= k < |residuals| ==> residuals[k].None?) ==> r == 0.0
    ensures (forall k :: 2 <= k < |residuals| && residuals[k].Some? ==> residuals[k].value >= 0.0) ==> r >= 0.0
  {
    if |residuals| <= 2 then 0.0 else SumKnown(residuals[2..])
  }

  /** Years that all balance (residual 0 or NaN) give a total residual of 0. */
  lemma {:induction false} SumKnownZero(s: seq<Option<real>>)
    requires forall k :: 0 <= k < |s| ==> s[k].None? || s[k].value == 0.0
    ensures SumKnown(s) == 0.0
    decreases |s|
  {
    if |s| > 0 {
      SumKnownZero(s[..|s| - 1]);
    }
  }

  /**
   * When every cell balances in every year from the third on, so does the
   * basin, and the total residual is 0.
   */
  lemma BalancedCellsGiveZeroTotal(pg: seq<seq<real>>, rnff: seq<seq<real>>, rech: seq<seq<real>>, aet: seq<seq<real>>,
                                  rain: seq<real>, years: nat)
    requires Rectangular(pg, years) && Rectangular(rnff, years) && Rectangular(rech, years) && Rectangular(aet, years)
    requires |rnff| == |rech| == |aet| == |pg| && |rain| == years
    requires forall c, k :: 0 <= c < |pg| && 2 <= k < years ==>
      CellResidual(pg[c][k], rnff[c][k], rech[c][k], aet[c][k], rain[k]) == 0.0
    ensures TotalResidual(Residuals(pg, rnff, rech, aet, rain, years)) == 0.0
  {
    var res := Residuals(pg, rnff, rech, aet, rain, years);
    if years > 2 {
      var tail := res[2..];
      forall k | 0 <= k < |tail|
        ensures tail[k].None? || tail[k].value == 0.0
      {
        var y := k + 2;
        if |pg| > 0 {
          YearResidualIsMeanOfCells(pg, rnff, rech, aet, rain, years, y);
          var e := CellResiduals(Column(pg, y), Column(rnff, y), Column(rech, y), Column(aet, y), rain[y]);
          SumBounds(e, 0.0, 0.0);
        }
      }
      SumKnownZero(tail);
    }
  }
}
