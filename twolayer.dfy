/**
 * The two-layer fine-grid run: every category is a thin top layer over a
 * thick bottom layer. The top layer runs the two-regime recurrence on the
 * rainfall, pumping and RET of its category; whatever leaves its bottom
 * (`qout`) is the bottom layer's rainfall, and its unmet demand (`Deficit`)
 * is the bottom layer's RET. The bottom layer has a bund so high that it
 * never spills. The reported recharge leaves the bottom layer, the reported
 * runoff the top one, and evaporation is the sum of both layers.
 */
module TwoLayer {
  import opened Wrappers
  import opened Series
  import opened HydMod
  import opened FineGridInputs
  import opened FineGrid

  // ---- parameter tables ----

  const UpperThickTab: seq<real> := [0.20, 0.20, 0.10, 0.20, 0.50]
  const LowerThickTab: seq<real> := [1.20, 1.40, 1.13, 2.20, 2.20]
  /** Bund height of the top layer: rice fields, everything else. */
  const UpperThreshTab: seq<real> := [0.12, 0.045]
  /** Bund height of the bottom layer, high enough that it produces no runoff. */
  const LowerThresh: real := 100.0

  const UpperDefault: SoilTable := SoilTable(
    [0.0000187 * 86400.0, 0.0000248 * 86400.0, 0.0000124 * 86400.0, 0.00000423 * 86400.0, 0.00000025 * 86400.0],
    [0.32, 0.36, 0.35, 0.36, 0.60],
    [0.175, 0.193, 0.129, 0.117, 0.033],
    [-0.089, -0.111, -0.060, -0.037, -0.312],
    [14.8, 13.3, 19.3, 20.2, 63.7])

  const UpperForest: SoilTable := SoilTable(
    [0.0000262 * 86400.0, 0.0000315 * 86400.0, 0.0000209 * 86400.0, 0.0000135 * 86400.0, 0.00000025 * 86400.0],
    [0.25, 0.32, 0.27, 0.36, 0.60],
    [0.177, 0.193, 0.129, 0.117, 0.033],
    [-0.117, -0.132, -0.098, -0.066, -0.312],
    [14.8, 13.3, 19.3, 20.2, 63.7])

  const UpperScrub: SoilTable := SoilTable(
    [0.0000327 * 86400.0, 0.0000371 * 86400.0, 0.0000283 * 86400.0, 0.00002195 * 86400.0, 0.00000025 * 86400.0],
    [0.25, 0.28, 0.27, 0.28, 0.60],
    [0.177, 0.193, 0.129, 0.117, 0.033],
    [-0.136, -0.142, -0.125, -0.102, -0.312],
    [14.8, 13.3, 19.3, 20.2, 63.7])

  const LowerDefault: SoilTable := SoilTable(
    [0.00000519 * 86400.0, 0.00000606 * 86400.0, 0.0000108 * 86400.0, 0.00000310 * 86400.0, 0.00000075 * 86400.0],
    [0.37, 0.37, 0.35, 0.35, 0.55],
    [0.077, 0.100, 0.096, 0.080, 0.052],
    [-0.041, -0.053, -0.123, -0.036, -0.055],
    [29.5, 23.0, 24.1, 28.2, 41.7])

  const LowerForest: SoilTable := SoilTable(
    [0.0000107 * 86400.0, 0.0000114 * 86400.0, 0.0000162 * 86400.0, 0.00000667 * 86400.0, 0.00000075 * 86400.0],
    [0.26, 0.37, 0.27, 0.35, 0.55],
    [0.076, 0.100, 0.096, 0.080, 0.052],
    [-0.122, -0.132, -0.201, -0.089, -0.055],
    [29.7, 23.0, 24.1, 28.2, 41.7])

  const LowerScrub: SoilTable := SoilTable(
    [0.0000161 * 86400.0, 0.0000168 * 86400.0, 0.0000216 * 86400.0, 0.0000122 * 86400.0, 0.00000075 * 86400.0],
    [0.26, 0.26, 0.27, 0.35, 0.55],
    [0.076, 0.100, 0.096, 0.080, 0.052],
    [-0.201, -0.210, -0.279, -0.144, -0.055],
    [29.7, 23.0, 24.1, 28.2, 41.7])

  lemma UpperTablesSound()
    ensures Sound(UpperDefault) && Sound(UpperForest) && Sound(UpperScrub)
    ensures forall i :: 0 <= i < |SoilTypes| ==> UpperThickTab[i] > 0.0
  {
  }

  lemma LowerTablesSound()
    ensures Sound(LowerDefault) && Sound(LowerForest) && Sound(LowerScrub)
    ensures forall i :: 0 <= i < |SoilTypes| ==> LowerThickTab[i] > 0.0
  {
  }

  /** The top-layer table of a land use other than rice. */
  function UpperCover(landUse: string): (t: SoilTable)
    ensures Complete(t) && Sound(t)
    ensures landUse == "Forest" ==> t == UpperForest
    ensures landUse == "Scrub" ==> t == UpperScrub
    ensures landUse != "Forest" && landUse != "Scrub" ==> t == UpperDefault
  {
    UpperTablesSound();
    if landUse == "Forest" then UpperForest else if landUse == "Scrub" then UpperScrub else UpperDefault
  }

  /** The bottom-layer table of any land use: rice falls under the default table. */
  function LowerCover(landUse: string): (t: SoilTable)
    ensures Complete(t) && Sound(t)
    ensures landUse == "Forest" ==> t == LowerForest
    ensures landUse == "Scrub" ==> t == LowerScrub
    ensures landUse != "Forest" && landUse != "Scrub" ==> t == LowerDefault
  {
    LowerTablesSound();
    if landUse == "Forest" then LowerForest else if landUse == "Scrub" then LowerScrub else LowerDefault
  }

  datatype Layers = Layers(upper: Params, lower: Params)

  /**
   * The parameters of both layers of a category. Both thicknesses come from
   * the soil class. Rice takes the puddled-layer constants and the high bund
   * on top and the default table below; every other land use takes the low
   * bund and its land-cover tables in both layers. The bottom layer never
   * spills. An unknown soil class raises.
   */
  function LayerParams(cat: Category): (r: Result<Layers, Error>)
    ensures r.Success? <==> cat.soilClass in SoilTypes
    ensures r.Failure? ==> r.error == UnknownSoilClass(cat.soilClass)
    ensures r.Success? ==> Usable(r.value.upper) && Usable(r.value.lower)
    ensures r.Success? ==>
      r.value.upper.SoilThick == UpperThickTab[SoilIndex(cat.soilClass).value] &&
      r.value.lower.SoilThick == LowerThickTab[SoilIndex(cat.soilClass).value]
    ensures r.Success? ==> r.value.lower.Thresh == LowerThresh
    ensures r.Success? ==> r.value.upper.Thresh == if IsPaddy(cat.landUse) then 0.12 else 0.045
    ensures r.Success? && IsPaddy(cat.landUse) ==> r.value.upper.Ks == PaddyKs && r.value.upper.ThetaS == PaddyThetaS
    ensures r.Success? && IsPaddy(cat.landUse) ==>
      r.value.lower.Ks == LowerDefault.Ks[SoilIndex(cat.soilClass).value] &&
      r.value.lower.ThetaS == LowerDefault.ThetaS[SoilIndex(cat.soilClass).value]
    ensures r.Success? && IsPaddy(cat.landUse) ==>
      r.value.upper == PaddyParams(UpperThickTab[SoilIndex(cat.soilClass).value], 0.12)
    ensures r.Success? && !IsPaddy(cat.landUse) ==>
      r.value.upper == FromTable(UpperCover(cat.landUse), SoilIndex(cat.soilClass).value,
                                 UpperThickTab[SoilIndex(cat.soilClass).value], 0.045)
    ensures r.Success? ==>
      r.value.lower == FromTable(LowerCover(cat.landUse), SoilIndex(cat.soilClass).value,
                                 LowerThickTab[SoilIndex(cat.soilClass).value], LowerThresh)
  {
    match SoilIndex(cat.soilClass)
    case Failure(e) => Failure(e)
    case Success(i) =>
      UpperTablesSound();
      LowerTablesSound();
      assert UpperThickTab[i] > 0.0 && LowerThickTab[i] > 0.0;
      var upper :=
        if IsPaddy(cat.landUse) then PaddyParams(UpperThickTab[i], UpperThreshTab[0])
        else FromTable(UpperCover(cat.landUse), i, UpperThickTab[i], UpperThreshTab[1]);
      Success(Layers(upper, FromTable(LowerCover(cat.landUse), i, LowerThickTab[i], LowerThresh)))
  }

  // ---- chaining the layers ----

  /** The bottom layer's forcing: the top layer's outflow as rain, its deficit as RET, no pumping. */
  function LowerForcing(upper: seq<Row>): (f: seq<Forcing>)
    ensures |f| == |upper|
    ensures forall d :: 0 <= d < |upper| ==> f[d].R == upper[d].qout && f[d].PG.None? && f[d].RET == upper[d].Deficit
  {
    seq(|upper|, d requires 0 <= d < |upper| => Forcing(upper[d].qout, None, upper[d].Deficit))
  }

  datatype LayerRuns = LayerRuns(upper: seq<Row>, lower: seq<Row>)

  /** Both runs of a category with a known soil class. */
  function LayerRun(cat: Category, pow: Power, rain: seq<real>, pg: seq<real>, ret: seq<real>): (r: LayerRuns)
    requires cat.soilClass in SoilTypes
    requires |pg| == |rain| && |ret| == |rain|
    ensures |r.upper| == |r.lower| == |rain|
  {
    var layers := LayerParams(cat).value;
    var upper := Simulate(layers.upper, pow, CategoryForcing(rain, pg, ret));
    LayerRuns(upper, Simulate(layers.lower, pow, LowerForcing(upper)))
  }

  /** The two runs of one category, the second fed by the first. */
  method RunLayers(cat: Category, pow: Power, rain: seq<real>, pg: seq<real>, ret: seq<real>) returns (r: LayerRuns)
    requires cat.soilClass in SoilTypes
    requires |pg| == |rain| && |ret| == |rain|
    ensures r == LayerRun(cat, pow, rain, pg, ret)
  {
    var layers := LayerParams(cat).value;
    var upper := HydModRun(layers.upper, pow, CategoryForcing(rain, pg, ret));
    var lower := HydModRun(layers.lower, pow, LowerForcing(upper));
    r := LayerRuns(upper, lower);
  }

  /**
   * On every day after the first, the bottom layer spills only when the
   * top layer's outflow plus the carried-over storage exceeds its 100 m
   * bund, and the two layers together evaporate the category's RET less the
   * bottom layer's deficit: the top layer's deficit is exactly the demand
   * handed down. With physical parameters that deficit is not negative, so
   * the pair never evaporates more than RET.
   */
  lemma {:induction false} ChainedLayers(cat: Category, pow: Power, rain: seq<real>, pg: seq<real>, ret: seq<real>, d: nat)
    requires cat.soilClass in SoilTypes
    requires |pg| == |rain| && |ret| == |rain| && 1 <= d < |rain|
    ensures var r := LayerRun(cat, pow, rain, pg, ret);
      r.lower[d].Runoff == 0.0 <==> r.upper[d].qout + Max0(r.lower[d - 1].DeltaS) <= LowerThresh
    ensures var r := LayerRun(cat, pow, rain, pg, ret);
      r.upper[d].AET + r.lower[d].AET == ret[d] - r.lower[d].Deficit
    ensures var r := LayerRun(cat, pow, rain, pg, ret);
      0.0 <= r.lower[d].Deficit && r.upper[d].AET + r.lower[d].AET <= ret[d]
  {
    var layers := LayerParams(cat).value;
    var f1 := CategoryForcing(rain, pg, ret);
    var upper := Simulate(layers.upper, pow, f1);
    var f2 := LowerForcing(upper);
    var lower := Simulate(layers.lower, pow, f2);
    ChainStep(DayStep(layers.upper, pow), f1, d);
    ChainStep(DayStep(layers.lower, pow), f2, d);
    assert upper[d] == Day(layers.upper, pow, upper[d - 1], f1[d]);
    assert lower[d] == Day(layers.lower, pow, lower[d - 1], f2[d]);
    assert Inflow(f2[d], lower[d - 1].DeltaS) == upper[d].qout + Max0(lower[d - 1].DeltaS);
  }

  // ---- every category ----

  /** The runs of categories whose soil classes are all known. */
  function KnownLayerRuns(cats: seq<Category>, pow: Power, rain: seq<real>, pg: seq<seq<real>>, ret: seq<seq<real>>)
    : (runs: seq<LayerRuns>)
    requires Columns(pg, |cats|, |rain|) && Columns(ret, |cats|, |rain|)
    requires forall c :: 0 <= c < |cats| ==> cats[c].soilClass in SoilTypes
    ensures |runs| == |cats|
    ensures forall c :: 0 <= c < |cats| ==> runs[c] == LayerRun(cats[c], pow, rain, pg[c], ret[c])
  {
    seq(|cats|, c requires 0 <= c < |cats| => LayerRun(cats[c], pow, rain, pg[c], ret[c]))
  }

  /**
   * The category loop applied to every category: the first unknown soil
   * class raises; otherwise every category holds its own pair of runs.
   */
  function LayerRunsOf(cats: seq<Category>, pow: Power, rain: seq<real>, pg: seq<seq<real>>, ret: seq<seq<real>>)
    : (r: Result<seq<LayerRuns>, Error>)
    requires Columns(pg, |cats|, |rain|) && Columns(ret, |cats|, |rain|)
    ensures r.Success? <==> forall c :: 0 <= c < |cats| ==> cats[c].soilClass in SoilTypes
    ensures r.Success? ==> |r.value| == |cats|
    ensures r.Failure? ==> r.error == UnknownSoilClass(cats[FirstUnknown(cats)].soilClass)
  {
    var k := FirstUnknown(cats);
    if k < |cats| then Failure(UnknownSoilClass(cats[k].soilClass))
    else Success(KnownLayerRuns(cats, pow, rain, pg, ret))
  }

  /** The category loop: select both parameter sets, run both layers, store the runs. */
  method RunAllCategories(cats: seq<Category>, pow: Power, rain: seq<real>, pg: seq<seq<real>>, ret: seq<seq<real>>)
    returns (r: Result<seq<LayerRuns>, Error>)
    requires Columns(pg, |cats|, |rain|) && Columns(ret, |cats|, |rain|)
    ensures r == LayerRunsOf(cats, pow, rain, pg, ret)
  {
    var runs: seq<LayerRuns> := [];
    for c := 0 to |cats|
      invariant forall b :: 0 <= b < c ==> cats[b].soilClass in SoilTypes
      invariant |runs| == c
      invariant forall b :: 0 <= b < c ==> runs[b] == LayerRun(cats[b], pow, rain, pg[b], ret[b])
    {
      if cats[c].soilClass !in SoilTypes {
        FirstUnknownAt(cats, c);
        return Failure(UnknownSoilClass(cats[c].soilClass));
      }
      var pair := RunLayers(cats[c], pow, rain, pg[c], ret[c]);
      var next := runs + [pair];
      forall b | 0 <= b <= c
        ensures next[b] == LayerRun(cats[b], pow, rain, pg[b], ret[b])
      {
        if b < c { assert next[b] == runs[b]; }
      }
      runs := next;
    }
    assert FirstUnknown(cats) == |cats|;
    assert runs == KnownLayerRuns(cats, pow, rain, pg, ret);
    return Success(runs);
  }

  // ---- the loop header as written ----

  /**
   * The labels the loop header visits as written: it takes the 29th category
   * label and iterates over its characters, each a one-letter label of its
   * own; with fewer than 29 categories the label does not exist.
   */
  function HeaderLabels(n: nat): (r: Result<seq<string>, Error>)
    requires n <= 702
    ensures r.Success? <==> n > 28
    ensures r.Failure? ==> r.error == IndexOutOfRange(28)
  {
    if n <= 28 then Failure(IndexOutOfRange(28))
    else Success(seq(|AlphaIndex[28]|, i requires 0 <= i < |AlphaIndex[28]| => [AlphaIndex[28][i]]))
  }

  /** The first three labels. */
  lemma FirstLabels()
    ensures AlphaIndex[0] == "A" && AlphaIndex[1] == "B" && AlphaIndex[2] == "C"
  {
    assert AlphaIndex[1] == AlphaLabel(1);
    assert AlphaIndex[2] == AlphaLabel(2);
  }

  /** The header visits the labels "A" and "C", which name the first and third categories. */
  lemma HeaderVisits(n: nat)
    requires 28 < n <= 702
    ensures HeaderLabels(n) == Success([AlphaIndex[0], AlphaIndex[2]])
  {
    AlphaIndexShape();
    FirstLabels();
    var header := AlphaIndex[28];
    var labels := HeaderLabels(n).value;
    assert |labels| == 2;
    assert labels[0] == [header[0]] == "A";
    assert labels[1] == [header[1]] == "C";
    assert labels == ["A", "C"];
  }

  /**
   * The categories the header visits, found by label: the first and the
   * third.
   */
  function HeaderPositions(n: nat): (ps: seq<nat>)
    requires 28 < n <= 702
    ensures ps == [0, 2]
  {
    HeaderVisits(n);
    FirstLabels();
    assert AlphaIndex[..2] == ["A", "B"];
    FirstIndexUnique(AlphaIndex, "A", 0);
    FirstIndexUnique(AlphaIndex, "C", 2);
    var labels := HeaderLabels(n).value;
    seq(|labels|, i requires 0 <= i < |labels| => FirstIndex(AlphaIndex, labels[i]))
  }

  /** The first of the visited categories whose soil class is not listed, if any. */
  function UnknownAmong(cats: seq<Category>, ps: seq<nat>): (r: Option<nat>)
    requires forall i :: 0 <= i < |ps| ==> ps[i] < |cats|
    ensures r.Some? ==> r.value in ps && cats[r.value].soilClass !in SoilTypes
    ensures r.None? ==> forall i :: 0 <= i < |ps| ==> cats[ps[i]].soilClass in SoilTypes
  {
    if |ps| == 0 then None
    else if cats[ps[0]].soilClass !in SoilTypes then Some(ps[0])
    else UnknownAmong(cats, ps[1..])
  }

  /**
   * The category loop as written: the header raises with fewer than 29
   * categories; otherwise only the categories it visits are run, in order (an
   * unknown soil class among them raises), and every other column of the
   * output tables stays empty.
   */
  function AsWrittenRuns(cats: seq<Category>, pow: Power, rain: seq<real>, pg: seq<seq<real>>, ret: seq<seq<real>>)
    : (r: Result<seq<Option<LayerRuns>>, Error>)
    requires |cats| <= 702
    requires Columns(pg, |cats|, |rain|) && Columns(ret, |cats|, |rain|)
    ensures r.Success? ==> |r.value| == |cats|
  {
    if |cats| <= 28 then Failure(IndexOutOfRange(28))
    else
      var ps := HeaderPositions(|cats|);
      match UnknownAmong(cats, ps)
      case Some(c) => Failure(UnknownSoilClass(cats[c].soilClass))
      case None =>
        Success(seq(|cats|, c requires 0 <= c < |cats| =>
          if c in ps then Some(LayerRun(cats[c], pow, rain, pg[c], ret[c])) else None))
  }

  /**
   * What the header costs: with at most 28 categories the run raises where
   * every category could be run, and with more only two of them are run —
   * the second category, for one, is never run, although the loop over
   * every category runs it.
   */
  lemma HeaderSkipsCategories(cats: seq<Category>, pow: Power, rain: seq<real>, pg: seq<seq<real>>, ret: seq<seq<real>>)
    requires |cats| <= 702
    requires Columns(pg, |cats|, |rain|) && Columns(ret, |cats|, |rain|)
    requires forall c :: 0 <= c < |cats| ==> cats[c].soilClass in SoilTypes
    ensures LayerRunsOf(cats, pow, rain, pg, ret).Success?
    ensures |cats| <= 28 ==> AsWrittenRuns(cats, pow, rain, pg, ret) == Failure(IndexOutOfRange(28))
    ensures |cats| > 28 ==>
      AsWrittenRuns(cats, pow, rain, pg, ret).Success? &&
      AsWrittenRuns(cats, pow, rain, pg, ret).value[1].None? &&
      LayerRunsOf(cats, pow, rain, pg, ret).value[1] == LayerRun(cats[1], pow, rain, pg[1], ret[1])
  {
    if |cats| > 28 {
      var ps := HeaderPositions(|cats|);
      assert UnknownAmong(cats, ps).None?;
      assert 1 !in ps;
    }
  }

  // ---- combining the layers ----

  /** What the script keeps of one category's pair of runs. */
  datatype LayerOutputs = LayerOutputs(
    Rech: seq<real>,     // natural recharge out of the bottom layer, mm/day
    Runoff: seq<real>,   // runoff of the top layer, mm/day
    Deficit: seq<real>,  // deficit of the bottom layer, mm/day
    AET: seq<real>,      // evaporation of both layers, m/day
    Kh1: Option<real>, hUnsat1: Option<real>, Theta1: Option<real>,
    Kh2: Option<real>, hUnsat2: Option<real>, Theta2: Option<real>)

  function CombineLayers(r: LayerRuns, pg: seq<real>, cf: seq<real>): (o: LayerOutputs)
    requires |r.lower| == |r.upper| && |pg| == |r.upper| && |cf| == |r.upper|
    ensures |o.Rech| == |o.Runoff| == |o.Deficit| == |o.AET| == |r.upper|
  {
    LayerOutputs(
      NaturalRecharge(CleanRecharge(Field(r.lower, (x: Row) => x.qout)), pg, cf),
      Millimetres(Field(r.upper, (x: Row) => x.Runoff)),
      Millimetres(Field(r.lower, (x: Row) => x.Deficit)),
      seq(|r.upper|, d requires 0 <= d < |r.upper| => r.upper[d].AET + r.lower[d].AET),
      KhSummary(Field(r.upper, (x: Row) => x.Kh)),
      HeadSummary(Field(r.upper, (x: Row) => x.hUnsat)),
      Mean(Field(r.upper, (x: Row) => x.Theta1)),
      KhSummary(Field(r.lower, (x: Row) => x.Kh)),
      HeadSummary(Field(r.lower, (x: Row) => x.hUnsat)),
      Mean(Field(r.lower, (x: Row) => x.Theta1)))
  }

  /**
   * For the outputs of a chained pair of runs, on every day after the first:
   * the reported evaporation (in mm) and the reported deficit add up to the
   * category's RET (in mm), the deficit is not negative and evaporation never
   * exceeds RET; the reported recharge is never negative and, with a
   * non-negative return-flow coefficient, never more than the bottom layer's
   * clean recharge.
   */
  lemma CombinedOutputs(cat: Category, pow: Power, rain: seq<real>, pg: seq<real>, ret: seq<real>, cf: seq<real>, d: nat)
    requires cat.soilClass in SoilTypes
    requires |pg| == |rain| && |ret| == |rain| && |cf| == |rain| && 1 <= d < |rain| && cf[d] >= 0.0
    ensures var r := LayerRun(cat, pow, rain, pg, ret);
      var o := CombineLayers(r, pg, cf);
      o.AET[d] * 1000.0 + o.Deficit[d] == ret[d] * 1000.0
    ensures var o := CombineLayers(LayerRun(cat, pow, rain, pg, ret), pg, cf);
      0.0 <= o.Deficit[d] && o.AET[d] <= ret[d]
    ensures var r := LayerRun(cat, pow, rain, pg, ret);
      0.0 <= CombineLayers(r, pg, cf).Rech[d] <= CleanRecharge(Field(r.lower, (x: Row) => x.qout))[d]
  {
    var r := LayerRun(cat, pow, rain, pg, ret);
    ChainedLayers(cat, pow, rain, pg, ret, d);
    NaturalRechargeBounds(CleanRecharge(Field(r.lower, (x: Row) => x.qout)), pg, cf, d);
  }
}
