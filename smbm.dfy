/**
 * The single-bucket soil moisture balance (SMBM). Each day the inputs are
 * capped at the maximum surface storage MWC (the excess runs off), the store
 * AW is moved by the capped inputs minus evapotranspiration and clamped to
 * [0, AWC], and the clamp residue D/E becomes recharge when positive or a
 * cut in evapotranspiration when negative.
 */
module Smbm {
  import opened Wrappers
  import opened Series

  /** One row of the daily table: DeltaR, AW, D/E, actual RET and recharge. */
  datatype Bucket = Bucket(DeltaR: real, AW: real, DE: real, RET: real, Rech: real)

  /** The part of the day's inputs the surface keeps: all of it below MWC, MWC from MWC up. */
  function Capped(input: real, mwc: real): (c: real)
    ensures c <= input && c <= mwc
    ensures c == input || c == mwc
  {
    if input >= mwc then mwc else input
  }

  /** The day's runoff: what exceeds MWC, else nothing. */
  function Runoff(input: real, mwc: real): (r: real)
    ensures r >= 0.0
    ensures r > 0.0 <==> input > mwc
  {
    if input > mwc then input - mwc else 0.0
  }

  /** The inputs split exactly into what runs off and what the surface keeps. */
  lemma RunoffSplit(input: real, mwc: real)
    ensures Runoff(input, mwc) + Capped(input, mwc) == input
  {
  }

  /** The DeltaR column: capped inputs minus evapotranspiration, day by day. */
  function StockChanges(input: seq<real>, pet: seq<real>, mwc: real): (d: seq<real>)
    requires |input| == |pet|
    ensures |d| == |input|
    ensures forall i :: 0 <= i < |d| ==> d[i] + pet[i] == Capped(input[i], mwc)
  {
    seq(|input|, i requires 0 <= i < |input| => Capped(input[i], mwc) - pet[i])
  }

  /** The Runoff column. */
  function Runoffs(input: seq<real>, mwc: real): (r: seq<real>)
    ensures |r| == |input|
    ensures forall i :: 0 <= i < |r| ==> r[i] >= 0.0 && r[i] + Capped(input[i], mwc) == input[i]
  {
    seq(|input|, i requires 0 <= i < |input| => Runoff(input[i], mwc))
  }

  /**
   * One day of the bucket from yesterday's store `prev`: the store is clamped
   * to [0, AWC] and the residue is recharge (when positive) or a cut in
   * evapotranspiration (when negative).
   */
  function BucketDay(prev: real, deltaR: real, pet: real, awc: real): (b: Bucket)
    ensures b.DeltaR == deltaR
    ensures awc >= 0.0 ==> 0.0 <= b.AW <= awc
    ensures prev + deltaR == b.AW + b.DE
    ensures b.DE > 0.0 ==> b.AW == awc
    ensures b.DE < 0.0 ==> b.AW == 0.0
    ensures 0.0 <= prev + deltaR <= awc ==> b.AW == prev + deltaR && b.DE == 0.0
    ensures b.Rech >= 0.0 && (b.Rech > 0.0 <==> b.DE > 0.0)
    ensures b.Rech == b.DE || b.Rech == 0.0
    ensures b.RET <= pet && b.RET + b.Rech == pet + b.DE
  {
    var aw := if prev + deltaR > awc then awc else if prev + deltaR < 0.0 then 0.0 else prev + deltaR;
    var de := deltaR + prev - aw;
    if de > 0.0 then Bucket(deltaR, aw, de, pet, de)
    else Bucket(deltaR, aw, de, pet + de, 0.0)
  }

  /** The store yesterday: the initial content on day 0, else the previous row's AW. */
  function Previous(iwc: real, rows: seq<Bucket>): real {
    if |rows| == 0 then iwc else rows[|rows| - 1].AW
  }

  /** The daily table for the stock changes `deltaR` and evapotranspiration `pet`. */
  function Buckets(iwc: real, deltaR: seq<real>, pet: seq<real>, awc: real): (rows: seq<Bucket>)
    requires |deltaR| == |pet|
    ensures |rows| == |deltaR|
    ensures awc >= 0.0 ==> forall i :: 0 <= i < |rows| ==> 0.0 <= rows[i].AW <= awc
    ensures forall i :: 0 <= i < |rows| ==> rows[i].Rech >= 0.0 && rows[i].RET <= pet[i]
    decreases |deltaR|
  {
    if |deltaR| == 0 then []
    else
      var n := |deltaR| - 1;
      var front := Buckets(iwc, deltaR[..n], pet[..n], awc);
      front + [BucketDay(Previous(iwc, front), deltaR[n], pet[n], awc)]
  }

  /** Day d of the table is BucketDay of the store left by day d-1 (or of IWC on day 0). */
  lemma {:induction false} BucketsStep(iwc: real, deltaR: seq<real>, pet: seq<real>, awc: real, d: nat)
    requires |deltaR| == |pet| && d < |deltaR|
    ensures var rows := Buckets(iwc, deltaR, pet, awc);
      rows[d] == BucketDay(Previous(iwc, rows[..d]), deltaR[d], pet[d], awc)
    decreases |deltaR|
  {
    var n := |deltaR| - 1;
    var rows := Buckets(iwc, deltaR, pet, awc);
    var front := Buckets(iwc, deltaR[..n], pet[..n], awc);
    assert rows == front + [BucketDay(Previous(iwc, front), deltaR[n], pet[n], awc)];
    if d < n {
      BucketsStep(iwc, deltaR[..n], pet[..n], awc, d);
      assert rows[..d] == front[..d];
    } else {
      assert rows[..d] == front;
    }
  }

  /** The daily loop: day d reads the store of day d-1 (IWC on day 0) and writes row d. */
  method BucketRun(iwc: real, deltaR: seq<real>, pet: seq<real>, awc: real) returns (table: seq<Bucket>)
    requires |deltaR| == |pet|
    ensures table == Buckets(iwc, deltaR, pet, awc)
  {
    var out := new Bucket[|deltaR|](_ => Bucket(0.0, 0.0, 0.0, 0.0, 0.0));
    for d := 0 to |deltaR|
      invariant out[..d] == Buckets(iwc, deltaR[..d], pet[..d], awc)
    {
      var prev := if d == 0 then iwc else out[d - 1].AW;
      assert prev == Previous(iwc, out[..d]);
      out[d] := BucketDay(prev, deltaR[d], pet[d], awc);
      assert deltaR[..d + 1][..d] == deltaR[..d] && pet[..d + 1][..d] == pet[..d];
      assert out[..d + 1] == out[..d] + [out[d]];
    }
    assert deltaR[..|deltaR|] == deltaR && pet[..|pet|] == pet;
    table := out[..];
  }

  /** The D/E, recharge and actual-RET columns of a table. */
  function DEs(rows: seq<Bucket>): (s: seq<real>)
    ensures |s| == |rows| && forall i :: 0 <= i < |rows| ==> s[i] == rows[i].DE
  {
    seq(|rows|, i requires 0 <= i < |rows| => rows[i].DE)
  }

  function Recharges(rows: seq<Bucket>): (s: seq<real>)
    ensures |s| == |rows| && forall i :: 0 <= i < |rows| ==> s[i] == rows[i].Rech
  {
    seq(|rows|, i requires 0 <= i < |rows| => rows[i].Rech)
  }

  function ActualRETs(rows: seq<Bucket>): (s: seq<real>)
    ensures |s| == |rows| && forall i :: 0 <= i < |rows| ==> s[i] == rows[i].RET
  {
    seq(|rows|, i requires 0 <= i < |rows| => rows[i].RET)
  }

  /**
   * Store balance over a whole run: the stock changes add up to the change of
   * the store plus the clamp residues.
   */
  lemma {:induction false} StoreBalance(iwc: real, deltaR: seq<real>, pet: seq<real>, awc: real)
    requires |deltaR| == |pet|
    ensures var rows := Buckets(iwc, deltaR, pet, awc);
      Sum(deltaR) == Previous(iwc, rows) - iwc + Sum(DEs(rows))
    decreases |deltaR|
  {
    if |deltaR| > 0 {
      var n := |deltaR| - 1;
      var rows := Buckets(iwc, deltaR, pet, awc);
      var front := Buckets(iwc, deltaR[..n], pet[..n], awc);
      StoreBalance(iwc, deltaR[..n], pet[..n], awc);
      assert rows[..n] == front;
      assert DEs(rows)[..n] == DEs(front);
    }
  }

  /**
   * Water balance over a whole run: what the surface keeps, minus actual
   * evapotranspiration and recharge, is what the store gained.
   */
  lemma {:induction false} WaterBalance(iwc: real, input: seq<real>, pet: seq<real>, mwc: real, awc: real)
    requires |input| == |pet|
    ensures var rows := Buckets(iwc, StockChanges(input, pet, mwc), pet, awc);
      Sum(input) - Sum(Runoffs(input, mwc)) - Sum(ActualRETs(rows)) - Sum(Recharges(rows))
        == Previous(iwc, rows) - iwc
    decreases |input|
  {
    var deltaR := StockChanges(input, pet, mwc);
    var rows := Buckets(iwc, deltaR, pet, awc);
    if |input| > 0 {
      var n := |input| - 1;
      assert StockChanges(input, pet, mwc)[..n] == StockChanges(input[..n], pet[..n], mwc);
      assert Runoffs(input, mwc)[..n] == Runoffs(input[..n], mwc);
      var front := Buckets(iwc, deltaR[..n], pet[..n], awc);
      WaterBalance(iwc, input[..n], pet[..n], mwc, awc);
      assert rows[..n] == front;
      assert ActualRETs(rows)[..n] == ActualRETs(front);
      assert Recharges(rows)[..n] == Recharges(front);
      RunoffSplit(input[n], mwc);
    }
  }

  /** NatRech: the recharge times the return-flow coefficient of each day. */
  function NaturalRecharge(cf: seq<real>, totRech: seq<real>): (r: seq<real>)
    requires |cf| == |totRech|
    ensures |r| == |totRech|
    ensures forall i :: 0 <= i < |r| && 0.0 <= cf[i] <= 1.0 && totRech[i] >= 0.0 ==> 0.0 <= r[i] <= totRech[i]
  {
    seq(|cf|, i requires 0 <= i < |cf| => cf[i] * totRech[i])
  }

  /** A coefficient of 1 on every day leaves all recharge natural. */
  lemma NaturalRechargeUnit(cf: seq<real>, totRech: seq<real>)
    requires |cf| == |totRech| && forall i :: 0 <= i < |cf| ==> cf[i] == 1.0
    ensures NaturalRecharge(cf, totRech) == totRech
  {
  }

  /**
   * One run for a single soil type: the table and its yearly recharge for the
   * years `years`, given the year of each day.
   */
  method SmbmRun(iwc: real, mwc: real, awc: real, rain: seq<real>, pet: seq<real>,
                 yearOf: seq<int>, years: seq<int>)
    returns (table: seq<Bucket>, yearly: seq<real>)
    requires |rain| == |pet| == |yearOf|
    ensures table == Buckets(iwc, StockChanges(rain, pet, mwc), pet, awc)
    ensures yearly == Yearly(Recharges(table), yearOf, years)
  {
    table := BucketRun(iwc, StockChanges(rain, pet, mwc), pet, awc);
    yearly := Yearly(Recharges(table), yearOf, years);
  }

  /**
   * One run for one grid cell with pumping and return flow: the table, the
   * runoff, the natural recharge, the yearly sums joined onto the years
   * `years` of the observed yearly recharge `obs` (None for a year the
   * resample has no bin for), and the error against those observations
   * (before the square root).
   */
  method CellRun(iwc: real, mwc: real, awc: real, input: seq<real>, ret: seq<real>, cf: seq<real>,
                 yearOf: seq<int>, years: seq<int>, obs: seq<real>)
    returns (table: seq<Bucket>, runoff: seq<real>, natRech: seq<real>, yearly: seq<Option<real>>, err: Option<real>)
    requires |input| == |ret| == |cf| == |yearOf|
    requires |obs| == |years|
    ensures table == Buckets(iwc, StockChanges(input, ret, mwc), ret, awc)
    ensures runoff == Runoffs(input, mwc)
    ensures natRech == NaturalRecharge(cf, Recharges(table))
    ensures yearly == Joined(natRech, yearOf, years)
    ensures |yearly| == |obs| && err == MeanSquaredError(yearly, obs)
    ensures err.Some? <==> exists k :: 0 <= k < |years| && InYearRange(yearOf, years[k])
  {
    table := BucketRun(iwc, StockChanges(input, ret, mwc), ret, awc);
    runoff := Runoffs(input, mwc);
    natRech := NaturalRecharge(cf, Recharges(table));
    yearly := Joined(natRech, yearOf, years);
    err := MeanSquaredError(yearly, obs);
  }

  /**
   * The squared differences of the years that have a simulated value, in
   * order; the years the join left NaN are skipped.
   */
  function KnownSquares(sim: seq<Option<real>>, obs: seq<real>): (sq: seq<real>)
    requires |sim| == |obs|
    ensures |sq| > 0 <==> exists k :: 0 <= k < |sim| && sim[k].Some?
    ensures forall i :: 0 <= i < |sq| ==> sq[i] >= 0.0
    ensures (forall i :: 0 <= i < |sq| ==> sq[i] == 0.0) <==>
              (forall k :: 0 <= k < |sim| && sim[k].Some? ==> sim[k].value == obs[k])
    decreases |sim|
  {
    if |sim| == 0 then []
    else
      var n := |sim| - 1;
      var front := KnownSquares(sim[..n], obs[..n]);
      assert forall k :: 0 <= k < n ==> sim[..n][k] == sim[k] && obs[..n][k] == obs[k];
      if sim[n].None? then front
      else
        var last := Square(sim[n].value - obs[n]);
        SquareSign(last, sim[n].value - obs[n]);
        var sq := front + [last];
        assert forall i :: 0 <= i < |front| ==> sq[i] == front[i];
        assert sq[|front|] == last;
        assert (forall i :: 0 <= i < |sq| ==> sq[i] == 0.0) <==>
               (forall i :: 0 <= i < |front| ==> front[i] == 0.0) && last == 0.0;
        sq
  }

  /** With every year simulated, the known squares are all the squared differences. */
  lemma {:induction false} KnownSquaresAll(sim: seq<Option<real>>, obs: seq<real>)
    requires |sim| == |obs|
    requires forall k :: 0 <= k < |sim| ==> sim[k].Some?
    ensures |KnownSquares(sim, obs)| == |sim|
    ensures forall k :: 0 <= k < |sim| ==> KnownSquares(sim, obs)[k] == Square(sim[k].value - obs[k])
    decreases |sim|
  {
    if |sim| > 0 {
      var n := |sim| - 1;
      KnownSquaresAll(sim[..n], obs[..n]);
      var front := KnownSquares(sim[..n], obs[..n]);
      assert KnownSquares(sim, obs) == front + [Square(sim[n].value - obs[n])];
      forall k | 0 <= k < n
        ensures KnownSquares(sim, obs)[k] == Square(sim[k].value - obs[k])
      {
        assert sim[..n][k] == sim[k] && obs[..n][k] == obs[k];
      }
    }
  }

  /**
   * Mean squared difference of simulated and observed yearly values over the
   * years that have a simulated value (before the square root); none when no
   * year has one, as the mean of an all-NaN column.
   */
  function MeanSquaredError(sim: seq<Option<real>>, obs: seq<real>): (e: Option<real>)
    requires |sim| == |obs|
    ensures e.Some? <==> exists k :: 0 <= k < |sim| && sim[k].Some?
    ensures e.Some? ==> e.value >= 0.0
    ensures e.Some? ==> (e.value == 0.0 <==> forall k :: 0 <= k < |sim| && sim[k].Some? ==> sim[k].value == obs[k])
  {
    var sq := KnownSquares(sim, obs);
    SumNonNegative(sq);
    SumZero(sq);
    Mean(sq)
  }

  function Square(x: real): real {
    x * x
  }

  /** A square is never negative, and it is 0 only for 0. */
  lemma SquareSign(p: real, x: real)
    requires p == x * x
    ensures p >= 0.0
    ensures p == 0.0 <==> x == 0.0
  {
    if x != 0.0 {
      assert p / x == x;
    }
  }

  /** The squared differences all vanish exactly when the two series are equal. */
  lemma SquaresVanish(sim: seq<real>, obs: seq<real>, sq: seq<real>)
    requires |sim| == |obs| == |sq|
    requires forall i :: 0 <= i < |sq| ==> sq[i] == (sim[i] - obs[i]) * (sim[i] - obs[i])
    ensures forall i :: 0 <= i < |sq| ==> sq[i] >= 0.0
    ensures (forall i :: 0 <= i < |sq| ==> sq[i] == 0.0) <==> sim == obs
  {
    forall i | 0 <= i < |sq|
      ensures sq[i] >= 0.0 && (sq[i] == 0.0 <==> sim[i] == obs[i])
    {
      SquareSign(sq[i], sim[i] - obs[i]);
    }
    if forall i :: 0 <= i < |sq| ==> sq[i] == 0.0 {
      assert forall i :: 0 <= i < |sim| ==> sim[i] == obs[i];
    }
  }


  /** The recharge series of one soil type, driven by the shared rainfall and evapotranspiration. */
  function SoilTypeRecharge(iwc: real, mwc: real, awc: real, rain: seq<real>, pet: seq<real>): (r: seq<real>)
    requires |rain| == |pet|
    ensures |r| == |rain|
    ensures forall d :: 0 <= d < |r| ==> r[d] >= 0.0
  {
    Recharges(Buckets(iwc, StockChanges(rain, pet, mwc), pet, awc))
  }

  /** The error table: simulated minus observed, cell by cell and year by year. */
  function ErrorTable(sim: seq<seq<real>>, obs: seq<seq<real>>): (err: seq<seq<real>>)
    requires |sim| == |obs| && forall c :: 0 <= c < |sim| ==> |sim[c]| == |obs[c]|
    ensures |err| == |sim|
    ensures forall c :: 0 <= c < |sim| ==> err[c] == Difference(sim[c], obs[c])
  {
    seq(|sim|, c requires 0 <= c < |sim| => Difference(sim[c], obs[c]))
  }

  /**
   * ErrTabTot: the sum over the years of the mean error over the cells. With
   * no cells every mean is NaN and the NaN-skipping sum is 0.
   */
  function ErrorTotal(err: seq<seq<real>>, years: nat): (total: real)
    requires Rectangular(err, years)
    ensures |err| == 0 ==> total == 0.0
    ensures (forall c, k :: 0 <= c < |err| && 0 <= k < years ==> err[c][k] == 0.0) ==> total == 0.0
  {
    if |err| == 0 then 0.0
    else
      var m := ColumnMeans(err, years);
      if forall c, k :: 0 <= c < |err| && 0 <= k < years ==> err[c][k] == 0.0 then
        ColumnMeansWithin(err, years, 0.0, 0.0);
        SumBounds(m, 0.0, 0.0);
        Sum(m)
      else Sum(m)
  }

  /**
   * The total error is the total of the simulated yearly cell means minus
   * that of the observed ones; in particular it is 0 when they agree.
   */
  lemma ErrorTotalSplit(sim: seq<seq<real>>, obs: seq<seq<real>>, years: nat)
    requires |sim| == |obs| > 0 && Rectangular(sim, years) && Rectangular(obs, years)
    ensures Rectangular(ErrorTable(sim, obs), years)
    ensures ErrorTotal(ErrorTable(sim, obs), years)
         == Sum(ColumnMeans(sim, years)) - Sum(ColumnMeans(obs, years))
  {
    var err := ErrorTable(sim, obs);
    var ms := ColumnMeans(sim, years);
    var mo := ColumnMeans(obs, years);
    forall k | 0 <= k < years
      ensures ColumnMeans(err, years)[k] == Difference(ms, mo)[k]
    {
      assert Column(err, k) == Difference(Column(sim, k), Column(obs, k));
      MeanDifference(Column(sim, k), Column(obs, k));
    }
    assert ColumnMeans(err, years) == Difference(ms, mo);
    SumDifference(ms, mo);
  }

  /**
   * What SMBMSoilType_fun ends with: the KeyError for the first requested year
   * that the yearly resample has no column for, or the yearly cell recharges,
   * the error table and its total.
   */
  datatype SoilTypeOutcome =
    | MissingYear(year: int)
    | SoilTypeResult(simYearly: seq<seq<real>>, err: seq<seq<real>>, total: real)

  /**
   * SMBMSoilType_fun: one bucket run per soil type, each cell's daily recharge
   * as the percentage-weighted sum of the soil-type recharges, its yearly
   * sums, the yearly errors against the observations and their total.
   */
  method SoilTypeRun(iwc: real, mwc: seq<real>, awc: seq<real>, rain: seq<real>, pet: seq<real>,
                     pct: seq<seq<real>>, yearOf: seq<int>, years: seq<int>, obs: seq<seq<real>>)
    returns (out: SoilTypeOutcome)
    requires |mwc| == |awc| && |rain| == |pet| == |yearOf|
    requires forall c :: 0 <= c < |pct| ==> |pct[c]| == |mwc|
    requires |obs| == |pct| && Rectangular(obs, |years|)
    ensures out.MissingYear? <==> exists k :: 0 <= k < |years| && !InYearRange(yearOf, years[k])
    ensures out.MissingYear? ==>
              exists k :: 0 <= k < |years| && years[k] == out.year && !InYearRange(yearOf, years[k]) &&
                (forall j :: 0 <= j < k ==> InYearRange(yearOf, years[j]))
    ensures out.SoilTypeResult? ==> |out.simYearly| == |pct|
    ensures out.SoilTypeResult? ==> forall c :: 0 <= c < |pct| ==> |out.simYearly[c]| == |years|
    ensures out.SoilTypeResult? ==> forall c, k :: 0 <= c < |pct| && 0 <= k < |years| ==>
              out.simYearly[c][k] == YearSum(CellRecharge(iwc, mwc, awc, rain, pet, pct[c]), yearOf, years[k])
    ensures out.SoilTypeResult? ==> out.err == ErrorTable(out.simYearly, obs)
    ensures out.SoilTypeResult? ==> Rectangular(out.err, |years|) && out.total == ErrorTotal(out.err, |years|)
  {
    var series := SoilTypeRuns(iwc, mwc, awc, rain, pet);
    var simYearly := [];
    for c := 0 to |pct|
      invariant |simYearly| == c
      invariant forall g :: 0 <= g < c ==> simYearly[g] == Yearly(CellRecharge(iwc, mwc, awc, rain, pet, pct[g]), yearOf, years)
    {
      var daily := AccumulateWeighted(series, pct[c], |rain|);
      assert daily == CellRecharge(iwc, mwc, awc, rain, pet, pct[c]);
      simYearly := simYearly + [Yearly(daily, yearOf, years)];
    }
    var k := FirstOutOfRange(yearOf, years);
    if k < |years| {
      out := MissingYear(years[k]);
    } else {
      var err := ErrorTable(simYearly, obs);
      out := SoilTypeResult(simYearly, err, ErrorTotal(err, |years|));
    }
  }

  /** The loop over the soil types: one bucket run each, keeping its recharge column. */
  method SoilTypeRuns(iwc: real, mwc: seq<real>, awc: seq<real>, rain: seq<real>, pet: seq<real>)
    returns (series: seq<seq<real>>)
    requires |mwc| == |awc| && |rain| == |pet|
    ensures series == SoilTypeSeries(iwc, mwc, awc, rain, pet)
  {
    series := [];
    for st := 0 to |mwc|
      invariant |series| == st
      invariant forall j :: 0 <= j < st ==> series[j] == SoilTypeRecharge(iwc, mwc[j], awc[j], rain, pet)
    {
      var table := BucketRun(iwc, StockChanges(rain, pet, mwc[st]), pet, awc[st]);
      series := series + [Recharges(table)];
    }
  }

  /** The recharge series of every soil type, in order. */
  function SoilTypeSeries(iwc: real, mwc: seq<real>, awc: seq<real>, rain: seq<real>, pet: seq<real>): (s: seq<seq<real>>)
    requires |mwc| == |awc| && |rain| == |pet|
    ensures |s| == |mwc| && forall j :: 0 <= j < |mwc| ==> |s[j]| == |rain|
  {
    seq(|mwc|, j requires 0 <= j < |mwc| => SoilTypeRecharge(iwc, mwc[j], awc[j], rain, pet))
  }

  /** One cell's daily recharge: the soil-type recharges weighted by the cell's percentages over 100. */
  function CellRecharge(iwc: real, mwc: seq<real>, awc: seq<real>, rain: seq<real>, pet: seq<real>, pct: seq<real>): (r: seq<real>)
    requires |mwc| == |awc| == |pct| && |rain| == |pet|
    ensures |r| == |rain|
    ensures forall d :: 0 <= d < |rain| ==> r[d] == WeightedAt(SoilTypeSeries(iwc, mwc, awc, rain, pet), pct, d, |pct|)
  {
    var series := SoilTypeSeries(iwc, mwc, awc, rain, pet);
    seq(|rain|, d requires 0 <= d < |rain| => WeightedAt(series, pct, d, |pct|))
  }
}
