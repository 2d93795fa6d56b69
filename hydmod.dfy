/**
 * The two-regime daily soil-moisture recurrence (Dewandel et al., 2008):
 * a zero-filled table with one row per day, in which row i is computed from
 * row i-1's end-of-day moisture Theta2 and saturated storage change DeltaS
 * and from day i's rainfall R, pumping PG (when the table has that column)
 * and reference evapotranspiration RET. Row 0 keeps its zeros.
 *
 * All quantities are reals in metres (per day). The two Brooks–Corey laws
 * raise a ratio to a real exponent; the model takes that power function as
 * a parameter and proves only what follows from the guards around it.
 */
module HydMod {
  import opened Wrappers

  /** Soil parameters of one run. */
  datatype Params = Params(
    Ks: real,         // saturated hydraulic conductivity (m/day)
    SoilThick: real,  // layer thickness (m)
    ThetaS: real,     // saturated moisture content (m3/m3)
    Thresh: real,     // height of the field bund above the soil (m)
    Lambda: real,     // pore-size distribution index
    hbc: real,        // air-entry pressure head (m, negative)
    Eta: real)        // conductivity shape exponent

  /** The two divisors of the recurrence that the parameters supply. */
  predicate Divisible(p: Params) {
    p.SoilThick != 0.0 && p.Lambda != 0.0
  }

  /** One day of forcing; PG is None when the input table has no PG column. */
  datatype Forcing = Forcing(R: real, PG: Option<real>, RET: real)

  /** One row of the output table. */
  datatype Row = Row(
    Rd: real, Runoff: real, Theta1: real, hUnsat: real, Kh: real, qh: real,
    Theta2: real, hs: real, qs: real, qout: real, DeltaS: real, Deficit: real, AET: real)

  const ZeroRow: Row := Row(0.0, 0.0, 0.0, 0.0, 0.0, 0.0, 0.0, 0.0, 0.0, 0.0, 0.0, 0.0, 0.0)

  /** The value 1E-10 written where moisture would be zero or negative. */
  const Floor: real := 0.0000000001

  /** `Power(base, exponent)`: numpy's power with a real exponent. */
  type Power = (real, real) -> real

  /** Water reaching the field: pumping (when present), rain, and yesterday's positive DeltaS. */
  function Inflow(f: Forcing, prevDeltaS: real): (r: real)
    ensures r >= f.R + (if f.PG.Some? then f.PG.value else 0.0)
    ensures prevDeltaS <= 0.0 ==> r == f.R + (if f.PG.Some? then f.PG.value else 0.0)
    ensures prevDeltaS > 0.0 ==> r - prevDeltaS == f.R + (if f.PG.Some? then f.PG.value else 0.0)
  {
    var carried := if prevDeltaS >= 0.0 then prevDeltaS else 0.0;
    match f.PG
    case Some(pg) => pg + f.R + carried
    case None => f.R + carried
  }

  /** Start-of-day moisture before clipping, from yesterday's Theta2 and today's ponding. */
  function Theta1Bis(p: Params, prev: Row, rd: real, f: Forcing): (t: real)
    requires Divisible(p)
    ensures (t - prev.Theta2) * p.SoilThick == rd - f.RET
  {
    prev.Theta2 + (rd - f.RET) / p.SoilThick
  }

  /** Water available for outflow today (the cap on both fluxes). */
  function QMax(p: Params, prev: Row, rd: real, f: Forcing): (q: real)
    ensures Divisible(p) ==> q == Theta1Bis(p, prev, rd, f) * p.SoilThick
  {
    var q := rd - f.RET + prev.Theta2 * p.SoilThick;
    assert Divisible(p) ==> (prev.Theta2 + (rd - f.RET) / p.SoilThick) * p.SoilThick == q;
    q
  }

  function Min(a: real, b: real): real {
    if a <= b then a else b
  }

  function Max0(a: real): real {
    if a > 0.0 then a else 0.0
  }

  /** Ponding (HydModel__def.py:41-46): the inflow is kept up to the bund height; the rest runs off. */
  function Ponding(rdbis: real, thresh: real): (r: (real, real))
    ensures r.0 + r.1 == rdbis
    ensures r.0 <= thresh && r.1 >= 0.0
    ensures r.1 == 0.0 <==> rdbis <= thresh
  {
    if rdbis <= thresh then (rdbis, 0.0) else (thresh, rdbis - thresh)
  }

  /** Start-of-day moisture (HydModel__def.py:50-55), clipped to ThetaS above and to the floor at or below 0. */
  function StartMoisture(bis: real, thetaS: real): (t: real)
    ensures bis >= thetaS ==> t == thetaS
    ensures 0.0 < bis < thetaS ==> t == bis
    ensures bis <= 0.0 && bis < thetaS ==> t == Floor
    ensures t == thetaS || t > 0.0
    ensures thetaS >= Floor ==> 0.0 < t <= thetaS
    ensures thetaS > Floor ==> (t == thetaS <==> bis >= thetaS)
  {
    if bis >= thetaS then thetaS
    else if bis > 0.0 then bis
    else Floor
  }

  /** Unsaturated outflow (HydModel__def.py:68-72): the Darcy estimate, taken only with positive conductivity and never above the available water. */
  function UnsatFlux(kh: real, qhbis: real, qmax: real): (q: real)
    ensures q != 0.0 ==> kh > 0.0
    ensures q <= Max0(qmax)
    ensures kh > 0.0 && qhbis < qmax ==> q == qhbis
    ensures kh > 0.0 && qhbis >= qmax ==> q == Max0(qmax)
  {
    if kh > 0.0 then
      if qhbis < qmax then qhbis else if qmax > 0.0 then qmax else 0.0
    else 0.0
  }

  /**
   * The unsaturated zone (HydModel__def.py:58-72): the Brooks–Corey suction head (only for positive moisture),
   * the unsaturated conductivity (only below saturation) and the capped
   * Darcy flux.
   */
  function Unsaturated(p: Params, pow: Power, theta1: real, qmax: real): (u: (real, real, real))
    requires Divisible(p)
    requires theta1 == p.ThetaS || theta1 > 0.0
    ensures theta1 <= 0.0 ==> u.0 == 0.0
    ensures u.1 != 0.0 ==> theta1 < p.ThetaS
    ensures u.2 != 0.0 ==> u.1 > 0.0 && theta1 < p.ThetaS
    ensures u.2 <= Max0(qmax)
  {
    var hUnsat := if theta1 > 0.0 then p.hbc * pow(p.ThetaS / theta1, 1.0 / p.Lambda) else 0.0;
    var kh := if theta1 < p.ThetaS then p.Ks * pow(theta1 / p.ThetaS, p.Eta) else 0.0;
    (hUnsat, kh, UnsatFlux(kh, -kh * (hUnsat / p.SoilThick - 1.0), qmax))
  }

  /** Saturated outflow (HydModel__def.py:79-84), only with no unsaturated outflow, at saturation and non-negative hs. */
  function SatFlux(qh: real, theta1: real, thetaS: real, hs: real, qsbis: real, qmax: real): (q: real)
    ensures q != 0.0 ==> qh == 0.0 && theta1 == thetaS && hs >= 0.0
    ensures qh == 0.0 && theta1 == thetaS && hs >= 0.0 ==> q == Min(qsbis, qmax)
  {
    if qh == 0.0 && theta1 == thetaS && hs >= 0.0 then
      if qsbis <= qmax then qsbis else qmax
    else 0.0
  }

  /**
   * End-of-day moisture (HydModel__def.py:94-111) as the sum of an unsaturated part `theta2u`
   * and a saturated part, or 0 when either part is negative.
   */
  function EndMoisture(theta1: real, thetaS: real, qh: real, qs: real, deltaS: real, theta2bis: real, T: real): (t: real)
    requires T != 0.0
    ensures t >= 0.0
    ensures theta1 < thetaS && qh >= 0.0 ==>
              t == (var u := theta1 - qh / T; if u >= 0.0 then u + Floor else 0.0)
    ensures theta1 == thetaS && thetaS >= 0.0 && qs >= 0.0 && deltaS >= 0.0 ==> t == thetaS
    ensures theta1 == thetaS && qs >= 0.0 && deltaS < 0.0 && theta2bis > 0.0 ==> t == theta2bis
    ensures theta1 == thetaS && qs >= 0.0 && deltaS < 0.0 && theta2bis <= 0.0 ==> t == Floor
    ensures !(theta1 < thetaS && qh >= 0.0) && !(theta1 == thetaS && qs >= 0.0) ==> t == Floor
  {
    var theta2u := if qh >= 0.0 && theta1 < thetaS then theta1 - qh / T else 0.0;
    var saturated := theta2u == 0.0 && qs >= 0.0 && theta1 == thetaS;
    var theta2s0 := if saturated && theta2bis > 0.0 && deltaS < 0.0 then theta2bis else Floor;
    var theta2s := if saturated && deltaS >= 0.0 then theta2s0 + (thetaS - Floor) else theta2s0;
    if theta2u >= 0.0 && theta2s >= 0.0 then theta2u + theta2s else 0.0
  }

  /** The first half of a day (HydModel__def.py:36-84): the water kept on the field, the start-of-day state and the two outflows. */
  datatype Fluxes = Fluxes(
    Rd: real, Runoff: real, Theta1bis: real, Theta1: real,
    hUnsat: real, Kh: real, qh: real, hs: real, qs: real)

  /**
   * The first half of day i: ponding, start-of-day moisture, the Brooks–Corey
   * laws and the unsaturated and saturated outflows, each capped by the water
   * available today.
   */
  function Outflows(p: Params, pow: Power, prev: Row, f: Forcing): (x: Fluxes)
    requires Divisible(p)
    ensures x.Rd + x.Runoff == Inflow(f, prev.DeltaS)
    ensures x.Rd <= p.Thresh && x.Runoff >= 0.0
    ensures x.Runoff == 0.0 <==> Inflow(f, prev.DeltaS) <= p.Thresh
    ensures x.Theta1bis == Theta1Bis(p, prev, x.Rd, f)
    ensures x.Theta1 == StartMoisture(x.Theta1bis, p.ThetaS)
    ensures p.ThetaS >= Floor ==> 0.0 < x.Theta1 <= p.ThetaS
    ensures x.Kh != 0.0 ==> x.Theta1 < p.ThetaS
    ensures x.qh != 0.0 ==> x.Kh > 0.0 && x.Theta1 < p.ThetaS
    ensures x.qh <= Max0(QMax(p, prev, x.Rd, f))
    ensures x.hs != 0.0 ==> x.Theta1 == p.ThetaS
    ensures x.qs != 0.0 ==> x.qh == 0.0 && x.Theta1 == p.ThetaS && x.hs >= 0.0
    ensures x.qh == 0.0 && x.Theta1 == p.ThetaS && x.hs >= 0.0 ==>
              x.qs == Min(x.hs / p.SoilThick * p.Ks, QMax(p, prev, x.Rd, f))
  {
    var T := p.SoilThick;
    var (rd, runoff) := Ponding(Inflow(f, prev.DeltaS), p.Thresh);
    var theta1bis := Theta1Bis(p, prev, rd, f);
    var theta1 := StartMoisture(theta1bis, p.ThetaS);
    var qmax := QMax(p, prev, rd, f);
    var (hUnsat, kh, qh) := Unsaturated(p, pow, theta1, qmax);
    var hs := if theta1 == p.ThetaS then rd - f.RET - (p.ThetaS - prev.Theta2) * T + T else 0.0;
    var qs := SatFlux(qh, theta1, p.ThetaS, hs, hs / T * p.Ks, qmax);
    Fluxes(rd, runoff, theta1bis, theta1, hUnsat, kh, qh, hs, qs)
  }

  /**
   * The second half of day i: total outflow, the saturated budget DeltaS,
   * end-of-day moisture, the deficit and actual evapotranspiration, from the
   * fluxes `x`, yesterday's Theta2 and today's RET.
   */
  function Balance(p: Params, prevTheta2: real, ret: real, x: Fluxes): (r: Row)
    requires Divisible(p)
    ensures r.Rd == x.Rd && r.Runoff == x.Runoff && r.Theta1 == x.Theta1 && r.hUnsat == x.hUnsat
    ensures r.Kh == x.Kh && r.qh == x.qh && r.hs == x.hs && r.qs == x.qs
    ensures r.qout == x.qs + x.qh
    ensures x.qh == 0.0 && x.qs >= 0.0 ==>
              r.DeltaS == x.Rd - ret - (p.ThetaS - prevTheta2) * p.SoilThick - r.qout
    ensures !(x.qh == 0.0 && x.qs >= 0.0) ==> r.DeltaS == 0.0
    ensures r.Theta2 >= 0.0
    ensures x.Theta1 < p.ThetaS && x.qh >= 0.0 ==>
              r.Theta2 == (var u := x.Theta1 - x.qh / p.SoilThick; if u >= 0.0 then u + Floor else 0.0)
    ensures x.Theta1 == p.ThetaS && p.ThetaS >= 0.0 && x.qs >= 0.0 && r.DeltaS >= 0.0 ==> r.Theta2 == p.ThetaS
    ensures x.Theta1 == p.ThetaS && x.qs >= 0.0 && r.DeltaS < 0.0 && x.Theta1 + r.DeltaS / p.SoilThick > 0.0 ==>
              r.Theta2 == x.Theta1 + r.DeltaS / p.SoilThick
    ensures x.Theta1 == p.ThetaS && x.qs >= 0.0 && r.DeltaS < 0.0 && x.Theta1 + r.DeltaS / p.SoilThick <= 0.0 ==>
              r.Theta2 == Floor
    ensures !(x.Theta1 < p.ThetaS && x.qh >= 0.0) && !(x.Theta1 == p.ThetaS && x.qs >= 0.0) ==> r.Theta2 == Floor
    ensures r.Deficit != 0.0 ==> x.Theta1 == Floor && x.Theta1bis < 0.0
    ensures x.Theta1 == Floor && x.Theta1bis < 0.0 ==> r.Deficit == -(prevTheta2 * p.SoilThick + (x.Rd - ret))
    ensures p.SoilThick > 0.0 && x.Theta1bis == prevTheta2 + (x.Rd - ret) / p.SoilThick ==> r.Deficit >= 0.0
    ensures p.SoilThick > 0.0 && x.Theta1bis == prevTheta2 + (x.Rd - ret) / p.SoilThick ==>
              (x.Theta1 == Floor && x.Theta1bis < 0.0 ==> r.Deficit > 0.0)
    ensures r.AET == ret - r.Deficit
  {
    var T := p.SoilThick;
    var qout := x.qs + x.qh;
    var budget := x.Rd - ret - (p.ThetaS - prevTheta2) * T - qout;
    var deltaS := if x.qh == 0.0 && x.qs >= 0.0 then budget else 0.0;
    var theta2 := EndMoisture(x.Theta1, p.ThetaS, x.qh, x.qs, deltaS, x.Theta1 + budget / T, T);
    var deficit := Shortfall(x.Theta1, x.Theta1bis, prevTheta2, x.Rd - ret, T);
    Row(x.Rd, x.Runoff, x.Theta1, x.hUnsat, x.Kh, x.qh, theta2, x.hs, x.qs, qout, deltaS, deficit, ret - deficit)
  }

  /**
   * Row i of the table from row i-1 (`prev`) and day i's forcing. Every field
   * that no guard sets keeps the 0 of the zero-filled table.
   */
  function Day(p: Params, pow: Power, prev: Row, f: Forcing): (r: Row)
    requires Divisible(p)
    ensures r.Rd + r.Runoff == Inflow(f, prev.DeltaS)
    ensures r.Runoff == 0.0 <==> Inflow(f, prev.DeltaS) <= p.Thresh
    ensures p.ThetaS >= Floor ==> 0.0 < r.Theta1 <= p.ThetaS
    ensures r.Theta2 >= 0.0
    ensures p.SoilThick > 0.0 ==> 0.0 <= r.Deficit && r.AET <= f.RET
    ensures r.Deficit != 0.0 ==> r.Theta1 == Floor && Theta1Bis(p, prev, r.Rd, f) < 0.0
    ensures p.SoilThick > 0.0 && r.Theta1 == Floor && Theta1Bis(p, prev, r.Rd, f) < 0.0 ==>
              0.0 < r.Deficit && r.AET < f.RET
    ensures r.AET == f.RET - r.Deficit
  {
    Balance(p, prev.Theta2, f.RET, Outflows(p, pow, prev, f))
  }

  /** The outflows of a day depend on yesterday's row only through its Theta2 and DeltaS. */
  lemma OutflowsReadTwoFields(p: Params, pow: Power, a: Row, b: Row, f: Forcing)
    requires Divisible(p)
    requires a.Theta2 == b.Theta2 && a.DeltaS == b.DeltaS
    ensures Outflows(p, pow, a, f) == Outflows(p, pow, b, f)
  {
    assert Inflow(f, a.DeltaS) == Inflow(f, b.DeltaS);
    var (rd, _) := Ponding(Inflow(f, a.DeltaS), p.Thresh);
    assert Theta1Bis(p, a, rd, f) == Theta1Bis(p, b, rd, f);
    assert QMax(p, a, rd, f) == QMax(p, b, rd, f);
  }

  /**
   * Each day reads only yesterday's end moisture Theta2 and saturated storage
   * change DeltaS: two previous rows that agree on those give the same day.
   */
  lemma DayReadsTwoFields(p: Params, pow: Power, a: Row, b: Row, f: Forcing)
    requires Divisible(p)
    requires a.Theta2 == b.Theta2 && a.DeltaS == b.DeltaS
    ensures Day(p, pow, a, f) == Day(p, pow, b, f)
  {
    OutflowsReadTwoFields(p, pow, a, b, f);
  }

  /**
   * The soil moisture deficit (HydModel__def.py:114-115): the water the day could not supply, when the start-of-day
   * moisture had to be floored because the budget went negative.
   */
  function Shortfall(theta1: real, theta1bis: real, prevTheta2: real, net: real, T: real): (d: real)
    requires T != 0.0
    ensures d != 0.0 ==> theta1 == Floor && theta1bis < 0.0
    ensures theta1 == Floor && theta1bis < 0.0 ==> d == -(prevTheta2 * T + net)
    ensures T > 0.0 && theta1bis == prevTheta2 + net / T ==> d >= 0.0
    ensures T > 0.0 && theta1bis == prevTheta2 + net / T && theta1 == Floor && theta1bis < 0.0 ==> d > 0.0
  {
    DeficitSign(prevTheta2, net, T);
    if theta1 == Floor && theta1bis < 0.0 then -(prevTheta2 * T + net) else 0.0
  }

  /** With a positive thickness, moisture below zero means a positive shortfall of water. */
  lemma DeficitSign(theta2: real, net: real, T: real)
    requires T != 0.0
    ensures T > 0.0 && theta2 + net / T < 0.0 ==> theta2 * T + net < 0.0
  {
    if T > 0.0 && theta2 + net / T < 0.0 {
      assert (net / T) * T == net;
      assert (theta2 + net / T) * T == theta2 * T + net;
    }
  }

  /** A daily update: tomorrow's row from today's row and tomorrow's forcing. */
  type Step = (Row, Forcing) -> Row

  /**
   * The table that a daily update produces over days 0..|f|-1: row 0 is the
   * zero row, and every later row is the update of the row before it.
   */
  function Chain(step: Step, f: seq<Forcing>): (rows: seq<Row>)
    ensures |rows| == |f|
    ensures |f| > 0 ==> rows[0] == ZeroRow
    decreases |f|
  {
    if |f| == 0 then []
    else if |f| == 1 then [ZeroRow]
    else
      var front := Chain(step, f[..|f| - 1]);
      front + [step(front[|f| - 2], f[|f| - 1])]
  }

  /** The table of a prefix of the days is the prefix of the table. */
  lemma {:induction false} ChainPrefix(step: Step, f: seq<Forcing>, k: nat)
    requires k <= |f|
    ensures Chain(step, f[..k]) == Chain(step, f)[..k]
    decreases |f|
  {
    if k < |f| {
      var g := f[..|f| - 1];
      assert f[..k] == g[..k];
      ChainPrefix(step, g, k);
      assert Chain(step, f)[..|f| - 1] == Chain(step, g);
    } else {
      assert f[..k] == f;
    }
  }

  /** Every row after the first is the update of the row before it. */
  lemma {:induction false} ChainStep(step: Step, f: seq<Forcing>, i: nat)
    requires 1 <= i < |f|
    ensures Chain(step, f)[i] == step(Chain(step, f)[i - 1], f[i])
    decreases |f|
  {
    if i < |f| - 1 {
      ChainStep(step, f[..|f| - 1], i);
    }
  }

  lemma ChainSteps(step: Step, f: seq<Forcing>)
    ensures forall i :: 1 <= i < |f| ==> Chain(step, f)[i] == step(Chain(step, f)[i - 1], f[i])
  {
    forall i | 1 <= i < |f| {
      ChainStep(step, f, i);
    }
  }

  /** The daily update of the soil-moisture model with parameters p. */
  function DayStep(p: Params, pow: Power): Step
    requires Divisible(p)
  {
    (prev, g) => Day(p, pow, prev, g)
  }

  /** The output table of a run with parameters p over the forcings f. */
  function Simulate(p: Params, pow: Power, f: seq<Forcing>): (rows: seq<Row>)
    requires Divisible(p)
    ensures |rows| == |f|
    ensures |f| > 0 ==> rows[0] == ZeroRow
    ensures forall i :: 1 <= i < |f| ==> rows[i] == Day(p, pow, rows[i - 1], f[i])
  {
    ChainSteps(DayStep(p, pow), f);
    Chain(DayStep(p, pow), f)
  }

  /** Parameters with a positive thickness and a saturated content of at least the floor. */
  predicate Physical(p: Params) {
    Divisible(p) && p.SoilThick > 0.0 && p.ThetaS >= Floor
  }

  /**
   * Over a whole run with physical parameters, every computed day starts
   * with moisture in (0, ThetaS], ends with non-negative moisture, has a
   * non-negative deficit and evaporates at most its reference RET.
   */
  lemma RunBounds(p: Params, pow: Power, f: seq<Forcing>, i: nat)
    requires Physical(p) && 1 <= i < |f|
    ensures var r := Simulate(p, pow, f)[i];
      0.0 < r.Theta1 <= p.ThetaS && r.Theta2 >= 0.0 && 0.0 <= r.Deficit && r.AET <= f[i].RET
  {
    ChainStep(DayStep(p, pow), f, i);
  }

  /**
   * With a positive thickness, a non-negative saturated content and
   * conductivity, a non-positive air-entry head and a power law that is
   * positive on positive bases, neither outflow is negative.
   */
  lemma OutflowsNonNegative(p: Params, pow: Power, prev: Row, f: Forcing)
    requires Divisible(p) && p.SoilThick > 0.0 && p.ThetaS > Floor && p.Ks >= 0.0 && p.hbc <= 0.0
    requires forall b: real, e: real :: b > 0.0 ==> pow(b, e) > 0.0
    ensures var x := Outflows(p, pow, prev, f); x.qh >= 0.0 && x.qs >= 0.0
  {
    var x := Outflows(p, pow, prev, f);
    var T := p.SoilThick;
    var qmax := QMax(p, prev, x.Rd, f);
    var u := Unsaturated(p, pow, x.Theta1, qmax);
    assert x.qh == u.2;
    if x.Theta1 > 0.0 {
      HeadNonPositive(p.hbc, pow(p.ThetaS / x.Theta1, 1.0 / p.Lambda), u.1, T);
    }
    if x.qs != 0.0 {
      assert x.Theta1bis >= p.ThetaS;
      AvailableWhenSaturated(prev.Theta2, x.Rd - f.RET, T, p.ThetaS);
      assert x.hs / T >= 0.0;
    }
  }

  /** Start-of-day moisture at saturation means the water available today covers a full layer. */
  lemma AvailableWhenSaturated(theta2: real, net: real, T: real, thetaS: real)
    requires T > 0.0 && theta2 + net / T >= thetaS >= 0.0
    ensures net + theta2 * T >= thetaS * T >= 0.0
  {
    assert (net / T) * T == net;
    assert (theta2 + net / T) * T == theta2 * T + net;
  }

  /**
   * A non-positive air-entry head times a positive power gives a
   * non-positive suction head, which makes the Darcy estimate positive for
   * a positive conductivity.
   */
  lemma HeadNonPositive(hbc: real, power: real, kh: real, T: real)
    requires hbc <= 0.0 && T > 0.0
    ensures power > 0.0 ==> hbc * power <= 0.0
    ensures power > 0.0 && kh > 0.0 ==> -kh * (hbc * power / T - 1.0) > 0.0
  {
    if power > 0.0 {
      var h := hbc * power;
      assert h <= 0.0;
      assert h / T <= 0.0;
      if kh > 0.0 {
        assert -kh * (h / T - 1.0) == kh * (1.0 - h / T);
      }
    }
  }

  /**
   * The daily loop over a zero-filled table: each row from the second on is
   * overwritten with the update of the row before it.
   */
  method RunChain(step: Step, f: seq<Forcing>) returns (table: seq<Row>)
    ensures table == Chain(step, f)
  {
    if |f| == 0 {
      return [];
    }
    var out := new Row[|f|](_ => ZeroRow);
    assert f[..1] == [f[0]];
    for i := 1 to |f|
      invariant out[..i] == Chain(step, f[..i])
    {
      out[i] := step(out[i - 1], f[i]);
      assert f[..i + 1][..i] == f[..i];
      assert out[..i + 1] == out[..i] + [out[i]];
    }
    assert f[..|f|] == f;
    table := out[..];
  }

  /** One run of the soil-moisture model: the daily loop with Day as its update. */
  method HydModRun(p: Params, pow: Power, f: seq<Forcing>) returns (table: seq<Row>)
    requires Divisible(p)
    ensures table == Simulate(p, pow, f)
  {
    table := RunChain(DayStep(p, pow), f);
  }


}
