/**
 * The crop-coefficient (Kc), pumping (PG, mm/day) and return-flow share (Cf)
 * calendars shared by the fine-grid and the bucket-model input scripts, and what
 * each of them comes to on every day of the year once the later writes have won.
 * Land uses: Scrub, Forest, Fruit, Tank, Urban, Vegetable, and rice grown in both
 * seasons (PaddyR) or in the monsoon (kharif) season only (PaddyK).
 */
module Schedules {
  import opened Wrappers
  import opened Calendar

  /** The land uses the scripts give columns to. */
  const LandUses: set<string> := {"Scrub", "Forest", "Fruit", "Tank", "Urban", "Vegetable", "PaddyR", "PaddyK"}

  /** The value a schedule gives a date. */
  function ValueOn(s: Schedule, dt: Date): Option<real> {
    ValueAt(s.writes, s.init, dt)
  }

  // ---- pumping (the constant part differs between the two input scripts) ----

  const PaddyRPumping: seq<RangeWrite> := [
    RangeWrite(6, 1, 6, 30, 10.1 * 0.1),    // nursery (kharif)
    RangeWrite(7, 1, 9, 30, 10.1),          // irrigation (kharif)
    RangeWrite(10, 1, 10, 15, 0.0),         // harvest (kharif)
    RangeWrite(10, 16, 12, 15, 15.2 * 0.1), // maintenance and nursery
    RangeWrite(12, 15, 12, 31, 15.2),       // irrigation (rabi)
    RangeWrite(1, 1, 4, 15, 15.2),          // irrigation (rabi)
    RangeWrite(4, 16, 4, 30, 0.0),          // harvest (rabi)
    RangeWrite(5, 1, 5, 31, 15.2 * 0.1)     // maintenance and nursery (rabi)
  ]

  const PaddyKPumping: seq<RangeWrite> := [
    RangeWrite(6, 1, 6, 30, 10.1 * 0.1),
    RangeWrite(7, 1, 9, 30, 10.1),
    RangeWrite(10, 1, 12, 31, 0.0),
    RangeWrite(1, 1, 5, 31, 0.0)
  ]

  // ---- crop coefficients ----

  const VegetableKc: seq<RangeWrite> := [
    RangeWrite(6, 1, 6, 30, 0.95),
    RangeWrite(7, 1, 7, 31, 0.7),
    RangeWrite(8, 1, 11, 25, 1.05),
    RangeWrite(11, 26, 12, 31, 0.95),
    RangeWrite(1, 1, 1, 10, 0.95),
    RangeWrite(1, 11, 2, 10, 0.7),
    RangeWrite(2, 11, 5, 31, 0.85)
  ]

  const PaddyRKc: seq<RangeWrite> := [
    RangeWrite(6, 1, 6, 30, 1.05),
    RangeWrite(7, 1, 10, 31, 1.2),
    RangeWrite(11, 1, 11, 15, 1.0),
    RangeWrite(11, 16, 12, 15, 1.05),
    RangeWrite(12, 16, 12, 31, 1.2),
    RangeWrite(1, 1, 3, 25, 1.2),
    RangeWrite(3, 26, 5, 31, 1.0)
  ]

  const PaddyKKc: seq<RangeWrite> := [
    RangeWrite(6, 1, 6, 30, 1.05),
    RangeWrite(7, 1, 10, 31, 1.2),
    RangeWrite(11, 1, 12, 31, 1.0),
    RangeWrite(1, 1, 5, 31, 1.0)
  ]

  /** Kc: constants for the perennial land uses, calendars for the crops, NaN for anything else. */
  function CropCoefficient(landUse: string): (s: Schedule)
    ensures s.init.Some? <==> landUse in {"Scrub", "Forest", "Fruit", "Tank", "Urban"}
    ensures s.writes != [] <==> landUse in {"Vegetable", "PaddyR", "PaddyK"}
  {
    match landUse
    case "Scrub" => Schedule(Some(0.7), [])
    case "Forest" => Schedule(Some(1.2), [])
    case "Fruit" => Schedule(Some(0.8), [])
    case "Tank" => Schedule(Some(1.0), [])
    case "Urban" => Schedule(Some(1.0), [])
    case "Vegetable" => Schedule(None, VegetableKc)
    case "PaddyR" => Schedule(None, PaddyRKc)
    case "PaddyK" => Schedule(None, PaddyKKc)
    case _ => Schedule(None, [])
  }

  // ---- share of recharge that is return flow ----

  const PaddyRReturnFlow: seq<RangeWrite> := [
    RangeWrite(6, 1, 6, 30, 0.51),
    RangeWrite(7, 1, 9, 30, 0.51),
    RangeWrite(10, 1, 10, 15, 1.0),
    RangeWrite(10, 16, 12, 15, 0.48),
    RangeWrite(12, 15, 12, 31, 0.48),
    RangeWrite(1, 1, 4, 15, 0.48),
    RangeWrite(4, 16, 4, 30, 1.0),
    RangeWrite(5, 1, 5, 31, 0.48)
  ]

  const PaddyKReturnFlow: seq<RangeWrite> := [
    RangeWrite(6, 1, 6, 30, 0.51),
    RangeWrite(7, 1, 9, 30, 0.51),
    RangeWrite(10, 1, 12, 31, 1.0),
    RangeWrite(1, 1, 5, 31, 1.0)
  ]

  const VegetableReturnFlow: seq<RangeWrite> := [
    RangeWrite(6, 1, 10, 31, 0.26)   // kharif
  ]

  /** Cf: 1 for the unirrigated land uses, 0.24 for vegetables outside the monsoon, calendars for rice. */
  function ReturnFlowShare(landUse: string): (s: Schedule)
    ensures s.init.Some? <==> landUse in {"Scrub", "Forest", "Fruit", "Tank", "Urban", "Vegetable"}
    ensures s.writes != [] <==> landUse in {"Vegetable", "PaddyR", "PaddyK"}
  {
    match landUse
    case "Scrub" => Schedule(Some(1.0), [])
    case "Forest" => Schedule(Some(1.0), [])
    case "Fruit" => Schedule(Some(1.0), [])
    case "Tank" => Schedule(Some(1.0), [])
    case "Urban" => Schedule(Some(1.0), [])
    case "Vegetable" => Schedule(Some(0.24), VegetableReturnFlow)
    case "PaddyR" => Schedule(None, PaddyRReturnFlow)
    case "PaddyK" => Schedule(None, PaddyKReturnFlow)
    case _ => Schedule(None, [])
  }

  // ---- what each calendar gives on every day of the year ----

  /** 15 December lies in two PaddyR pumping ranges; the later one (15.2, rabi irrigation) wins. */
  lemma PaddyRPumpingDecember15(yr: int, init: Option<real>)
    ensures ValueAt(PaddyRPumping, init, Date(yr, 12, 15)) == Some(15.2)
  {
    LaterWriteWins(PaddyRPumping, init, Date(yr, 12, 15), 4);
  }

  lemma PaddyRPumpingSeasons(dt: Date, init: Option<real>)
    requires ValidDate(dt)
    ensures ValueAt(PaddyRPumping, init, dt) == Some(
      if dt.month == 6 then 1.01
      else if 7 <= dt.month <= 9 then 10.1
      else if dt.month == 10 && dt.day <= 15 then 0.0
      else if (dt.month == 12 && dt.day >= 15) || dt.month < 4 || (dt.month == 4 && dt.day <= 15) then 15.2
      else if dt.month == 4 then 0.0
      else 1.52)
  {
    var m, d := dt.month, dt.day;
    var k :=
      if m == 6 then 0 else if 7 <= m <= 9 then 1 else if m == 10 && d <= 15 then 2
      else if m == 12 && d >= 15 then 4 else if m >= 10 then 3
      else if m < 4 || (m == 4 && d <= 15) then 5 else if m == 4 then 6 else 7;
    LaterWriteWins(PaddyRPumping, init, dt, k);
  }

  /** PaddyK is not pumped from 1 October to 31 May. */
  lemma PaddyKPumpingSeasons(dt: Date, init: Option<real>)
    requires ValidDate(dt)
    ensures ValueAt(PaddyKPumping, init, dt) == Some(
      if dt.month == 6 then 1.01 else if 7 <= dt.month <= 9 then 10.1 else 0.0)
  {
    var m := dt.month;
    var k := if m == 6 then 0 else if 7 <= m <= 9 then 1 else if m >= 10 then 2 else 3;
    LaterWriteWins(PaddyKPumping, init, dt, k);
  }

  lemma VegetableKcSeasons(dt: Date, init: Option<real>)
    requires ValidDate(dt)
    ensures ValueAt(VegetableKc, init, dt) == Some(
      if dt.month == 6 then 0.95
      else if dt.month == 7 then 0.7
      else if 8 <= dt.month <= 10 || (dt.month == 11 && dt.day <= 25) then 1.05
      else if dt.month >= 11 || (dt.month == 1 && dt.day <= 10) then 0.95
      else if dt.month == 1 || (dt.month == 2 && dt.day <= 10) then 0.7
      else 0.85)
  {
    var m, d := dt.month, dt.day;
    var k :=
      if m == 6 then 0 else if m == 7 then 1 else if 8 <= m <= 10 || (m == 11 && d <= 25) then 2
      else if m >= 11 then 3 else if m == 1 && d <= 10 then 4
      else if m == 1 || (m == 2 && d <= 10) then 5 else 6;
    LaterWriteWins(VegetableKc, init, dt, k);
  }

  lemma PaddyRKcSeasons(dt: Date, init: Option<real>)
    requires ValidDate(dt)
    ensures ValueAt(PaddyRKc, init, dt) == Some(
      if dt.month == 6 then 1.05
      else if 7 <= dt.month <= 10 then 1.2
      else if dt.month == 11 && dt.day <= 15 then 1.0
      else if dt.month == 11 || (dt.month == 12 && dt.day <= 15) then 1.05
      else if dt.month == 12 || dt.month < 3 || (dt.month == 3 && dt.day <= 25) then 1.2
      else 1.0)
  {
    var m, d := dt.month, dt.day;
    var k :=
      if m == 6 then 0 else if 7 <= m <= 10 then 1 else if m == 11 && d <= 15 then 2
      else if m == 11 || (m == 12 && d <= 15) then 3 else if m == 12 then 4
      else if m < 3 || (m == 3 && d <= 25) then 5 else 6;
    LaterWriteWins(PaddyRKc, init, dt, k);
  }

  lemma PaddyKKcSeasons(dt: Date, init: Option<real>)
    requires ValidDate(dt)
    ensures ValueAt(PaddyKKc, init, dt) == Some(
      if dt.month == 6 then 1.05 else if 7 <= dt.month <= 10 then 1.2 else 1.0)
  {
    var m := dt.month;
    var k := if m == 6 then 0 else if 7 <= m <= 10 then 1 else if m >= 11 then 2 else 3;
    LaterWriteWins(PaddyKKc, init, dt, k);
  }

  /** PaddyR: 0.51 from June to September, 1 at the two harvests (1-15 October, 16-30 April), else 0.48. */
  lemma PaddyRReturnFlowSeasons(dt: Date, init: Option<real>)
    requires ValidDate(dt)
    ensures ValueAt(PaddyRReturnFlow, init, dt) == Some(
      if 6 <= dt.month <= 9 then 0.51
      else if (dt.month == 10 && dt.day <= 15) || (dt.month == 4 && dt.day >= 16) then 1.0
      else 0.48)
  {
    var m, d := dt.month, dt.day;
    var k :=
      if m == 6 then 0 else if 7 <= m <= 9 then 1 else if m == 10 && d <= 15 then 2
      else if m == 12 && d >= 15 then 4 else if m >= 10 then 3
      else if m < 4 || (m == 4 && d <= 15) then 5 else if m == 4 then 6 else 7;
    LaterWriteWins(PaddyRReturnFlow, init, dt, k);
  }

  lemma PaddyKReturnFlowSeasons(dt: Date, init: Option<real>)
    requires ValidDate(dt)
    ensures ValueAt(PaddyKReturnFlow, init, dt) == Some(if 6 <= dt.month <= 9 then 0.51 else 1.0)
  {
    var m := dt.month;
    var k := if m == 6 then 0 else if 7 <= m <= 9 then 1 else if m >= 10 then 2 else 3;
    LaterWriteWins(PaddyKReturnFlow, init, dt, k);
  }

  /** Kc is 0.7 for Scrub, 1.2 for Forest, 0.8 for Fruit and 1 for Tank and Urban, on every date. */
  lemma CropCoefficientConstants(dt: Date)
    ensures ValueOn(CropCoefficient("Scrub"), dt) == Some(0.7)
    ensures ValueOn(CropCoefficient("Forest"), dt) == Some(1.2)
    ensures ValueOn(CropCoefficient("Fruit"), dt) == Some(0.8)
    ensures ValueOn(CropCoefficient("Tank"), dt) == Some(1.0)
    ensures ValueOn(CropCoefficient("Urban"), dt) == Some(1.0)
  {
  }

  /** Cf is 1 for the unirrigated land uses and, for vegetables, 0.26 from 1 June to 31 October and 0.24 otherwise. */
  lemma ReturnFlowShareConstants(dt: Date)
    requires ValidDate(dt)
    ensures forall lu :: lu in {"Scrub", "Forest", "Fruit", "Tank", "Urban"} ==> ValueOn(ReturnFlowShare(lu), dt) == Some(1.0)
    ensures ValueOn(ReturnFlowShare("Vegetable"), dt) == Some(if 6 <= dt.month <= 10 then 0.26 else 0.24)
  {
    if 6 <= dt.month <= 10 {
      LaterWriteWins(VegetableReturnFlow, Some(0.24), dt, 0);
    } else {
      UncoveredKeepsInitial(VegetableReturnFlow, Some(0.24), dt);
    }
  }

  /** Every seasonal calendar writes every day of the year. */
  lemma CalendarsCoverYear()
    ensures CoversYear(PaddyRPumping) && CoversYear(PaddyKPumping)
    ensures CoversYear(VegetableKc) && CoversYear(PaddyRKc) && CoversYear(PaddyKKc)
    ensures CoversYear(PaddyRReturnFlow) && CoversYear(PaddyKReturnFlow)
  {
    forall dt: Date | ValidDate(dt)
      ensures exists j :: 0 <= j < |PaddyRPumping| && Covers(PaddyRPumping[j], dt)
      ensures exists j :: 0 <= j < |PaddyKPumping| && Covers(PaddyKPumping[j], dt)
      ensures exists j :: 0 <= j < |VegetableKc| && Covers(VegetableKc[j], dt)
      ensures exists j :: 0 <= j < |PaddyRKc| && Covers(PaddyRKc[j], dt)
      ensures exists j :: 0 <= j < |PaddyKKc| && Covers(PaddyKKc[j], dt)
      ensures exists j :: 0 <= j < |PaddyRReturnFlow| && Covers(PaddyRReturnFlow[j], dt)
      ensures exists j :: 0 <= j < |PaddyKReturnFlow| && Covers(PaddyKReturnFlow[j], dt)
    {
      PaddyRPumpingSeasons(dt, None);
      ValueAtDefined(PaddyRPumping, None, dt);
      PaddyKPumpingSeasons(dt, None);
      ValueAtDefined(PaddyKPumping, None, dt);
      VegetableKcSeasons(dt, None);
      ValueAtDefined(VegetableKc, None, dt);
      PaddyRKcSeasons(dt, None);
      ValueAtDefined(PaddyRKc, None, dt);
      PaddyKKcSeasons(dt, None);
      ValueAtDefined(PaddyKKc, None, dt);
      PaddyRReturnFlowSeasons(dt, None);
      ValueAtDefined(PaddyRReturnFlow, None, dt);
      PaddyKReturnFlowSeasons(dt, None);
      ValueAtDefined(PaddyKReturnFlow, None, dt);
    }
  }

  /** Kc and Cf have a value on every valid day for every known land use. */
  lemma KnownLandUsesDefined(landUse: string, dt: Date)
    requires landUse in LandUses && ValidDate(dt)
    ensures ValueOn(CropCoefficient(landUse), dt).Some? && ValueOn(ReturnFlowShare(landUse), dt).Some?
  {
    if landUse == "Vegetable" {
      VegetableKcSeasons(dt, None);
      ReturnFlowShareConstants(dt);
    } else if landUse == "PaddyR" {
      PaddyRKcSeasons(dt, None);
      PaddyRReturnFlowSeasons(dt, None);
    } else if landUse == "PaddyK" {
      PaddyKKcSeasons(dt, None);
      PaddyKReturnFlowSeasons(dt, None);
    }
  }

  /** Any other land use has no Kc or Cf column: it is NaN on every date. */
  lemma UnknownLandUsesUndefined(landUse: string, dt: Date)
    requires landUse !in LandUses
    ensures ValueOn(CropCoefficient(landUse), dt) == None && ValueOn(ReturnFlowShare(landUse), dt) == None
  {
    assert CropCoefficient(landUse) == Schedule(None, []) == ReturnFlowShare(landUse);
  }
}
