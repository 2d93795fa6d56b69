# Soil-moisture recharge model of a hard-rock watershed, in Dafny

This project models the computational core of a set of Python scripts. The
scripts estimate daily groundwater recharge, runoff and actual
evapotranspiration over a gridded watershed. Each grid cell is described by
a soil class and a land use, plus daily rainfall, potential
evapotranspiration (PET), pumping for irrigation (PG) and a return-flow
share (Cf). The model covers:

- **The two-regime soil engine** (`HydMod`, from `HydMod_fun`). A table of
  days, zero on day 0. Each later day reads only yesterday's end moisture
  `Theta2` and saturated storage change `DeltaS`, plus today's forcing. From
  those it computes:
  - the ponding split `Rd`/`Runoff`;
  - the start moisture `Theta1`, clipped to `(0, ThetaS]` with a 1e-10 floor;
  - the unsaturated and saturated outflows `qh` and `qs`, chosen by ordered guards;
  - `qout`, `DeltaS` and `Theta2`;
  - the deficit and the AET.
- **The single-bucket soil-moisture balance model** (`Smbm`, from `SMBM_fun`,
  `SMBM_Cell_fun` and `SMBMSoilType_fun`):
  - inputs are capped at MWC and the excess runs off;
  - the store is clamped to `[0, AWC]`;
  - the clamp residue becomes recharge or an evapotranspiration cut;
  - natural recharge is recharge times Cf;
  - the soil-type runs are weighted by cell percentages;
  - yearly errors are taken against observations.
- **The input builders**:
  - `FineGridInputs`: category de-duplication with labels A…ZZ, Kc/PG/Cf
    tables per category, RET and PG in metres.
  - `SmbmInputs`: Kc/PG/Cf tables per land use, RET in mm, and per-cell
    values weighted by land-use percentages.
  - Both build their seasonal calendars (`Calendar`, `Schedules`) by masked
    range writes, year by year, where the later write wins.
- **The fine-grid runs**:
  - `FineGrid` (one layer): the parameter rule per (soil class, land use)
    category, the run for every category, recharge clipping, the
    return-flow correction, masked means of Kh and hUnsat, the mapping from
    categories to cells, and the yearly input/output balance.
  - `TwoLayer`: separate tables for an upper and a lower layer. The lower
    layer is driven by the upper layer's outflow and deficit. The two are
    combined into one set of outputs.

The engine's daily loop, the bucket loop, the category loop, the cell loop,
the calendar fills and the weighting accumulations are imperative in the
source. They are methods here (`HydModRun`, `BucketRun`, `SmbmRun`,
`CellRun`, `SoilTypeRun`, `RunCategories`, `RunLayers`, `RunAllCategories`,
`MapToCells`, `WriteRange`/`WriteYear`/`FillSchedule`, `BuildTable`,
`BuildColumns`, `WeightTable`, `AccumulateWeighted`). Each is proved equal
to a specification function. The properties are proved about those
functions.

## Behaviour notes

- There is no parameter-validation error. Nothing rejects a zero
  thickness; it is a precondition (`Divisible`) wherever the code divides.
- An unknown soil class is not skipped with a warning: `list.index` raises,
  which is modelled as `UnknownSoilClass`.
- The `PG` column is optional: when the input table has no such column,
  the engine adds no pumping. An absent column is modelled as `None` in
  `Forcing.PG`.

## Model

| member | source | states |
|---|---|---|
| HydMod.Ponding | Python/HydModel__def.py:36-46 | The ponding input splits exactly into infiltration and runoff. Infiltration is at most the bund threshold, runoff is non-negative, and runoff is zero exactly when the input does not exceed the threshold. |
| HydMod.StartMoisture | Python/HydModel__def.py:49-55 | Start moisture is ThetaS at or above saturation, the candidate value inside (0, ThetaS), and the 1e-10 floor otherwise. It lies in (0, ThetaS] and equals ThetaS exactly when the candidate reaches ThetaS. |
| HydMod.UnsatFlux | Python/HydModel__def.py:62-72 | The unsaturated outflow is non-zero only with a positive conductivity and never exceeds max(qmax, 0). Below qmax it is the Darcy estimate, otherwise max(qmax, 0). |
| HydMod.Unsaturated | Python/HydModel__def.py:58-72 | Conductivity and outflow are zero at saturation. The outflow is bounded by max(qmax, 0). |
| HydMod.SatFlux | Python/HydModel__def.py:75-84 | The saturated outflow is non-zero only when qh = 0, Theta1 = ThetaS and hs >= 0. In that case it is min(hs/T·Ks, qmax). |
| HydMod.EndMoisture | Python/HydModel__def.py:94-111 | End moisture is never negative. Below saturation it follows the drained moisture when that is non-negative. At saturation it is ThetaS when DeltaS >= 0, the drawn-down value when DeltaS < 0 and that value is positive, and the 1e-10 floor when that value is not positive. When neither the unsaturated nor the saturated guard holds it is the floor. |
| HydMod.Outflows | Python/HydModel__def.py:36-91 | All the per-day guards together: the inflow split, Theta1 in (0, ThetaS], Kh/qh zero at saturation, qh <= max(qmax, 0), and qs non-zero only in the saturated branch, where it is min(qsbis, qmax). |
| HydMod.Balance | Python/HydModel__def.py:87-118 | qout = qs + qh. DeltaS is written only when qh = 0 and qs >= 0, otherwise it is 0. Theta2 >= 0; at saturation it is ThetaS, the drawn-down value or the 1e-10 floor by the sign of DeltaS and of the drawn-down value, and it is the floor when neither guard holds. The deficit is non-zero only at the floor with a negative candidate, and is then non-negative. AET = RET - Deficit. |
| HydMod.Inflow | Python/HydModel__def.py:36-39 | The water reaching the field is rain plus pumping (when the PG column exists), plus yesterday's DeltaS only when that is positive; it is never less than rain plus pumping. |
| HydMod.Theta1Bis | Python/HydModel__def.py:49 | The candidate start moisture exceeds yesterday's end moisture by exactly the net input Rd - RET spread over the thickness. |
| HydMod.QMax | Python/HydModel__def.py:66 | The cap on both outflows is the candidate start moisture times the thickness. |
| HydMod.Simulate | Python/HydModel__def.py:31-118 | The table has one row per day. Row 0 is the zero row and every later row is the day update of the row before it with that day's forcing. |
| HydMod.Day | Python/HydModel__def.py:33-118 | One computed day: Rd + Runoff = inflow, with runoff zero exactly at or below the threshold. Theta1 is in (0, ThetaS] and Theta2 >= 0. The deficit is non-zero only when Theta1 is floored and Theta1bis < 0, and then strictly positive. It is never negative, and AET = RET - Deficit <= RET, strictly below RET on a deficit day. |
| HydMod.DayReadsTwoFields | Python/HydModel__def.py:37-115 | Two previous rows that agree on Theta2 and DeltaS give the same day: a day reads nothing else of yesterday. |
| HydMod.OutflowsReadTwoFields | Python/HydModel__def.py:37-84 | The ponding, start moisture and outflows of a day read only yesterday's Theta2 and DeltaS. |
| HydMod.Shortfall | Python/HydModel__def.py:114-115 | The deficit is non-zero only when Theta1 sits at the floor and Theta1bis < 0. It is then minus yesterday's store plus the net input. With a positive thickness it is never negative, and strictly positive whenever that guard holds. |
| HydMod.DeficitSign | Python/HydModel__def.py:114-115 | A negative candidate moisture means a negative water amount over the layer thickness. |
| HydMod.Chain | Python/HydModel__def.py:31-33 | The table has one row per day and row 0 is the zero row. |
| HydMod.ChainPrefix | Python/HydModel__def.py:33-118 | The first k rows depend only on the first k days of forcing. |
| HydMod.ChainStep | Python/HydModel__def.py:33-39 | Row i >= 1 is the day step applied to row i-1 and day i's forcing only. |
| HydMod.RunBounds | Python/HydModel__def.py:49-118 | Over a whole run with physical parameters, every computed day has Theta1 in (0, ThetaS], Theta2 >= 0, Deficit >= 0 and AET <= RET. |
| HydMod.OutflowsNonNegative | Python/HydModel__def.py:58-84 | With physical parameters, a non-positive air-entry head and a positive power law, qh >= 0 and qs >= 0. |
| HydMod.AvailableWhenSaturated | Python/HydModel__def.py:49-55 | A saturated start means the day's water covers a full layer. |
| HydMod.HeadNonPositive | Python/HydModel__def.py:58-72 | A non-positive air-entry head gives a non-positive suction head and a positive Darcy estimate. |
| HydMod.RunChain | Python/HydModel__def.py:31-118 | The day loop over a zero-filled table produces exactly the chained table. |
| HydMod.HydModRun | Python/HydModel__def.py:20-120 | The engine returns exactly the simulated table of the parameters and forcing. |
| Smbm.Capped | Python/SMBM_def.py:45-46 | The kept input is the smaller of the input and MWC. |
| Smbm.Runoff | Python/SMBM_def.py:148-149 | Runoff is non-negative, and positive exactly when the input exceeds MWC. |
| Smbm.RunoffSplit | Python/SMBM_def.py:145-149 | Runoff plus the kept input equals the input. |
| Smbm.StockChanges | Python/SMBM_def.py:45-46 | DeltaR + PET equals min(input, MWC), day by day. |
| Smbm.Runoffs | Python/SMBM_def.py:148-149 | The runoff column is non-negative and completes the kept input to the input. |
| Smbm.BucketDay | Python/SMBM_def.py:51-73 | AW stays in [0, AWC]. prev + DeltaR = AW + D/E. D/E > 0 only when clamped at AWC and D/E < 0 only when clamped at 0, with no residue inside the range. Rech = max(D/E, 0) >= 0, and RET <= PET with RET + Rech = PET + D/E. |
| Smbm.Buckets | Python/SMBM_def.py:48-73 | One row per day, AW within [0, AWC], recharge non-negative, RET at most PET. |
| Smbm.BucketsStep | Python/SMBM_def.py:51-56 | Day d starts from yesterday's AW, or from IWC on day 0. |
| Smbm.BucketRun | Python/SMBM_def.py:48-73 | The in-place day loop yields exactly the specified table. |
| Smbm.StoreBalance | Python/SMBM_def.py:65 | Over a run, the stock changes add up to the store's change plus the clamp residues. |
| Smbm.WaterBalance | Python/SMBM_def.py:45-73 | Over a run: input - runoff - actual RET - recharge = final store - IWC. |
| Smbm.DEs | Python/SMBM_def.py:65 | The D/E column, day by day. |
| Smbm.Recharges | Python/SMBM_def.py:68-73 | The recharge column, day by day. |
| Smbm.ActualRETs | Python/SMBM_def.py:68-73 | The actual-RET column, day by day. |
| Smbm.NaturalRecharge | Python/SMBM_def.py:179 | NatRech has the length of the recharge and lies between 0 and the recharge for coefficients in [0, 1]. |
| Smbm.NaturalRechargeUnit | Python/SMBM_def.py:179 | A coefficient of 1 leaves the recharge unchanged. |
| Smbm.SmbmRun | Python/SMBM_def.py:26-80 | The run's table is the bucket table of the capped inputs. Its yearly output is the year sums of its recharge. |
| Smbm.CellRun | Python/SMBM_def.py:128-195 | The table, the runoff, the natural recharge (Cf × recharge) and its year sums, all equal to their specifications. The yearly sums are joined onto the observed years: a year with no resample bin (outside the days' first to last year) gets None, the join's NaN. The error is the mean squared difference over the joined years that have a value, defined exactly when some observed year has one. |
| Smbm.MeanSquaredError | Python/SMBM_def.py:193 | NaN years are skipped. Defined exactly when some year has a simulated value, never negative, and 0 exactly when every simulated year equals its observation. |
| Smbm.KnownSquares | Python/SMBM_def.py:193 | The squared differences of the years with a simulated value: non-empty iff such a year exists, non-negative, and all zero iff those years match their observations. |
| Smbm.KnownSquaresAll | Python/SMBM_def.py:193 | With every year simulated, the squares are exactly the squared differences of every year. |
| Smbm.SquaresVanish | Python/SMBM_def.py:193 | The squared differences are non-negative and all vanish exactly when the two series are equal. |
| Smbm.SoilTypeRecharge | Python/SMBM_def.py:95-98 | Each soil type's recharge series has one value per day and is non-negative. |
| Smbm.SoilTypeSeries | Python/SMBM_def.py:95-98 | One recharge series per soil type, one value per day. |
| Smbm.SoilTypeRuns | Python/SMBM_def.py:95-98 | The loop over soil types returns exactly the soil-type series. |
| Smbm.CellRecharge | Python/SMBM_def.py:102-105 | A cell's daily recharge is Σ Rech_st · pct_st / 100 over the soil types. |
| Smbm.ErrorTable | Python/SMBM_def.py:111-114 | Each cell's error row is simulated minus observed. |
| Smbm.ErrorTotal | Python/SMBM_def.py:116-117 | With no cells every year's mean is NaN and the NaN-skipping sum is 0. An error table of zeros gives 0. |
| Smbm.ErrorTotalSplit | Python/SMBM_def.py:111-117 | The total error is the summed simulated yearly cell means minus the summed observed ones. |
| Smbm.SoilTypeRun | Python/SMBM_def.py:86-121 | Fails with the first requested year that has no resample bin (the KeyError of l.114), exactly when such a year exists. Otherwise the yearly cell recharges are year sums of the weighted soil-type recharges, and the error table and its total match their specifications. |
| Series.SumAppend | Python/SMBM_def.py:107 | The sum over a concatenation is the sum of the sums. |
| Series.SumBounds | Python/SMBM_def.py:107 | The sum of values within [lo, hi] is within n·lo and n·hi. |
| Series.SumNonNegative | Python/SMBM_def.py:107 | The sum of non-negative values is non-negative. |
| Series.SumZero | Python/SMBM_def.py:193 | Non-negative values sum to 0 exactly when every one of them is 0. |
| Series.Mean | Python/HydModel_FineGrid_apply.py:232 | The mean is defined exactly for a non-empty series. |
| Series.MeanWithin | Python/HydModel_FineGrid_apply.py:228-232 | The mean of values within [lo, hi] is within [lo, hi]. |
| Series.KeepAtLeast | Python/HydModel_FineGrid_apply.py:224-229 | The masking keeps exactly the values at or above the floor, each as often as it occurs in the series, and no value below the floor. |
| Series.KeepAtLeastEmpty | Python/HydModel_FineGrid_apply.py:224-229 | The masked series is non-empty exactly when some value reaches the floor. |
| Series.Reciprocals | Python/HydModel_FineGrid_apply.py:225 | Element-wise 1/x. |
| Series.HarmonicMean | Python/HydModel_FineGrid_apply.py:225 | The harmonic mean is defined exactly for a non-empty series. |
| Series.SumPositive | Python/HydModel_FineGrid_apply.py:225 | A non-empty sum of positive values is positive. |
| Series.ReciprocalSumPositive | Python/HydModel_FineGrid_apply.py:225 | The sum of reciprocals of positive values is positive. |
| Series.ScaledReciprocal | Python/HydModel_FineGrid_apply.py:225 | For x in [lo, hi], lo/x <= 1 <= hi/x. |
| Series.ScaledSum | Python/HydModel_FineGrid_apply.py:225 | The sum of reciprocals of values in [lo, hi] is bounded by n/hi and n/lo. |
| Series.AddScaled | Python/HydModel_FineGrid_apply.py:225 | The reciprocal bound survives adding one more term. |
| Series.QuotientWithin | Python/HydModel_FineGrid_apply.py:225 | n/total lies within [lo, hi] when the total is bounded that way. |
| Series.HarmonicMeanWithin | Python/HydModel_FineGrid_apply.py:225 | The harmonic mean of positive values within [lo, hi] is within [lo, hi]. |
| Series.Yearly | Python/SMBM_def.py:75 | One yearly value per requested year, each the year sum of that year's days. |
| Series.Joined | Python/SMBM_def.py:183-190 | The left join of the year sums onto requested years: a value exactly for the years between the days' first and last year, and that year's sum. |
| Series.FirstOutOfRange | Python/SMBM_def.py:113-114 | The first requested year without a resample bin: every earlier year has one, and the position is the number of requested years when all do. |
| Series.YearSumBounds | Python/SMBM_def.py:75 | For non-negative daily values, a year sum lies between 0 and the total sum. |
| Series.AccumulateWeighted | Python/SMBM_def.py:102-105 | The += accumulation over soil types yields the weighted sum, day by day. |
| Series.WeightedUniform | Python/SMBM_def.py:102-105 | When every series has the same value c on a day, the weighted sum is c·Σpct/100. |
| Series.WeightedKeepsCommonValue | Python/SMBM_def.py:102-105 | Percentages summing to 100 keep a common value unchanged. |
| Series.Difference | Python/SMBM_def.py:111-114 | Element-wise difference: r + b = a. |
| Series.SumDifference | Python/SMBM_def.py:116-117 | The sum of differences is the difference of the sums. |
| Series.MeanDifference | Python/SMBM_def.py:116-117 | The mean of differences is the difference of the means. |
| Series.Column | Python/SMBM_def.py:116 | The k-th entry of every row. |
| Series.ColumnMeans | Python/SMBM_def.py:116 | One mean per year, over the cells. |
| Series.ColumnMeansWithin | Python/SMBM_def.py:116 | Per-year cell means of values within [lo, hi] are within [lo, hi]. |
| Calendar.SelectsOwnYearOnly | Python/HydModel_FineGrid_inputs.py:85-91 | A write selects a date exactly when the date is in the loop's year and inside the range. |
| Calendar.ValueAt | Python/HydModel_FineGrid_inputs.py:85-99 | A cell ends with its initial value or with the value of one of the writes that cover its date. |
| Calendar.LaterWriteWins | Python/HydModel_FineGrid_inputs.py:90-91 | A date covered by write k and by no later write takes write k's value. |
| Calendar.UncoveredKeepsInitial | Python/HydModel_FineGrid_inputs.py:78-99 | A date no write covers keeps its initial value. |
| Calendar.ValueAtDefined | Python/HydModel_FineGrid_inputs.py:78-99 | A date has a value exactly when there was an initial value or some write covers it. |
| Calendar.ScheduleColumn | Python/HydModel_FineGrid_inputs.py:35-37 | One value per date. |
| Calendar.ScheduleColumnDefined | Python/HydModel_FineGrid_inputs.py:48-69 | A calendar covering the year defines every date. |
| Calendar.WriteRange | Python/HydModel_FineGrid_inputs.py:87 | The masked write sets exactly the dates of that year inside the range, and leaves every other entry alone. |
| Calendar.WriteYear | Python/HydModel_FineGrid_inputs.py:86-94 | One year's writes, in order. |
| Calendar.FillSchedule | Python/HydModel_FineGrid_inputs.py:85-99 | The loop over min..max year leaves every date with the value of its last covering write. It fails exactly on an empty index. |
| Calendar.BuildColumn | Python/HydModel_FineGrid_inputs.py:78-99 | A column equals the schedule's values, or is EmptyIndex when there are no dates. |
| Schedules.PaddyRPumpingDecember15 | Python/HydModel_FineGrid_inputs.py:90-91 | PaddyR pumping on 15 December is 15.2, not 1.52: the later write wins. |
| Schedules.PaddyRPumpingSeasons | Python/HydModel_FineGrid_inputs.py:87-94 | PaddyR pumping on every day of the year, by season. |
| Schedules.PaddyKPumpingSeasons | Python/HydModel_FineGrid_inputs.py:96-99 | PaddyK pumping is 1.01 in June, 10.1 in July–September and 0 otherwise. |
| Schedules.VegetableKcSeasons | Python/HydModel_FineGrid_inputs.py:50-56 | Vegetable Kc on every day of the year. |
| Schedules.PaddyRKcSeasons | Python/HydModel_FineGrid_inputs.py:58-64 | PaddyR Kc on every day of the year. |
| Schedules.PaddyKKcSeasons | Python/HydModel_FineGrid_inputs.py:66-69 | PaddyK Kc on every day of the year. |
| Schedules.PaddyRReturnFlowSeasons | Python/SMBM_Inputs.py:122-129 | PaddyR Cf is 0.51 in June–September, 1 on 1–15 October and 16–30 April, and 0.48 otherwise. |
| Schedules.PaddyKReturnFlowSeasons | Python/SMBM_Inputs.py:131-134 | PaddyK Cf is 0.51 in June–September and 1 otherwise. |
| Schedules.ReturnFlowShareConstants | Python/HydModel_FineGrid_inputs.py:105-128 | Cf is 1 for Scrub, Forest, Fruit, Tank and Urban. For Vegetable it is 0.26 from 1 June to 31 October and 0.24 otherwise. |
| Schedules.CropCoefficient | Python/HydModel_FineGrid_inputs.py:42-69 | Kc has a constant exactly for Scrub, Forest, Fruit, Tank and Urban, and a seasonal calendar exactly for Vegetable, PaddyR and PaddyK. |
| Schedules.CropCoefficientConstants | Python/HydModel_FineGrid_inputs.py:42-46 | Kc is 0.7 for Scrub, 1.2 for Forest, 0.8 for Fruit and 1 for Tank and Urban, on every date. |
| Schedules.ReturnFlowShare | Python/HydModel_FineGrid_inputs.py:105-128 | Cf has a constant exactly for Scrub, Forest, Fruit, Tank, Urban and Vegetable, and a seasonal calendar exactly for Vegetable, PaddyR and PaddyK. |
| Schedules.CalendarsCoverYear | Python/HydModel_FineGrid_inputs.py:50-69 | Each seasonal calendar covers every day of the year. |
| Schedules.KnownLandUsesDefined | Python/HydModel_FineGrid_inputs.py:42-128 | Every known land use has a Kc and a Cf on every date. |
| Schedules.UnknownLandUsesUndefined | Python/HydModel_FineGrid_inputs.py:35-36 | Any other land use is left NaN. |
| FineGridInputs.Letter | Python/HydModel_FineGrid_inputs.py:21 | The i-th capital letter. |
| FineGridInputs.AlphaIndexShape | Python/HydModel_FineGrid_inputs.py:21 | 702 labels of one or two letters: A…Z, then AA…ZZ, with index 28 = "AC". |
| FineGridInputs.AlphaIndexOrdered | Python/HydModel_FineGrid_inputs.py:21 | Labels are strictly increasing (shorter first, then lexicographic), so all 702 are distinct. |
| FineGridInputs.Unique | Python/HydModel_FineGrid_inputs.py:29 | De-duplication keeps exactly the categories that occur, without repeats. |
| FineGridInputs.FirstIndex | Python/HydModel_FineGrid_inputs.py:29 | The position of an element's first occurrence. |
| FineGridInputs.FirstIndexUnique | Python/HydModel_FineGrid_inputs.py:29 | A position holding x with no earlier x is the first index. |
| FineGridInputs.FirstIndexExtends | Python/HydModel_FineGrid_inputs.py:29 | Appending does not move an earlier first occurrence. |
| FineGridInputs.InFirstOrderExtends | Python/HydModel_FineGrid_inputs.py:29 | First-appearance order survives appending a known row. |
| FineGridInputs.InFirstOrderSnoc | Python/HydModel_FineGrid_inputs.py:29 | First-appearance order survives appending a new row to both. |
| FineGridInputs.UniqueInFirstAppearanceOrder | Python/HydModel_FineGrid_inputs.py:29 | The de-duplicated rows are in order of first appearance. |
| FineGridInputs.Categories | Python/HydModel_FineGrid_inputs.py:29-30 | Labelling succeeds exactly when there are at most 702 distinct categories. Otherwise it fails with their count. |
| FineGridInputs.PumpingConstants | Python/HydModel_FineGrid_inputs.py:78-83 | PG is 0 for Scrub, Forest, Tank and Urban, 1.9 for Fruit and 7.7 for Vegetable. |
| FineGridInputs.Pumping | Python/HydModel_FineGrid_inputs.py:78-99 | PG has a constant exactly for Scrub, Forest, Tank, Fruit, Urban and Vegetable, and a seasonal calendar exactly for PaddyR and PaddyK. |
| FineGridInputs.ScheduleTable | Python/HydModel_FineGrid_inputs.py:35-128 | One column per category: its land use's schedule over the dates. |
| FineGridInputs.BuildTable | Python/HydModel_FineGrid_inputs.py:42-128 | The table-filling loops produce the schedule table, or EmptyIndex on an empty index. |
| FineGridInputs.RetMetres | Python/HydModel_FineGrid_inputs.py:73-74 | RET is defined on exactly the days Kc is, and there RET × 1000 = Kc × PET × 0.9. |
| FineGridInputs.PumpingMetres | Python/HydModel_FineGrid_inputs.py:101 | PG in metres is defined on exactly the days PG is, and there it is PG / 1000. |
| FineGridInputs.InputTables | Python/HydModel_FineGrid_inputs.py:35-128 | Four tables with one column per category: Kc, PG in metres and Cf from the calendars of the category's land use, and RET from that Kc column and the PET. |
| FineGridInputs.BuildInputs | Python/HydModel_FineGrid_inputs.py:35-128 | Builds the Kc, RET, PG and Cf tables, or fails with EmptyIndex. |
| FineGridInputs.InputsDefined | Python/HydModel_FineGrid_inputs.py:42-128 | For a known land use, every category has Kc, RET, PG and Cf on every date. |
| SmbmInputs.PumpingOnDate | Python/SMBM_Inputs.py:53-74 | PG is 0 for Scrub/Tank/Forest/Fruit/Urban and 7.7 for Vegetable. PaddyR is 15.2 on 15 December. PaddyK is 0 from October through May. |
| SmbmInputs.Pumping | Python/SMBM_Inputs.py:53-74 | PG has a constant exactly for Scrub, Tank, Forest, Fruit, Urban and Vegetable, and a seasonal calendar exactly for PaddyR and PaddyK. |
| SmbmInputs.ScheduleColumns | Python/SMBM_Inputs.py:44-136 | One column per land use, each its schedule over the dates. |
| SmbmInputs.BuildColumns | Python/SMBM_Inputs.py:53-136 | The column-filling loops give the schedule columns, or EmptyIndex. |
| SmbmInputs.RetMm | Python/SMBM_Inputs.py:109 | RET = Kc × PET in mm, NaN where Kc is NaN. |
| SmbmInputs.RetTable | Python/SMBM_Inputs.py:109 | The RET table has the Kc table's columns. |
| SmbmInputs.RetUnits | Python/SMBM_Inputs.py:109 | The fine-grid RET is the bucket-model RET × 0.9 / 1000. |
| SmbmInputs.ColumnKey | Python/SMBM_Inputs.py:148 | A land-use percentage column names its table column with a 3-character suffix. Shorter names give "". |
| SmbmInputs.FirstMissing | Python/SMBM_Inputs.py:146-150 | The first percentage column whose land use has no table column. |
| SmbmInputs.CellSeries | Python/SMBM_Inputs.py:148-150 | One weighted value per day. |
| SmbmInputs.Weighted | Python/SMBM_Inputs.py:146-150 | Weighting fails (KeyError) exactly when some percentage column has no table column and there is a cell. Otherwise there is one day-long series per cell. |
| SmbmInputs.WeightTable | Python/SMBM_Inputs.py:146-150 | The nested += loop yields exactly the weighted table. |
| SmbmInputs.Values | Python/SMBM_Inputs.py:146-150 | The table's columns as real series. |
| SmbmInputs.WeightedValueDefined | Python/SMBM_Inputs.py:146-150 | A weighted value is defined exactly when every contributing value is. It then equals Σ X[lu]·pct[lu]/100. |
| SmbmInputs.WeightedValue | Python/SMBM_Inputs.py:146-150 | The accumulated value of a cell is defined exactly when every land-use value added so far is. |
| SmbmInputs.CommonValueKept | Python/SMBM_Inputs.py:146-150 | Percentages summing to 100 keep a value common to all land uses. |
| SmbmInputs.Inputs | Python/SMBM_Inputs.py:44-150 | Builds the weighted RET/PG/Cf per cell. Fails with EmptyIndex on no dates, and with KeyError exactly when a land-use column is missing. |
| SmbmInputs.SameColumnsPresent | Python/SMBM_Inputs.py:146-150 | Tables with the same keys have the same missing columns. |
| SmbmInputs.BuildInputs | Python/SMBM_Inputs.py:44-150 | The imperative input builder returns exactly the specified inputs. |
| FineGrid.SoilIndex | Python/HydModel_FineGrid_apply.py:123 | The soil-class index exists exactly for a listed soil class and points at it. An unknown class raises. |
| FineGrid.FromTable | Python/HydModel_FineGrid_apply.py:135-152 | Parameters read from a sound table at a soil index are usable. |
| FineGrid.PaddyParams | Python/HydModel_FineGrid_apply.py:126-132 | The paddy constants are usable. |
| FineGrid.CoverTable | Python/HydModel_FineGrid_apply.py:135-152 | Forest takes the forest table, Scrub the scrub table and every other land use the default table. Each is complete and sound. |
| FineGrid.TablesSound | Python/HydModel_FineGrid_apply.py:41-75 | Every row of the default, Forest and Scrub tables has Ks >= 0, ThetaS above the floor, a non-zero Lambda and hbc <= 0. Every thickness is positive. |
| FineGrid.CategoryParams | Python/HydModel_FineGrid_apply.py:123-152 | Succeeds exactly for a listed soil class, failing with UnknownSoilClass otherwise. Paddy gets exactly the paddy Ks, ThetaS, Lambda, hbc and Eta, the thickness of its soil class and the 0.12 bund. Every other land use gets its cover table's row for the soil class, that thickness and the 0.02 bund. The result is usable. |
| FineGrid.CategoryForcing | Python/HydModel_FineGrid_apply.py:156-159 | R is rain/1000, PG is the category's pumping and RET is the category's RET, day by day. |
| FineGrid.FirstUnknown | Python/HydModel_FineGrid_apply.py:119-123 | Every category before it has a known soil class, and it is unknown itself. |
| FineGrid.KnownRuns | Python/HydModel_FineGrid_apply.py:119-177 | One engine run per category. |
| FineGrid.FirstUnknownAt | Python/HydModel_FineGrid_apply.py:119-123 | The first unknown category is the one the loop stops at. |
| FineGrid.Runs | Python/HydModel_FineGrid_apply.py:119-177 | The category loop succeeds exactly when all soil classes are known, with one run per category. |
| FineGrid.RunCategories | Python/HydModel_FineGrid_apply.py:119-177 | The imperative loop returns exactly Runs. It stops at the first unknown class. |
| FineGrid.Field | Python/HydModel_FineGrid_apply.py:169-177 | One output column of a run. |
| FineGrid.Millimetres | Python/HydModel_FineGrid_apply.py:192 | Values × 1000. |
| FineGrid.CleanRecharge | Python/HydModel_FineGrid_apply.py:185-186 | Recharge in mm is 0 or at least 1. Values of at least 1 mm are kept exactly. |
| FineGrid.NaturalDayIsExcess | Python/HydModel_FineGrid_apply.py:210-213 | On a pumped day the corrected recharge is max(Rech - Cf·PG·1000, 0). |
| FineGrid.NaturalRecharge | Python/HydModel_FineGrid_apply.py:210-216 | Unpumped categories keep their raw recharge. Pumped categories get 0 on days without pumping. |
| FineGrid.NaturalRechargeBounds | Python/HydModel_FineGrid_apply.py:210-216 | Corrected recharge lies between 0 and the raw recharge, and equals the excess on pumped days. |
| FineGrid.NaturalDay | Python/HydModel_FineGrid_apply.py:210-213 | A day's natural recharge is never negative. It is 0 without positive pumping and when recharge per mm of pumping does not exceed Cf. |
| FineGrid.KhSummary | Python/HydModel_FineGrid_apply.py:224-225 | Defined exactly when some Kh is at least 1e-5. |
| FineGrid.KhSummaryWithin | Python/HydModel_FineGrid_apply.py:224-225 | When every value is at most hi, the harmonic mean lies between 1e-5 and hi. |
| FineGrid.HeadSummary | Python/HydModel_FineGrid_apply.py:228-229 | Defined exactly when some head is at least -1000. |
| FineGrid.HeadSummaryWithin | Python/HydModel_FineGrid_apply.py:228-229 | When every value is at most hi, the masked mean lies between -1000 and hi. |
| FineGrid.CategoryOutputs | Python/HydModel_FineGrid_apply.py:185-232 | All output columns have one value per day. |
| FineGrid.OutputRechargeBounds | Python/HydModel_FineGrid_apply.py:185-216 | Reported recharge lies between 0 and the clipped recharge in mm. |
| FineGrid.MapToCells | Python/HydModel_FineGrid_apply.py:251-273 | Each cell gets the values of the category equal to its own (soil class, land use). The loop fails, naming the cell, exactly when some cell has no category. The two-layer run uses the same cell loop (HydModel_FineGrid_apply-2lay.py:371-399). |
| FineGrid.EveryCellHasCategory | Python/HydModel_FineGrid_inputs.py:29 | De-duplicated categories are distinct and every cell finds its own. |
| FineGrid.YearResidual | Python/HydModel_FineGrid_apply.py:291-308 | Each year's residual exists exactly when there are cells. |
| FineGrid.CellResidual | Python/HydModel_FineGrid_apply.py:308 | The residual is 0 exactly when pumping plus rain equals AET plus runoff plus recharge, and positive exactly when the inputs exceed the outputs. |
| FineGrid.SumKnown | Python/HydModel_FineGrid_apply.py:309 | NaN years add nothing: an all-NaN series sums to 0, and known values that are all non-negative give a non-negative sum. |
| FineGrid.TotalResidual | Python/HydModel_FineGrid_apply.py:309 | The first two years never count: with at most two years, or only NaN from the third year on, the total is 0. Non-negative residuals give a non-negative total. |
| FineGrid.CellResiduals | Python/HydModel_FineGrid_apply.py:308 | One residual per cell. |
| FineGrid.SumCellResiduals | Python/HydModel_FineGrid_apply.py:291-308 | The sum of per-cell residuals is PG + R - (AET + Runoff + Rech) over the sums. |
| FineGrid.MeanOfCombination | Python/HydModel_FineGrid_apply.py:291-308 | Dividing the summed combination by n gives the combination of the means. |
| FineGrid.MeanOfResiduals | Python/HydModel_FineGrid_apply.py:291-308 | The mean of the residuals is the residual of the means. |
| FineGrid.YearResidualIsMeanOfCells | Python/HydModel_FineGrid_apply.py:291-308 | The yearly residual is the mean over cells of each cell's own residual. |
| FineGrid.Residuals | Python/HydModel_FineGrid_apply.py:308 | One residual per year. |
| FineGrid.SumKnownZero | Python/HydModel_FineGrid_apply.py:309 | Adding up zeros gives zero. |
| FineGrid.BalancedCellsGiveZeroTotal | Python/HydModel_FineGrid_apply.py:291-309 | When every cell balances, the total residual (years from index 2 on) is zero. The two-layer balance (HydModel_FineGrid_apply-2lay.py:419-437) is the same computation. |
| TwoLayer.UpperTablesSound | Python/HydModel_FineGrid_apply-2lay.py:50-79 | The upper-layer tables and thicknesses are sound. |
| TwoLayer.LowerTablesSound | Python/HydModel_FineGrid_apply-2lay.py:85-107 | The lower-layer tables and thicknesses are sound. |
| TwoLayer.UpperCover | Python/HydModel_FineGrid_apply-2lay.py:184-225 | Forest takes the upper forest table, Scrub the upper scrub table and every other land use the upper default table. Each is complete and sound. |
| TwoLayer.LowerCover | Python/HydModel_FineGrid_apply-2lay.py:165-231 | Forest takes the lower forest table, Scrub the lower scrub table and every other land use, rice included, the lower default table. Each is complete and sound. |
| TwoLayer.LayerParams | Python/HydModel_FineGrid_apply-2lay.py:158-232 | Succeeds exactly for a listed soil class. Paddy's upper layer is exactly the paddy constants with the upper thickness of its soil class and the 0.12 bund; any other upper layer is its upper cover table's row with that thickness and the 0.045 bund. The lower layer is always its lower cover table's row with the lower thickness and Thresh 100. Both layers are usable. |
| TwoLayer.LowerForcing | Python/HydModel_FineGrid_apply-2lay.py:263-265 | The lower layer's R is the upper layer's qout and its RET is the upper layer's deficit, with no PG. |
| TwoLayer.LayerRun | Python/HydModel_FineGrid_apply-2lay.py:238-281 | Both layer tables have one row per day. |
| TwoLayer.RunLayers | Python/HydModel_FineGrid_apply-2lay.py:238-281 | The two engine calls give exactly the chained layer runs. |
| TwoLayer.ChainedLayers | Python/HydModel_FineGrid_apply-2lay.py:238-281 | The lower layer runs off exactly when the upper outflow plus its own carried storage exceeds 100. AET1 + AET2 = RET - Deficit2 <= RET, and Deficit2 >= 0. |
| TwoLayer.KnownLayerRuns | Python/HydModel_FineGrid_apply-2lay.py:154-281 | One pair of layer runs per category. |
| TwoLayer.LayerRunsOf | Python/HydModel_FineGrid_apply-2lay.py:154-281 | The corrected category loop succeeds exactly when all soil classes are known. It then gives one run pair per category, and otherwise names the first unknown class. |
| TwoLayer.RunAllCategories | Python/HydModel_FineGrid_apply-2lay.py:154-281 | The imperative corrected loop returns exactly LayerRunsOf. |
| TwoLayer.HeaderLabels | Python/HydModel_FineGrid_apply-2lay.py:154 | The loop header fails with IndexError at 28 exactly when there are at most 28 categories. |
| TwoLayer.FirstLabels | Python/HydModel_FineGrid_inputs.py:21 | The first three labels are A, B and C. |
| TwoLayer.HeaderVisits | Python/HydModel_FineGrid_apply-2lay.py:154 | With more than 28 categories, the header visits only the labels "A" and "C". |
| TwoLayer.HeaderPositions | Python/HydModel_FineGrid_apply-2lay.py:154 | The visited categories are at positions 0 and 2. |
| TwoLayer.UnknownAmong | Python/HydModel_FineGrid_apply-2lay.py:158 | The first visited category with an unknown soil class, if any. |
| TwoLayer.AsWrittenRuns | Python/HydModel_FineGrid_apply-2lay.py:154-281 | The loop as written keeps one slot per category, filled only for the visited ones. |
| TwoLayer.HeaderSkipsCategories | Python/HydModel_FineGrid_apply-2lay.py:154 | Even with all soil classes known, the loop as written fails with at most 28 categories. With more, it leaves category B without a run where the corrected loop has one. |
| TwoLayer.CombineLayers | Python/HydModel_FineGrid_apply-2lay.py:289-349 | All combined columns have one value per day. |
| TwoLayer.CombinedOutputs | Python/HydModel_FineGrid_apply-2lay.py:289-320 | AET(mm) + Deficit = RET(mm), where Deficit is the lower deficit × 1000. The deficit is >= 0, AET <= RET, and reported recharge lies between 0 and the clipped lower outflow. |

## Left out

- The Brooks–Corey power law (`np.power` with real exponents) is the parameter `pow` of every run. Nothing about its values is assumed except where a lemma states it in a `requires`.
- All arithmetic is over exact reals, not IEEE doubles. NaN is modelled only where the scripts rely on it, as `Option`: an unset schedule value, a missing PG column, an empty mask.
- A NaN pumping value inside a present PG column is not modelled. In the engine it would make the inflow NaN, so Rd falls to the bund threshold and the runoff becomes NaN; the model's `Forcing.PG` is either a real or an absent column.
- File, Excel and user I/O, working-directory changes, plotting and sounds are not modelled. Forcing and observations are parameters.
- The RMSE's square root is left out. `Smbm.MeanSquaredError` stops before it.
- pandas `resample("A")` is modelled as a given day-to-year map (`yearOf`) and a list of years. A year has a bin when it lies between the earliest and the latest year of the days (`Series.InYearRange`); `CellRun` and `SoilTypeRun` use this for the join and the KeyError. `SmbmRun` returns the year sums of the years it is given, and a given year outside that range has sum 0 there.
- A NaN observed yearly recharge is not modelled. Observations are reals, so only the join's missing years are skipped by the mean.
- Per-cell `.at` writes inside the engine's day loop are modelled as one row computed by `HydMod.Day` and written whole.
- The SMBM soil-type weighting is modelled as three passes instead of one interleaved loop: run every soil type, accumulate the weighted sums, then take year sums and errors. The values are the same.
- The two-layer per-category summaries of Kh/hUnsat/Theta reuse the one-layer summaries, and the two-layer cell loop reuses `FineGrid.MapToCells`, applied once per output table.
- The engine requires a non-zero thickness and Lambda (`Divisible`), the only divisors the code cannot avoid. Bounds lemmas also require ThetaS at or above the 1e-10 floor.
- MODFLOW model building, ArcGIS resampling, the L-BFGS-B calibration, the sensitivity test and the thin driver scripts are outside the core and are not modelled.
- Smbm.NaturalRecharge: bounds are stated for coefficients in [0, 1] and non-negative recharge only, because the scripts never give other values.
- HydMod.RunBounds: stated for days from 1 on. Day 0 is the zero row, whose Theta1 of 0 is outside (0, ThetaS].

## Findings

| source | as written | input that shows it | evidently intended | confidence | as-written member | corrected member |
|---|---|---|---|---|---|---|
| Python/HydModel_FineGrid_apply-2lay.py:154 | The loop iterates over the characters of the single label `index[28]` ("AC"), not over the category labels. | Any category table. With at most 28 categories, `index[28]` raises IndexError. With more, only categories "A" and "C" are run and every other category, e.g. "B", is left without output. | Run the two-layer body for every category, as the one-layer script does. | not executed | TwoLayer.HeaderSkipsCategories | TwoLayer.RunAllCategories |
