/**
 * The calculation core of the multi-effect evaporator laboratory: the
 * closed-form result formula evaluated on every parameter change, the
 * temperature cascade over the three effects, and the three-band
 * performance rating announced after a run.
 *
 * The source evaluates everything in IEEE-754 doubles; here every quantity
 * is an exact `real`. The parameters are integers because every slider
 * handler stores `parseInt` of the slider value. A division the source
 * performs by zero yields a non-finite double there (Infinity or NaN); here
 * it yields `None`.
 */
module Evaporator {
  import opened Wrappers

  /** The operator's settings (the lab's `parameters` record). */
  datatype Params = Params(
    steamTemp: int,           // deg C
    feedRate: int,            // kg/hr
    concentration: int,       // feed concentration, %
    numEffects: int,          // number of effects
    targetProductConc: int,   // %
    coolingWaterFlow: int     // L/hr
  )

  /** Everything `calculateResults` derives from the parameters. */
  datatype Results = Results(
    steamEconomy: real,              // kg vapour / kg steam
    heatTransfer: real,              // kW
    waterRemovalRate: real,          // fraction of the feed evaporated
    finalConcentration: real,        // %
    totalEvaporation: real,          // kg/hr
    steamConsumption: Option<real>,  // kg/hr; None where the source divides by a zero economy
    productFlow: real,               // kg/hr
    thermalEfficiency: real,         // %
    specificEnergy: Option<real>,    // kWh/kg; None where the source divides by a zero product flow
    coolingWaterReq: real,           // L/hr
    coolingWaterLow: bool            // the cooling-water slider label is turned red
  )

  /** The settings a fresh lab starts with and a reset restores. */
  const Defaults := Params(150, 500, 10, 3, 45, 1000)

  function Min(a: real, b: real): real { if a <= b then a else b }
  function Max(a: real, b: real): real { if a >= b then a else b }

  /** Steam economy before the effect-count adjustments: 2.2 at 60 deg C, +0.8 per 100 deg C. */
  function BaseSteamEconomy(steamTemp: int): real
  {
    2.2 + ((steamTemp - 60) as real / 100.0) * 0.8
  }

  /**
   * Steam economy: the base value, plus 0.5 per effect beyond three (minus
   * 0.5 per effect short of three), and for exactly two effects a further
   * 0.5 off.
   */
  function SteamEconomy(steamTemp: int, numEffects: int): (r: real)
    ensures numEffects == 3 ==> r == BaseSteamEconomy(steamTemp)
    ensures numEffects == 2 ==> r == BaseSteamEconomy(steamTemp) - 1.0
    ensures numEffects != 2 ==> r - BaseSteamEconomy(steamTemp) == (numEffects - 3) as real / 2.0
  {
    var e := BaseSteamEconomy(steamTemp) + (numEffects - 3) as real * 0.5;
    if numEffects == 2 then e - 0.5 else e
  }

  /**
   * Heat-transfer rate in kW: the sensible heat (4.18 kJ/kg K) to take the
   * feed from 25 deg C to the steam temperature, per hour, over 3600 s.
   */
  function HeatTransfer(feedRate: int, steamTemp: int): (q: real)
    ensures q * 3600.0 == 4.18 * feedRate as real * (steamTemp - 25) as real
    ensures feedRate > 0 && steamTemp > 25 ==> q > 0.0
    ensures feedRate == 0 || steamTemp == 25 ==> q == 0.0
  {
    (feedRate as real * 4.18 * (steamTemp - 25) as real) / 3600.0
  }

  /** The water-removal fraction before it is clamped. */
  function RawWaterRemovalRate(steamTemp: int, numEffects: int): real
  {
    0.70 + (steamTemp - 100) as real / 500.0 + (numEffects - 3) as real * 0.03
  }

  /** The water-removal fraction, clamped to [0.65, 0.90]. */
  function WaterRemovalRate(steamTemp: int, numEffects: int): (r: real)
    ensures 0.65 <= r <= 0.90
    ensures 0.65 <= RawWaterRemovalRate(steamTemp, numEffects) <= 0.90 ==> r == RawWaterRemovalRate(steamTemp, numEffects)
    ensures RawWaterRemovalRate(steamTemp, numEffects) < 0.65 ==> r == 0.65
    ensures RawWaterRemovalRate(steamTemp, numEffects) > 0.90 ==> r == 0.90
  {
    Max(0.65, Min(RawWaterRemovalRate(steamTemp, numEffects), 0.90))
  }

  /** The computed final concentration, overridden by the target when the target is higher. */
  function FinalConcentration(concentration: int, targetProductConc: int, waterRemovalRate: real): (r: real)
    requires 0.65 <= waterRemovalRate <= 0.90
    ensures r >= targetProductConc as real
    ensures r >= concentration as real / (1.0 - waterRemovalRate)
    ensures r == targetProductConc as real || r == concentration as real / (1.0 - waterRemovalRate)
  {
    var computed := concentration as real / (1.0 - waterRemovalRate);
    if targetProductConc as real > computed then targetProductConc as real else computed
  }

  /** Thermal efficiency: 70% at economy 2, +8 points per unit of economy, capped at 95%. */
  function ThermalEfficiency(steamEconomy: real): (r: real)
    ensures r <= 95.0
    ensures r <= 70.0 + (steamEconomy - 2.0) * 8.0
    ensures r == 95.0 || r == 70.0 + (steamEconomy - 2.0) * 8.0
  {
    Min(95.0, 70.0 + (steamEconomy - 2.0) * 8.0)
  }

  /** A ratio as the source's double division computes it, with None for a non-finite quotient. */
  function Ratio(numerator: real, denominator: real): (r: Option<real>)
    ensures r.Some? <==> denominator != 0.0
    ensures r.Some? ==> r.value * denominator == numerator
  {
    if denominator != 0.0 then Some(numerator / denominator) else None
  }

  /**
   * The whole result set. The cooling-water flag is the only use the source
   * makes of `coolingWaterFlow`.
   */
  function CalculateResults(p: Params): (r: Results)
    // the clamp
    ensures 0.65 <= r.waterRemovalRate <= 0.90
    ensures r.waterRemovalRate == WaterRemovalRate(p.steamTemp, p.numEffects)
    // the override: the final concentration is the larger of the computed one and the target
    ensures r.finalConcentration >= p.targetProductConc as real
    ensures r.finalConcentration >= p.concentration as real / (1.0 - r.waterRemovalRate)
    ensures r.finalConcentration == p.targetProductConc as real
         || r.finalConcentration == p.concentration as real / (1.0 - r.waterRemovalRate)
    // mass balance: feed = vapour + product, and at least a tenth of the feed leaves as product
    ensures r.totalEvaporation == p.feedRate as real * r.waterRemovalRate
    ensures r.totalEvaporation + r.productFlow == p.feedRate as real
    ensures p.feedRate >= 0 ==> r.productFlow >= p.feedRate as real / 10.0
    // steam consumption and specific energy are finite exactly when their divisors are non-zero
    ensures r.steamConsumption.Some? <==> r.steamEconomy != 0.0
    ensures r.specificEnergy.Some? <==> p.feedRate != 0
    // the efficiency cap
    ensures r.thermalEfficiency <= 95.0
    ensures r.thermalEfficiency <= 70.0 + (r.steamEconomy - 2.0) * 8.0
    ensures r.thermalEfficiency == 95.0 || r.thermalEfficiency == 70.0 + (r.steamEconomy - 2.0) * 8.0
    // the warning
    ensures r.coolingWaterLow <==> (p.coolingWaterFlow as real) < r.totalEvaporation * 2.0
    ensures r.steamEconomy == SteamEconomy(p.steamTemp, p.numEffects)
    ensures r.heatTransfer == HeatTransfer(p.feedRate, p.steamTemp)
  {
    var steamEconomy := SteamEconomy(p.steamTemp, p.numEffects);
    var heatTransfer := HeatTransfer(p.feedRate, p.steamTemp);
    var waterRemovalRate := WaterRemovalRate(p.steamTemp, p.numEffects);
    var finalConcentration := FinalConcentration(p.concentration, p.targetProductConc, waterRemovalRate);
    var totalEvaporation := Evaporation(p.feedRate, waterRemovalRate);
    var coolingWaterLow := (p.coolingWaterFlow as real) < totalEvaporation * 2.0;
    var steamConsumption := Ratio(totalEvaporation, steamEconomy);
    var productFlow := p.feedRate as real - totalEvaporation;
    var thermalEfficiency := ThermalEfficiency(steamEconomy);
    var specificEnergy := Ratio(heatTransfer, productFlow);
    var coolingWaterReq := (totalEvaporation * 2300.0) / (4.18 * 10.0);
    Results(steamEconomy, heatTransfer, waterRemovalRate, finalConcentration, totalEvaporation,
            steamConsumption, productFlow, thermalEfficiency, specificEnergy, coolingWaterReq,
            coolingWaterLow)
  }

  /**
   * The vapour driven off a feed at a removal fraction of at most 0.90: what
   * is left as product is at least a tenth of the feed, and is zero only for
   * a zero feed.
   */
  function Evaporation(feedRate: int, rate: real): (e: real)
    requires 0.65 <= rate <= 0.90
    ensures e == feedRate as real * rate
    ensures feedRate >= 0 ==> feedRate as real - e >= feedRate as real / 10.0
    ensures feedRate as real - e == 0.0 <==> feedRate == 0
  {
    ProductLeft(feedRate as real, rate);
    feedRate as real * rate
  }

  /** Arithmetic behind `Evaporation`: feed - feed * rate is feed * (1 - rate). */
  lemma ProductLeft(feed: real, rate: real)
    requires 0.65 <= rate <= 0.90
    ensures feed >= 0.0 ==> feed - feed * rate >= feed / 10.0
    ensures feed - feed * rate == 0.0 <==> feed == 0.0
  {
    assert feed - feed * rate == feed * (1.0 - rate);
    if feed >= 0.0 {
      assert feed * (1.0 - rate) >= feed * 0.1;
    }
    if feed != 0.0 {
      assert feed * (1.0 - rate) != 0.0;
    }
  }

  // ---------------------------------------------------------------------
  // Properties of the formula that relate several evaluations

  /** Steam consumed times the economy is the vapour produced. */
  lemma SteamConsumptionMeaning(p: Params)
    ensures var r := CalculateResults(p);
      r.steamConsumption.Some? ==> r.steamConsumption.value * r.steamEconomy == r.totalEvaporation
  {
    var r := CalculateResults(p);
    assert r.steamConsumption == Ratio(r.totalEvaporation, r.steamEconomy);
  }

  /** Specific energy times the product flow is the heat duty. */
  lemma SpecificEnergyMeaning(p: Params)
    ensures var r := CalculateResults(p);
      r.specificEnergy.Some? ==> r.specificEnergy.value * r.productFlow == r.heatTransfer
  {
    var r := CalculateResults(p);
    assert r.specificEnergy == Ratio(r.heatTransfer, r.productFlow);
  }

  /**
   * The stated cooling-water requirement is about 55 times the evaporation,
   * while the warning only fires below twice the evaporation: for any
   * positive feed a flow can be far short of the requirement and still raise
   * no warning.
   */
  lemma CoolingWarningBelowRequirement(p: Params)
    requires p.feedRate > 0
    ensures var r := CalculateResults(p);
      && r.totalEvaporation * 2.0 < r.coolingWaterReq
      && var flow := (r.totalEvaporation * 2.0).Floor + 1;
         flow as real < r.coolingWaterReq && !CalculateResults(p.(coolingWaterFlow := flow)).coolingWaterLow
  {
    var r := CalculateResults(p);
    assert r.totalEvaporation >= 0.65 * p.feedRate as real;
    assert r.coolingWaterReq * 41.8 == r.totalEvaporation * 2300.0;
    CoolingWaterOnlyAffectsWarning(p, (r.totalEvaporation * 2.0).Floor + 1);
  }

  /** The default settings give the values the lab first shows. */
  lemma DefaultResults()
    ensures CalculateResults(Defaults).steamEconomy == 2.92
    ensures CalculateResults(Defaults).waterRemovalRate == 0.8
    ensures CalculateResults(Defaults).totalEvaporation == 400.0
    ensures CalculateResults(Defaults).productFlow == 100.0
    ensures CalculateResults(Defaults).finalConcentration == 50.0
    ensures CalculateResults(Defaults).thermalEfficiency == 77.36
    ensures CalculateResults(Defaults).heatTransfer == 261250.0 / 3600.0
    ensures !CalculateResults(Defaults).coolingWaterLow
  {
    var r := CalculateResults(Defaults);
    assert r.waterRemovalRate == 0.8;
    assert r.finalConcentration == 50.0;
  }

  /** A hotter steam supply strictly improves the steam economy, whatever the effect count. */
  lemma SteamEconomyIncreasing(t1: int, t2: int, numEffects: int)
    requires t1 < t2
    ensures SteamEconomy(t1, numEffects) < SteamEconomy(t2, numEffects)
  {
  }

  /** With a positive feed, a hotter steam supply strictly raises the heat-transfer rate. */
  lemma HeatTransferIncreasing(feedRate: int, t1: int, t2: int)
    requires feedRate > 0 && t1 < t2
    ensures HeatTransfer(feedRate, t1) < HeatTransfer(feedRate, t2)
  {
    var f := feedRate as real * 4.18;
    assert f > 0.0;
    assert f * (t1 - 25) as real < f * (t2 - 25) as real;
  }

  /** The water-removal fraction never falls as the steam gets hotter. */
  lemma WaterRemovalRateMonotonic(t1: int, t2: int, numEffects: int)
    requires t1 <= t2
    ensures WaterRemovalRate(t1, numEffects) <= WaterRemovalRate(t2, numEffects)
  {
  }

  /**
   * The cooling-water flow feeds only the warning: changing it leaves every
   * other result as it was.
   */
  lemma CoolingWaterOnlyAffectsWarning(p: Params, flow: int)
    ensures CalculateResults(p.(coolingWaterFlow := flow))
         == CalculateResults(p).(coolingWaterLow := CalculateResults(p.(coolingWaterFlow := flow)).coolingWaterLow)
  {
  }

  /** Removing 65% to 90% of the water concentrates a feed between 1/0.35 and 10 times. */
  lemma ConcentrationFactor(c: real, w: real)
    requires 0.65 <= w <= 0.90 && c >= 0.0
    ensures c <= c / 0.35 <= c / (1.0 - w) <= 10.0 * c
  {
    var q := c / (1.0 - w);
    assert q * (1.0 - w) == c;
    assert q >= 0.0;
    assert q * (1.0 - w) <= q * 0.35;
    assert q * (1.0 - w) >= q * 0.1;
  }

  /**
   * Evaporation only concentrates: the final concentration is at least the
   * feed's, and at most ten times the feed's unless the target is higher.
   */
  lemma FinalConcentrationBounds(p: Params)
    requires p.concentration >= 0
    ensures CalculateResults(p).finalConcentration >= p.concentration as real
    ensures CalculateResults(p).finalConcentration <= Max(p.targetProductConc as real, 10.0 * p.concentration as real)
  {
    ConcentrationFactor(p.concentration as real, WaterRemovalRate(p.steamTemp, p.numEffects));
  }

  // ---------------------------------------------------------------------
  // Effect temperatures

  /** The temperature drop from the steam to effects 1, 2 and 3. */
  const TempDrops: seq<int> := [0, 30, 50]

  /**
   * The temperature shown for an effect: the steam temperature less that
   * effect's drop, but never below 60 deg C. The source indexes its table
   * with `effectNumber - 1`, so an effect number outside 1..3 reads
   * `undefined` and the result is NaN; here it is `None`.
   */
  function EffectTemperature(steamTemp: int, effectNumber: int): (r: Option<int>)
    ensures r.Some? <==> 1 <= effectNumber <= 3
    ensures r.Some? ==> r.value >= 60
    ensures r.Some? && steamTemp - TempDrops[effectNumber - 1] >= 60 ==> r.value == steamTemp - TempDrops[effectNumber - 1]
    ensures r.Some? && steamTemp - TempDrops[effectNumber - 1] < 60 ==> r.value == 60
  {
    if 1 <= effectNumber <= 3 then
      var t := steamTemp - TempDrops[effectNumber - 1];
      Some(if t >= 60 then t else 60)
    else
      None
  }

  /** Down the cascade the temperature never rises. */
  lemma EffectTemperaturesDescend(steamTemp: int, i: int, j: int)
    requires 1 <= i <= j <= 3
    ensures EffectTemperature(steamTemp, j).value <= EffectTemperature(steamTemp, i).value
  {
  }

  // ---------------------------------------------------------------------
  // Performance rating

  datatype Performance = Low | Medium | High

  function Rank(b: Performance): nat
  {
    match b
    case Low => 0
    case Medium => 1
    case High => 2
  }

  /**
   * The rating announced after a run: High at economy >= 3.0 with efficiency
   * >= 85, otherwise Medium at economy >= 2.5 with efficiency >= 75,
   * otherwise Low.
   */
  function Classify(steamEconomy: real, thermalEfficiency: real): (b: Performance)
    ensures b == High <==> steamEconomy >= 3.0 && thermalEfficiency >= 85.0
    ensures b == Medium <==> !(steamEconomy >= 3.0 && thermalEfficiency >= 85.0)
                             && steamEconomy >= 2.5 && thermalEfficiency >= 75.0
    ensures b == Low <==> !(steamEconomy >= 2.5 && thermalEfficiency >= 75.0)
  {
    if steamEconomy >= 3.0 && thermalEfficiency >= 85.0 then High
    else if steamEconomy >= 2.5 && thermalEfficiency >= 75.0 then Medium
    else Low
  }

  /** `Math.round`: the nearest integer, halves rounded up. */
  function MathRound(x: real): (n: int)
    ensures x - 0.5 < n as real <= x + 0.5
  {
    (x + 0.5).Floor
  }

  /**
   * `parseFloat(x.toFixed(2))`: the nearest multiple of 0.01, halves rounded
   * away from zero.
   */
  function ToFixed2(x: real): (y: real)
    ensures x >= 0.0 ==> x - 0.005 < y <= x + 0.005
    ensures x < 0.0 ==> x - 0.005 <= y < x + 0.005
    ensures (y * 100.0).Floor as real == y * 100.0
  {
    var n := if x >= 0.0 then (x * 100.0 + 0.5).Floor else -((-x * 100.0 + 0.5).Floor);
    assert x >= 0.0 ==> x * 100.0 - 0.5 < n as real <= x * 100.0 + 0.5;
    assert x < 0.0 ==> x * 100.0 - 0.5 <= n as real < x * 100.0 + 0.5;
    assert (n as real / 100.0) * 100.0 == n as real;
    n as real / 100.0
  }

  /**
   * The rating actually announced: the announcement reads the economy back
   * as displayed to two decimals and the efficiency as displayed rounded to
   * an integer, and classifies those.
   */
  function AnnouncedRating(r: Results): (b: Performance)
    ensures b == Classify(ToFixed2(r.steamEconomy), MathRound(r.thermalEfficiency) as real)
    ensures b == High ==> r.steamEconomy >= 2.995 && r.thermalEfficiency >= 84.5
    ensures b != Low ==> r.steamEconomy >= 2.495 && r.thermalEfficiency >= 74.5
  {
    Classify(ToFixed2(r.steamEconomy), MathRound(r.thermalEfficiency) as real)
  }

  /**
   * On the lab's own results the announced rating depends on the economy
   * alone: High from 3.8125, Medium from 2.5625 (the rounded efficiency
   * reaches 85 and 75 half a point early).
   */
  lemma AnnouncedResults(p: Params)
    ensures var r := CalculateResults(p);
      && (AnnouncedRating(r) == High <==> r.steamEconomy >= 3.8125)
      && (AnnouncedRating(r) == Medium <==> 2.5625 <= r.steamEconomy < 3.8125)
      && (AnnouncedRating(r) == Low <==> r.steamEconomy < 2.5625)
  {
    AnnouncedBands(CalculateResults(p));
  }

  /** The announced bands for any results whose efficiency follows from their economy. */
  lemma AnnouncedBands(r: Results)
    requires r.thermalEfficiency == ThermalEfficiency(r.steamEconomy)
    ensures AnnouncedRating(r) == High <==> r.steamEconomy >= 3.8125
    ensures AnnouncedRating(r) == Medium <==> 2.5625 <= r.steamEconomy < 3.8125
    ensures AnnouncedRating(r) == Low <==> r.steamEconomy < 2.5625
  {
    var e := r.steamEconomy;
    var f := r.thermalEfficiency;
    var shownF := MathRound(f) as real;
    assert shownF >= 85.0 <==> f >= 84.5;
    assert shownF >= 75.0 <==> f >= 74.5;
    assert f >= 84.5 <==> e >= 3.8125;
    assert f >= 74.5 <==> e >= 2.5625;
    assert e >= 2.5625 ==> ToFixed2(e) >= 2.5;
    assert e >= 3.8125 ==> ToFixed2(e) >= 3.0;
  }

  /**
   * With the lab's three effects the announced rating is High exactly from a
   * steam temperature of 262 deg C and Low exactly below 106 deg C.
   */
  lemma AnnouncedBandsThreeEffects(p: Params)
    ensures var r := CalculateResults(p);
      p.numEffects == 3 ==>
        && (AnnouncedRating(r) == High <==> p.steamTemp >= 262)
        && (AnnouncedRating(r) == Low <==> p.steamTemp < 106)
  {
    AnnouncedResults(p);
  }

  /** Better figures never earn a worse rating. */
  lemma ClassifyMonotonic(e1: real, f1: real, e2: real, f2: real)
    requires e1 <= e2 && f1 <= f2
    ensures Rank(Classify(e1, f1)) <= Rank(Classify(e2, f2))
  {
  }

  /**
   * On the lab's own exact results the efficiency is a function of the
   * economy, so the rating of the exact values depends on the economy alone:
   * High from 3.875, Medium from 2.625.
   */
  lemma ClassifyResults(p: Params)
    ensures var r := CalculateResults(p);
      && (Classify(r.steamEconomy, r.thermalEfficiency) == High <==> r.steamEconomy >= 3.875)
      && (Classify(r.steamEconomy, r.thermalEfficiency) == Medium <==> 2.625 <= r.steamEconomy < 3.875)
      && (Classify(r.steamEconomy, r.thermalEfficiency) == Low <==> r.steamEconomy < 2.625)
  {
    var r := CalculateResults(p);
    assert r.thermalEfficiency == Min(95.0, 70.0 + (r.steamEconomy - 2.0) * 8.0);
  }

  /**
   * With the lab's three effects, the exact results of no steam temperature
   * up to 269 deg C are rated High.
   */
  lemma NoHighWithThreeEffects(p: Params)
    requires p.numEffects == 3 && p.steamTemp <= 269
    ensures var r := CalculateResults(p);
      Classify(r.steamEconomy, r.thermalEfficiency) != High
  {
    ClassifyResults(p);
  }
}
