/**
 * The laboratory object: whether a run is in progress and the operator's
 * current settings. Everything else the object holds (voice settings,
 * animation handles) drives the page only and is not modelled.
 */
module Lab {
  import opened Evaporator

  /** The five sliders; the effect count has none and stays at three. */
  datatype Control = SteamTemp | FeedRate | FeedConcentration | TargetProductConc | CoolingWaterFlow

  /** The settings after one slider has been moved to `v`: that field changes, no other. */
  function Adjust(p: Params, c: Control, v: int): (q: Params)
    ensures q.numEffects == p.numEffects
    ensures q.steamTemp == (if c == SteamTemp then v else p.steamTemp)
    ensures q.feedRate == (if c == FeedRate then v else p.feedRate)
    ensures q.concentration == (if c == FeedConcentration then v else p.concentration)
    ensures q.targetProductConc == (if c == TargetProductConc then v else p.targetProductConc)
    ensures q.coolingWaterFlow == (if c == CoolingWaterFlow then v else p.coolingWaterFlow)
  {
    match c
    case SteamTemp => p.(steamTemp := v)
    case FeedRate => p.(feedRate := v)
    case FeedConcentration => p.(concentration := v)
    case TargetProductConc => p.(targetProductConc := v)
    case CoolingWaterFlow => p.(coolingWaterFlow := v)
  }

  class MultiEffectEvaporatorLab {
    var isRunning: bool
    var parameters: Params

    /** No control changes the effect count, so it stays at its default of three. */
    predicate Valid()
      reads this
    {
      parameters.numEffects == 3
    }

    constructor ()
      ensures Valid()
      ensures !isRunning && parameters == Defaults
    {
      isRunning := false;
      parameters := Defaults;
    }

    /** The results shown for the current settings; with three effects the economy is the base one. */
    function Results(): (r: Results)
      reads this
      ensures Valid() ==> r.steamEconomy == BaseSteamEconomy(parameters.steamTemp)
      ensures 0.65 <= r.waterRemovalRate <= 0.90
      ensures r.totalEvaporation + r.productFlow == parameters.feedRate as real
    {
      CalculateResults(parameters)
    }

    /**
     * The rating announced after a run, taken from the current results as
     * displayed. With the lab's three effects it is High exactly from 262 deg C
     * of steam and Low exactly below 106 deg C.
     */
    function Rating(): (b: Performance)
      reads this
      ensures var e := SteamEconomy(parameters.steamTemp, parameters.numEffects);
        && (b == High <==> e >= 3.8125)
        && (b == Low <==> e < 2.5625)
      ensures Valid() ==> (b == High <==> parameters.steamTemp >= 262)
      ensures Valid() ==> (b == Low <==> parameters.steamTemp < 106)
    {
      AnnouncedResults(parameters);
      AnnouncedBandsThreeEffects(parameters);
      AnnouncedRating(Results())
    }

    /** A slider handler: store the new value; a run in progress carries on. */
    method Slide(c: Control, v: int)
      requires Valid()
      modifies this
      ensures Valid()
      ensures parameters == Adjust(old(parameters), c, v)
      ensures isRunning == old(isRunning)
    {
      parameters := Adjust(parameters, c, v);
    }

    /**
     * Start a run. While a run is in progress this does nothing; otherwise
     * the run starts (`started`), and with it the animations and the timer
     * that later completes it.
     */
    method StartExperiment() returns (started: bool)
      requires Valid()
      modifies this
      ensures Valid()
      ensures started <==> !old(isRunning)
      ensures isRunning
      ensures parameters == old(parameters)
    {
      if isRunning {
        return false;
      }
      isRunning := true;
      started := true;
    }

    /** The end of a run: the run flag clears and the settings are kept. */
    method CompleteExperiment()
      requires Valid()
      modifies this
      ensures Valid()
      ensures !isRunning
      ensures parameters == old(parameters)
    {
      isRunning := false;
    }

    /** Stop any run and restore every setting to its default. */
    method ResetExperiment()
      modifies this
      ensures Valid()
      ensures !isRunning
      ensures parameters == Defaults
    {
      isRunning := false;
      parameters := Defaults;
    }
  }
}
