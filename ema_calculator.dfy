/**
 * The per-symbol exponential moving average kept by the EMA monitor: one
 * smoothing step per completed candle close.
 */
module EmaCalculator {

  /** The smoothing multiplier 2 / (period + 1). */
  function Multiplier(period: int): (m: real)
    requires period != -1
    ensures period >= 1 ==> 0.0 < m <= 1.0
  {
    2.0 / (period as real + 1.0)
  }

  /** One smoothing step: a convex combination of the close and the previous average. */
  function Smooth(previous: real, close: real, multiplier: real): real
  {
    close * multiplier + previous * (1.0 - multiplier)
  }

  /**
   * For a multiplier in (0, 1] the new average lies between the previous
   * average and the close, and moves strictly toward the close.
   */
  lemma SmoothStaysBetween(previous: real, close: real, multiplier: real)
    requires 0.0 < multiplier <= 1.0
    ensures previous <= close ==> previous <= Smooth(previous, close, multiplier) <= close
    ensures close <= previous ==> close <= Smooth(previous, close, multiplier) <= previous
    ensures previous != close ==> Smooth(previous, close, multiplier) != previous
  {
    SmoothOffsets(previous, close, multiplier);
    ProductSigns(multiplier, close - previous);
    ProductSigns(1.0 - multiplier, close - previous);
  }

  /** How far the new average lies from the previous one and from the close. */
  lemma SmoothOffsets(previous: real, close: real, multiplier: real)
    ensures Smooth(previous, close, multiplier) - previous == multiplier * (close - previous)
    ensures close - Smooth(previous, close, multiplier) == (1.0 - multiplier) * (close - previous)
  {
  }

  lemma ProductSigns(a: real, b: real)
    requires a >= 0.0
    ensures b >= 0.0 ==> a * b >= 0.0
    ensures b <= 0.0 ==> a * b <= 0.0
    ensures a > 0.0 && b != 0.0 ==> a * b != 0.0
  {
  }

  /** With period 1 the average simply follows the close. */
  lemma PeriodOneFollowsClose(previous: real, close: real)
    ensures Smooth(previous, close, Multiplier(1)) == close
  {
  }

  class EmaCalculator {
    var currentEmas: map<string, real>
    var emaMultipliers: map<string, real>

    /**
     * `periods` maps each configured symbol to its EMA period; `initialEmas`
     * holds the starting averages that loading the saved file (or the manual
     * configuration) yields for those same symbols.
     */
    constructor(periods: map<string, int>, initialEmas: map<string, real>)
      requires forall s :: s in periods ==> periods[s] != -1
      ensures emaMultipliers.Keys == periods.Keys
      ensures forall s :: s in periods ==> emaMultipliers[s] == Multiplier(periods[s])
      ensures currentEmas == initialEmas
    {
      emaMultipliers := map s | s in periods :: Multiplier(periods[s]);
      currentEmas := initialEmas;
    }

    /** Returns the previous and the new average and stores the new one. */
    method UpdateEma(symbol: string, closePrice: real) returns (previousEma: real, newEma: real)
      requires symbol in currentEmas && symbol in emaMultipliers
      modifies this
      ensures previousEma == old(currentEmas[symbol])
      ensures newEma == Smooth(previousEma, closePrice, old(emaMultipliers[symbol]))
      ensures currentEmas == old(currentEmas)[symbol := newEma]
      ensures emaMultipliers == old(emaMultipliers)
    {
      previousEma := currentEmas[symbol];
      var multiplier := emaMultipliers[symbol];
      currentEmas := currentEmas[symbol := closePrice * multiplier + previousEma * (1.0 - multiplier)];
      newEma := currentEmas[symbol];
    }
  }
}
