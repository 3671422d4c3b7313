/**
 * The "water reserve and bulk density" criterion: two adjacent soil layers may be merged
 * when their water reserves differ by at most 10 mm/m and their bulk densities by at most
 * 0.08 g/cm3, both differences rounded to two decimals.
 */
module WaterReserve {
  import opened Wrappers
  import opened SoilLayers

  /** Threshold on the water reserve difference, in mm/m. */
  const FirstThresholdDefault: real := 10.0
  /** Threshold on the bulk density difference, in g/cm3. */
  const SecondThresholdDefault: real := 0.08

  function Abs(x: real): real { if x < 0.0 then -x else x }

  /** A layer holds the three parameters the criterion reads. */
  predicate HasCriteriaFields(layer: RealLayer) {
    SLDUL in layer && SLLL in layer && SLBDM in layer
  }

  /** The water reserve of a layer (drained upper limit minus lower limit) in mm/m. */
  function WaterReserveOf(layer: RealLayer): real
    requires SLDUL in layer && SLLL in layer
  {
    (layer[SLDUL] - layer[SLLL]) * 1000.0
  }

  class WaterReserveCriteria {
    /** Threshold based on the water reserve, in mm/m. */
    var firstThreshold: real
    /** Threshold based on the bulk density, in g/cm3. */
    var secondThreshold: real

    constructor ()
      ensures firstThreshold == FirstThresholdDefault
      ensures secondThreshold == SecondThresholdDefault
    {
      firstThreshold := FirstThresholdDefault;
      secondThreshold := SecondThresholdDefault;
    }

    function GetFirstThreshold(): real
      reads this
    {
      firstThreshold
    }

    method SetFirstThreshold(threshold: real)
      modifies this
      ensures firstThreshold == threshold
      ensures secondThreshold == old(secondThreshold)
    {
      firstThreshold := threshold;
    }

    function GetSecondThreshold(): real
      reads this
    {
      secondThreshold
    }

    method SetSecondThreshold(threshold: real)
      modifies this
      ensures secondThreshold == threshold
      ensures firstThreshold == old(firstThreshold)
    {
      secondThreshold := threshold;
    }

    /** Rounding half up to two decimals: Math.round(r * 100) / 100. */
    function Round(r: real): (rounded: real)
      ensures r - 0.005 < rounded <= r + 0.005
    {
      (r * 100.0 + 0.5).Floor as real / 100.0
    }

    /** A value already rounded to two decimals is its own rounding. */
    lemma RoundIdempotent(r: real)
      ensures Round(Round(r)) == Round(r)
    {
      var k := (r * 100.0 + 0.5).Floor;
      assert Round(r) * 100.0 == k as real;
      assert (k as real + 0.5).Floor == k;
    }

    /**
     * Whether the current layer may be merged into the previous one. The decision
     * compares against the default thresholds; the two threshold fields are not read.
     */
    function ShouldAggregateSoils(current: RealLayer, previous: RealLayer): (r: Result<bool, Fault>)
      ensures r.Success? <==> HasCriteriaFields(current) && HasCriteriaFields(previous)
      ensures r.Success? ==>
        (r.value <==>
           Round(Abs(WaterReserveOf(current) - WaterReserveOf(previous))) <= FirstThresholdDefault &&
           Round(Abs(current[SLBDM] - previous[SLBDM])) <= SecondThresholdDefault)
    {
      var dulCurrent :- Field(current, SLDUL);
      var lllCurrent :- Field(current, SLLL);
      var dulPrevious :- Field(previous, SLDUL);
      var lllPrevious :- Field(previous, SLLL);
      var ruCurrent := (dulCurrent - lllCurrent) * 1000.0;
      var ruPrevious := (dulPrevious - lllPrevious) * 1000.0;
      var firstRule := Round(Abs(ruCurrent - ruPrevious)) <= FirstThresholdDefault;
      var bdmCurrent :- Field(current, SLBDM);
      var bdmPrevious :- Field(previous, SLBDM);
      var resultSecRule := Round(Abs(bdmCurrent - bdmPrevious));
      RoundIdempotent(Abs(bdmCurrent - bdmPrevious));
      var secRule := Round(resultSecRule) <= SecondThresholdDefault;
      Success(firstRule && secRule)
    }

    /** The decision does not depend on the order of the two layers. */
    lemma ShouldAggregateSymmetric(a: RealLayer, b: RealLayer)
      ensures ShouldAggregateSoils(a, b) == ShouldAggregateSoils(b, a)
    {
      if HasCriteriaFields(a) && HasCriteriaFields(b) {
        assert Abs(WaterReserveOf(a) - WaterReserveOf(b)) == Abs(WaterReserveOf(b) - WaterReserveOf(a));
        assert Abs(a[SLBDM] - b[SLBDM]) == Abs(b[SLBDM] - a[SLBDM]);
      }
    }

    /** A layer is always similar enough to an identical layer. */
    lemma ShouldAggregateReflexive(a: RealLayer)
      requires HasCriteriaFields(a)
      ensures ShouldAggregateSoils(a, a) == Success(true)
    {
      assert Round(0.0) == 0.0;
    }
  }

  /** The threshold fields, whatever their values, never change the decision. */
  lemma ThresholdsAreNotRead(c1: WaterReserveCriteria, c2: WaterReserveCriteria, current: RealLayer, previous: RealLayer)
    ensures c1.ShouldAggregateSoils(current, previous) == c2.ShouldAggregateSoils(current, previous)
  {
  }
}
