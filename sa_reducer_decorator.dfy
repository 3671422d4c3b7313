/**
 * The STICS and AquaCrop decorator: layers are merged according to the water reserve
 * and bulk density criterion, and a merged layer is computed parameter by parameter:
 * thicknesses add up, initial nitrate and ammonium are averaged weighted by thickness,
 * and every other parameter is the plain mean, a missing side taking its table default.
 */
module SAReducer {
  import opened Wrappers
  import opened SoilLayers
  import opened LayerReducerUtil
  import opened WaterReserve

  /** The parameters a merged layer carries, in the order they are computed. */
  const AllParams: seq<string> := [SLLL, SLDUL, SLBDM, SKSAT, SLOC, ICH2O, SLLB, ICNO3, ICNH4]
  const ParamSet: set<string> := {SLLL, SLDUL, SLBDM, SKSAT, SLOC, ICH2O, SLLB, ICNO3, ICNH4}

  /** The value of a parameter in a layer, or its table default when the layer has none. */
  function ValueOrDefault(layer: RealLayer, key: string): real {
    if key in layer then layer[key] else DefaultNumber(key)
  }

  /** Both layers hold the parameter, so it gets the thickness-weighted mean. */
  predicate IsWeighted(key: string, current: RealLayer, previous: RealLayer) {
    (key == ICNH4 && ICNH4 in current && ICNH4 in previous) ||
    (key == ICNO3 && ICNO3 in current && ICNO3 in previous)
  }

  class SAReducerDecorator {
    const criteria: WaterReserveCriteria

    constructor ()
      ensures fresh(criteria)
      ensures criteria.firstThreshold == FirstThresholdDefault
      ensures criteria.secondThreshold == SecondThresholdDefault
    {
      criteria := new WaterReserveCriteria();
    }

    function GetCriteria(): WaterReserveCriteria {
      criteria
    }

    /**
     * The mean of a parameter over the two layers weighted by their thicknesses
     * (the pre-merge sllb values).
     */
    function ComputeInitialConditions(key: string, current: RealLayer, previous: RealLayer): (r: Result<real, Fault>)
      ensures r.Success? <==>
        key in current && SLLB in current && key in previous && SLLB in previous &&
        current[SLLB] + previous[SLLB] != 0.0
      ensures r.Failure? ==> r.error == if key in current && SLLB in current && key in previous && SLLB in previous
                                       then ZeroThickness else MissingValue
      ensures r.Success? ==>
        r.value * (current[SLLB] + previous[SLLB]) ==
        current[key] * current[SLLB] + previous[key] * previous[SLLB]
    {
      var valueCurrent :- Field(current, key);
      var thickCurrent :- Field(current, SLLB);
      var valuePrevious :- Field(previous, key);
      var thickPrevious :- Field(previous, SLLB);
      if thickCurrent + thickPrevious == 0.0 then Failure(ZeroThickness)
      else Success((valueCurrent * thickCurrent + valuePrevious * thickPrevious) / (thickCurrent + thickPrevious))
    }

    /** The merged value of one parameter. */
    function MergedValue(key: string, current: RealLayer, previous: RealLayer): Result<real, Fault> {
      if key == SLLB then
        var thickCurrent :- Field(current, SLLB);
        var thickPrevious :- Field(previous, SLLB);
        Success(thickCurrent + thickPrevious)
      else if IsWeighted(key, current, previous) then
        ComputeInitialConditions(key, current, previous)
      else
        Success((ValueOrDefault(current, key) + ValueOrDefault(previous, key)) / 2.0)
    }

    /**
     * The layer that replaces two merged layers: every parameter of AllParams with its
     * merged value. It fails when a layer has no thickness, or when a weighted mean
     * would divide by a zero total thickness.
     */
    function MergedLayer(current: RealLayer, previous: RealLayer): (r: Result<RealLayer, Fault>)
      ensures r.Success? ==> r.value.Keys == {SLLL, SLDUL, SLBDM, SKSAT, SLOC, ICH2O, SLLB, ICNO3, ICNH4}
    {
      if SLLB !in current || SLLB !in previous then Failure(MissingValue)
      else if (IsWeighted(ICNO3, current, previous) || IsWeighted(ICNH4, current, previous)) &&
              current[SLLB] + previous[SLLB] == 0.0 then Failure(ZeroThickness)
      else Success(map k | k in ParamSet :: MergedValue(k, current, previous).value)
    }

    /** computeSoil: fills a fresh layer with the merged value of every parameter, in order. */
    method ComputeSoil(current: RealLayer, previous: RealLayer) returns (r: Result<RealLayer, Fault>)
      ensures r == MergedLayer(current, previous)
    {
      var aggregated: RealLayer := map[];
      var i := 0;
      while i < |AllParams|
        invariant 0 <= i <= |AllParams|
        invariant forall k :: k in aggregated <==> k in AllParams[..i]
        invariant forall k :: k in aggregated ==> MergedValue(k, current, previous) == Success(aggregated[k])
        invariant i > 6 ==> SLLB in current && SLLB in previous
      {
        var key := AllParams[i];
        var newValue: real;
        if key == SLLB {
          if SLLB !in current || SLLB !in previous {
            return Failure(MissingValue);
          }
          newValue := current[SLLB] + previous[SLLB];
        } else if IsWeighted(key, current, previous) {
          var weighted := ComputeInitialConditions(key, current, previous);
          if weighted.Failure? {
            return Failure(weighted.error);
          }
          newValue := weighted.value;
        } else {
          newValue := (ValueOrDefault(current, key) + ValueOrDefault(previous, key)) / 2.0;
        }
        assert MergedValue(key, current, previous) == Success(newValue);
        aggregated := aggregated[key := newValue];
        assert AllParams[..i + 1] == AllParams[..i] + [key];
        i := i + 1;
      }
      assert AllParams[..i] == AllParams;
      MergedLayerFromValues(current, previous, aggregated);
      r := Success(aggregated);
    }

    /** A layer holding the merged value of every parameter is the merged layer. */
    lemma MergedLayerFromValues(current: RealLayer, previous: RealLayer, aggregated: RealLayer)
      requires forall k :: k in aggregated <==> k in AllParams
      requires forall k :: k in aggregated ==> MergedValue(k, current, previous) == Success(aggregated[k])
      ensures MergedLayer(current, previous) == Success(aggregated)
    {
      ParamSetIsAllParams();
      assert SLLB in aggregated && ICNO3 in aggregated && ICNH4 in aggregated;
      var merged := map k | k in ParamSet :: MergedValue(k, current, previous).value;
      assert merged == aggregated;
    }

    lemma ParamSetIsAllParams()
      ensures forall k :: k in ParamSet <==> k in AllParams
    {
    }

    /** shouldAggregateSoils: exactly the water reserve criterion's decision. */
    function ShouldAggregateSoils(current: RealLayer, previous: RealLayer): (r: Result<bool, Fault>)
      ensures r == criteria.ShouldAggregateSoils(current, previous)
    {
      criteria.ShouldAggregateSoils(current, previous)
    }

    /** This decorator as the strategy a LayerReducer is built with. */
    function AsDecorator(): (d: Decorator)
      ensures forall c, p :: d.shouldAggregateSoils(c, p) == ShouldAggregateSoils(c, p)
      ensures forall c, p :: d.computeSoil(c, p) == MergedLayer(c, p)
    {
      Decorator((c, p) => ShouldAggregateSoils(c, p), (c, p) => MergedLayer(c, p))
    }

    // -------------------------------------------------------------------------
    // Properties of the merge

    /**
     * The values of the merged layer: the summed thickness, the thickness-weighted
     * nitrate and ammonium when both layers have them, and the mean of the two values
     * (or their defaults) for every other parameter.
     */
    lemma MergedLayerValues(current: RealLayer, previous: RealLayer)
      requires SLLB in current && SLLB in previous
      requires IsWeighted(ICNO3, current, previous) || IsWeighted(ICNH4, current, previous) ==>
        current[SLLB] + previous[SLLB] != 0.0
      ensures MergedLayer(current, previous).Success?
      ensures MergedLayer(current, previous).value[SLLB] == current[SLLB] + previous[SLLB]
      ensures forall k :: k in ParamSet && IsWeighted(k, current, previous) ==>
        MergedLayer(current, previous).value[k] ==
          (current[k] * current[SLLB] + previous[k] * previous[SLLB]) / (current[SLLB] + previous[SLLB])
      ensures forall k :: k in ParamSet && k != SLLB && !IsWeighted(k, current, previous) ==>
        MergedLayer(current, previous).value[k] == (ValueOrDefault(current, k) + ValueOrDefault(previous, k)) / 2.0
    {
      var merged := MergedLayer(current, previous).value;
      forall k | k in ParamSet && IsWeighted(k, current, previous)
        ensures merged[k] ==
          (current[k] * current[SLLB] + previous[k] * previous[SLLB]) / (current[SLLB] + previous[SLLB])
      {
        assert merged[k] == ComputeInitialConditions(k, current, previous).value;
      }
    }

    /** With positive thicknesses the weighted mean lies between the two values. */
    lemma WeightedMeanBetween(key: string, current: RealLayer, previous: RealLayer)
      requires key in current && key in previous && SLLB in current && SLLB in previous
      requires current[SLLB] > 0.0 && previous[SLLB] > 0.0
      ensures ComputeInitialConditions(key, current, previous).Success?
      ensures var m := ComputeInitialConditions(key, current, previous).value;
        (current[key] <= m <= previous[key]) || (previous[key] <= m <= current[key])
    {
      var vc, tc, vp, tp := current[key], current[SLLB], previous[key], previous[SLLB];
      var m := ComputeInitialConditions(key, current, previous).value;
      assert m * (tc + tp) == vc * tc + vp * tp;
      if vc <= vp {
        assert vc * (tc + tp) <= vc * tc + vp * tp by {
          assert vc * tp <= vp * tp;
        }
        assert vc * tc + vp * tp <= vp * (tc + tp) by {
          assert vc * tc <= vp * tc;
        }
        MulLeqCancel(vc, m, tc + tp);
        MulLeqCancel(m, vp, tc + tp);
      } else {
        assert vp * (tc + tp) <= vc * tc + vp * tp by {
          assert vp * tc <= vc * tc;
        }
        assert vc * tc + vp * tp <= vc * (tc + tp) by {
          assert vp * tp <= vc * tp;
        }
        MulLeqCancel(vp, m, tc + tp);
        MulLeqCancel(m, vc, tc + tp);
      }
    }

    /** Merging is symmetric: the same layer comes out whichever of the two is the current one. */
    lemma MergedLayerSymmetric(a: RealLayer, b: RealLayer)
      ensures MergedLayer(a, b) == MergedLayer(b, a)
    {
      var conditionAB := SLLB in a && SLLB in b;
      var conditionBA := SLLB in b && SLLB in a;
      assert conditionAB == conditionBA;
      assert IsWeighted(ICNO3, a, b) == IsWeighted(ICNO3, b, a);
      assert IsWeighted(ICNH4, a, b) == IsWeighted(ICNH4, b, a);
      if conditionAB && !((IsWeighted(ICNO3, a, b) || IsWeighted(ICNH4, a, b)) && a[SLLB] + b[SLLB] == 0.0) {
        var ab := map k | k in ParamSet :: MergedValue(k, a, b).value;
        var ba := map k | k in ParamSet :: MergedValue(k, b, a).value;
        forall k | k in ParamSet
          ensures ab[k] == ba[k]
        {
          MergedValueSymmetric(k, a, b);
        }
        assert ab == ba;
      }
    }

    lemma MergedValueSymmetric(k: string, a: RealLayer, b: RealLayer)
      ensures MergedValue(k, a, b) == MergedValue(k, b, a)
    {
      if IsWeighted(k, a, b) && SLLB in a && SLLB in b && a[SLLB] + b[SLLB] != 0.0 {
        var x := ComputeInitialConditions(k, a, b).value;
        var y := ComputeInitialConditions(k, b, a).value;
        assert x == (a[k] * a[SLLB] + b[k] * b[SLLB]) / (a[SLLB] + b[SLLB]);
        assert y == (b[k] * b[SLLB] + a[k] * a[SLLB]) / (b[SLLB] + a[SLLB]);
      }
    }

    /** The worked examples: thicknesses 10 + 10, a weighted nitrate of 2.5, a default sloc. */
    lemma MergeExamples()
      ensures MergedLayer(map[SLLB := 10.0], map[SLLB := 10.0]).value[SLLB] == 20.0
      ensures MergedLayer(map[SLLB := 10.0, ICNO3 := 4.0], map[SLLB := 30.0, ICNO3 := 2.0]).value[ICNO3] == 2.5
      ensures MergedLayer(map[SLLB := 10.0], map[SLLB := 30.0, SLOC := 0.3]).value[SLOC] == 0.2
    {
      var a, b := map[SLLB := 10.0], map[SLLB := 10.0];
      MergedLayerValues(a, b);
      var c, d := map[SLLB := 10.0, ICNO3 := 4.0], map[SLLB := 30.0, ICNO3 := 2.0];
      MergedLayerValues(c, d);
      assert IsWeighted(ICNO3, c, d);
      var e, f := map[SLLB := 10.0], map[SLLB := 30.0, SLOC := 0.3];
      MergedLayerValues(e, f);
      assert ValueOrDefault(e, SLOC) == 0.1;
    }
  }

  lemma MulLeqCancel(x: real, y: real, t: real)
    requires t > 0.0 && x * t <= y * t
    ensures x <= y
  {
  }
}
