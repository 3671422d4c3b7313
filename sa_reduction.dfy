/** The reduction pass driven by the soil-aggregation decorator. */
module SAReduction {
  import opened Wrappers
  import opened SoilLayers
  import opened WaterReserve
  import opened SAReducer
  import opened LayerReduction
  import opened LayerReductionProperties

  // ---------------------------------------------------------------------------
  // Total thickness

  lemma {:induction false} TotalThicknessAppend(a: seq<RealLayer>, b: seq<RealLayer>)
    ensures TotalThickness(a + b) == TotalThickness(a) + TotalThickness(b)
    decreases |b|
  {
    if |b| > 0 {
      assert (a + b)[..|a + b| - 1] == a + b[..|b| - 1];
      TotalThicknessAppend(a, b[..|b| - 1]);
    } else {
      assert a + b == a;
    }
  }

  /** Taking one layer out of a sequence takes its thickness off the total. */
  lemma TotalThicknessRemove(s: seq<RealLayer>, i: nat)
    requires i < |s|
    ensures TotalThickness(s[..i] + s[i + 1..]) == TotalThickness(s) - Thickness(s[i])
  {
    var a, x, c := s[..i], s[i], s[i + 1..];
    var ax := a + [x];
    assert ax + c == s;
    TotalThicknessAppend(ax, c);
    TotalThicknessAppend(a, c);
    assert ax[..|ax| - 1] == a;
    assert TotalThickness(ax) == TotalThickness(a) + Thickness(x);
  }

  lemma TotalThicknessDrop(mode: Removal, out: seq<RealLayer>, previous: RealLayer)
    requires |out| >= 1 && previous == out[|out| - 1]
    ensures TotalThickness(Drop(mode, out, previous)) == TotalThickness(out) - Thickness(previous)
  {
    match mode
    case FirstEqual => TotalThicknessRemove(out, IndexOf(out, previous));
    case Tail =>
  }

  // ---------------------------------------------------------------------------
  // Profiles the soil-aggregation decorator reduces without a fault

  /** A layer both decorator operations can read: the criteria fields and a positive thickness. */
  predicate Ready(layer: RealLayer) {
    HasCriteriaFields(layer) && SLLB in layer && layer[SLLB] > 0.0
  }

  predicate AllReady(layers: seq<RealLayer>) {
    forall i :: 0 <= i < |layers| ==> Ready(layers[i])
  }

  lemma ReadyMerge(sa: SAReducerDecorator, current: RealLayer, previous: RealLayer)
    requires Ready(current) && Ready(previous)
    ensures sa.ShouldAggregateSoils(current, previous).Success?
    ensures sa.MergedLayer(current, previous).Success?
    ensures Ready(sa.MergedLayer(current, previous).value)
    ensures Thickness(sa.MergedLayer(current, previous).value) == Thickness(current) + Thickness(previous)
  {
    sa.MergedLayerValues(current, previous);
  }

  lemma DropReady(mode: Removal, out: seq<RealLayer>, previous: RealLayer)
    requires AllReady(out)
    ensures AllReady(Drop(mode, out, previous))
  {
    match mode
    case FirstEqual =>
      if previous in out {
        var j := IndexOf(out, previous);
        var kept := Drop(mode, out, previous);
        forall i | 0 <= i < |kept|
          ensures Ready(kept[i])
        {
          if i < j { assert kept[i] == out[i]; } else { assert kept[i] == out[i + 1]; }
        }
      }
    case Tail =>
  }

  lemma ReadyStepMerges(sa: SAReducerDecorator, max: int, mode: Removal, st: Pass, current: RealLayer, n: nat)
    requires Consistent(st, n, max) && AllReady(st.out) && Ready(current)
    requires st.previous.Some?
    requires var should := sa.ShouldAggregateSoils(current, st.previous.value);
      should.Success? && (should.value || st.enforce || |st.out| == max)
    ensures Step(sa.AsDecorator(), max, mode, st, current).Success?
    ensures var next := Step(sa.AsDecorator(), max, mode, st, current).value;
      AllReady(next.out) && TotalThickness(next.out) == TotalThickness(st.out) + Thickness(current)
  {
    var previous := st.previous.value;
    ReadyMerge(sa, current, previous);
    var merged := sa.MergedLayer(current, previous).value;
    var kept := Drop(mode, st.out, previous);
    DropReady(mode, st.out, previous);
    TotalThicknessDrop(mode, st.out, previous);
    var next := Step(sa.AsDecorator(), max, mode, st, current);
    assert next == Success(Pass(kept + [merged], Some(merged), st.enforce || |st.out| == max));
    assert (kept + [merged])[..|kept|] == kept;
  }

  lemma ReadyStepAppends(sa: SAReducerDecorator, max: int, mode: Removal, st: Pass, current: RealLayer)
    requires AllReady(st.out) && Ready(current)
    requires st.previous.Some? ==> var should := sa.ShouldAggregateSoils(current, st.previous.value);
      should.Success? && !(should.value || st.enforce || |st.out| == max)
    ensures Step(sa.AsDecorator(), max, mode, st, current).Success?
    ensures var next := Step(sa.AsDecorator(), max, mode, st, current).value;
      AllReady(next.out) && TotalThickness(next.out) == TotalThickness(st.out) + Thickness(current)
  {
    var next := Step(sa.AsDecorator(), max, mode, st, current);
    assert next.value.out == st.out + [current];
    assert (st.out + [current])[..|st.out|] == st.out;
  }

  lemma ReadyStep(sa: SAReducerDecorator, max: int, mode: Removal, st: Pass, current: RealLayer, n: nat)
    requires Consistent(st, n, max) && AllReady(st.out) && Ready(current)
    ensures Step(sa.AsDecorator(), max, mode, st, current).Success?
    ensures var next := Step(sa.AsDecorator(), max, mode, st, current).value;
      AllReady(next.out) && TotalThickness(next.out) == TotalThickness(st.out) + Thickness(current)
  {
    if st.previous.Some? {
      ReadyMerge(sa, current, st.previous.value);
      var should := sa.ShouldAggregateSoils(current, st.previous.value);
      if should.value || st.enforce || |st.out| == max {
        ReadyStepMerges(sa, max, mode, st, current, n);
      } else {
        ReadyStepAppends(sa, max, mode, st, current);
      }
    } else {
      ReadyStepAppends(sa, max, mode, st, current);
    }
  }

  lemma {:induction false} ReadyRun(sa: SAReducerDecorator, max: int, mode: Removal, layers: seq<RealLayer>)
    requires AllReady(layers)
    ensures Run(sa.AsDecorator(), max, mode, layers).Success?
    ensures AllReady(Run(sa.AsDecorator(), max, mode, layers).value.out)
    ensures TotalThickness(Run(sa.AsDecorator(), max, mode, layers).value.out) == TotalThickness(layers)
    decreases |layers|
  {
    if |layers| > 0 {
      var dec := sa.AsDecorator();
      var init := layers[..|layers| - 1];
      ReadyRun(sa, max, mode, init);
      RunConsistent(dec, max, mode, init);
      RunUnfold(dec, max, mode, layers);
      ReadyStep(sa, max, mode, Run(dec, max, mode, init).value, layers[|layers| - 1], |init|);
    }
  }

  /** The first layer carries the criteria fields and a thickness, and every thickness is positive. */
  predicate WellFormedProfile(soils: seq<RealLayer>) {
    && |soils| > 0
    && HasCriteriaFields(soils[0]) && SLLB in soils[0]
    && forall i :: 0 <= i < |soils| && SLLB in soils[i] ==> soils[i][SLLB] > 0.0
  }

  lemma WellFormedNormalizesReady(soils: seq<RealLayer>)
    requires WellFormedProfile(soils)
    ensures AllReady(Normalize(soils))
  {
    NormalizeShape(soils);
  }

  /**
   * A well-formed profile is reduced without a fault, under either removal mode and any
   * maximum, and the reduced profile is exactly as thick as the normalised one.
   */
  lemma ReduceKeepsThickness(sa: SAReducerDecorator, max: int, mode: Removal, soils: seq<RealLayer>)
    requires WellFormedProfile(soils)
    ensures Reduce(sa.AsDecorator(), max, mode, soils).Success?
    ensures TotalThickness(Reduce(sa.AsDecorator(), max, mode, soils).value) == TotalThickness(Normalize(soils))
  {
    WellFormedNormalizesReady(soils);
    ReadyRun(sa, max, mode, Normalize(soils));
  }

  /** When every layer has its own thickness, normalisation keeps the total. */
  lemma {:induction false} NormalizeKeepsThickness(soils: seq<RealLayer>, n: nat)
    requires 0 < |soils| && n <= |soils|
    requires forall i :: 0 <= i < |soils| ==> SLLB in soils[i]
    requires SLLB in soils[0]
    ensures TotalThickness(Normalize(soils)[..n]) == TotalThickness(soils[..n])
    decreases n
  {
    NormalizeShape(soils);
    if n > 0 {
      assert Normalize(soils)[..n][..n - 1] == Normalize(soils)[..n - 1];
      assert soils[..n][..n - 1] == soils[..n - 1];
      NormalizeKeepsThickness(soils, n - 1);
    }
  }
}

module SAReductionDepth {
  import opened Wrappers
  import opened SoilLayers
  import opened WaterReserve
  import opened LayerReducerUtil
  import opened SAReducer
  import opened LayerReduction
  import opened LayerReductionProperties
  import opened SAReduction

  /**
   * A profile given by increasing bottom depths, sized into thicknesses and then reduced,
   * reaches exactly as deep as the original profile.
   */
  lemma ReducedProfileKeepsDepth(sa: SAReducerDecorator, max: int, mode: Removal, depths: seq<RealLayer>)
    requires AllHaveThickness(depths) && |depths| > 0
    requires HasCriteriaFields(depths[0]) && depths[0][SLLB] > 0.0
    requires forall i :: 0 < i < |depths| ==> depths[i - 1][SLLB] < depths[i][SLLB]
    ensures Reduce(sa.AsDecorator(), max, mode, LayerSizes(depths)).Success?
    ensures TotalThickness(Reduce(sa.AsDecorator(), max, mode, LayerSizes(depths)).value) == depths[|depths| - 1][SLLB]
  {
    var sizes := LayerSizes(depths);
    LayerSizesShape(depths, 0);
    IncreasingDepthsGivePositiveThickness(depths);
    forall i | 0 <= i < |sizes|
      ensures SLLB in sizes[i]
    {
      LayerSizesShape(depths, i);
    }
    assert WellFormedProfile(sizes);
    ReduceKeepsThickness(sa, max, mode, sizes);
    NormalizeKeepsThickness(sizes, |sizes|);
    assert Normalize(sizes)[..|sizes|] == Normalize(sizes);
    assert sizes[..|sizes|] == sizes;
    TotalThicknessIsLastDepth(depths);
  }
}
