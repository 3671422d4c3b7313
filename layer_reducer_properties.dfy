/** What the reduction pass guarantees, for either removal mode unless stated otherwise. */
module LayerReductionProperties {
  import opened Wrappers
  import opened SoilLayers
  import opened LayerReduction

  // ---------------------------------------------------------------------------
  // Normalisation

  /** Every normalised layer has the first layer's keys, its own value where it has one,
      and the first layer is left as it is. */
  lemma NormalizeShape<V>(layers: seq<map<string, V>>)
    requires |layers| > 0
    ensures Normalize(layers)[0] == layers[0]
    ensures forall i :: 0 <= i < |layers| ==> Normalize(layers)[i].Keys == layers[0].Keys
    ensures forall i, k :: 0 <= i < |layers| && k in layers[0] && k in layers[i] ==> Normalize(layers)[i][k] == layers[i][k]
    ensures forall i, k :: 0 <= i < |layers| && k in layers[0] && k !in layers[i] ==> Normalize(layers)[i][k] == layers[0][k]
  {
    assert NormalizeLayer(layers[0], layers[0]) == layers[0];
  }

  /** Normalising twice is normalising once. */
  lemma NormalizeIdempotent<V>(layers: seq<map<string, V>>)
    requires |layers| > 0
    ensures Normalize(Normalize(layers)) == Normalize(layers)
  {
    var n := Normalize(layers);
    NormalizeShape(layers);
    forall i | 0 <= i < |layers|
      ensures NormalizeLayer(n[0], n[i]) == n[i]
    {
    }
  }

  /** A profile whose layers all carry exactly the first layer's keys is left as it is. */
  lemma NormalizeUniformKeys<V>(layers: seq<map<string, V>>)
    requires |layers| > 0
    requires forall i :: 0 <= i < |layers| ==> layers[i].Keys == layers[0].Keys
    ensures Normalize(layers) == layers
  {
    forall i | 0 <= i < |layers|
      ensures NormalizeLayer(layers[0], layers[i]) == layers[i]
    {
    }
  }

  // ---------------------------------------------------------------------------
  // Shape of the output

  /** The pass over a non-empty sequence is one step after the pass over all but its last layer. */
  lemma RunUnfold(dec: Decorator, max: int, mode: Removal, layers: seq<RealLayer>)
    requires |layers| > 0
    requires Run(dec, max, mode, layers[..|layers| - 1]).Success?
    ensures Run(dec, max, mode, layers) == Step(dec, max, mode, Run(dec, max, mode, layers[..|layers| - 1]).value, layers[|layers| - 1])
  {
  }

  /** What holds of the pass state after n layers. */
  predicate Consistent(st: Pass, n: nat, max: int) {
    && |st.out| <= n
    && (n == 0 ==> st == Start)
    && (n > 0 ==> |st.out| >= 1 && st.previous == Some(st.out[|st.out| - 1]))
    && (max >= 1 ==> |st.out| <= max)
    && (st.enforce ==> |st.out| == max)
  }

  lemma DropLength(mode: Removal, out: seq<RealLayer>, previous: RealLayer)
    requires |out| >= 1 && previous == out[|out| - 1]
    ensures |Drop(mode, out, previous)| == |out| - 1
  {
  }

  lemma StepConsistent(dec: Decorator, max: int, mode: Removal, st: Pass, current: RealLayer, n: nat)
    requires Consistent(st, n, max)
    requires Step(dec, max, mode, st, current).Success?
    ensures Consistent(Step(dec, max, mode, st, current).value, n + 1, max)
  {
    if st.previous.Some? {
      DropLength(mode, st.out, st.previous.value);
    }
  }

  /**
   * The output is never longer than the input, nor longer than the maximum when that is
   * at least one; a non-empty input gives a non-empty output whose last layer is the
   * previous one; a forced merge means the output has reached the maximum.
   */
  lemma {:induction false} RunConsistent(dec: Decorator, max: int, mode: Removal, layers: seq<RealLayer>)
    requires Run(dec, max, mode, layers).Success?
    ensures Consistent(Run(dec, max, mode, layers).value, |layers|, max)
    decreases |layers|
  {
    if |layers| > 0 {
      var init := layers[..|layers| - 1];
      RunConsistent(dec, max, mode, init);
      StepConsistent(dec, max, mode, Run(dec, max, mode, init).value, layers[|layers| - 1], |init|);
    }
  }

  /** The reduced profile is non-empty, no longer than the input and no longer than the maximum. */
  lemma ReduceBounds(dec: Decorator, max: int, mode: Removal, soils: seq<RealLayer>)
    requires Reduce(dec, max, mode, soils).Success?
    ensures 1 <= |Reduce(dec, max, mode, soils).value| <= |soils|
    ensures max >= 1 ==> |Reduce(dec, max, mode, soils).value| <= max
  {
    RunConsistent(dec, max, mode, Normalize(soils));
  }

  // ---------------------------------------------------------------------------
  // The forced merge

  /** A successful pass succeeded on every prefix. */
  lemma {:induction false} RunPrefixSucceeds(dec: Decorator, max: int, mode: Removal, layers: seq<RealLayer>, n: nat)
    requires n <= |layers|
    requires Run(dec, max, mode, layers).Success?
    ensures Run(dec, max, mode, layers[..n]).Success?
    decreases |layers| - n
  {
    if n < |layers| {
      var init := layers[..|layers| - 1];
      assert init[..n] == layers[..n];
      RunPrefixSucceeds(dec, max, mode, init, n);
    } else {
      assert layers[..n] == layers;
    }
  }

  /** Once the output has reached the maximum, every later layer is merged: the step
      calls computeSoil on it and the output keeps its length. */
  lemma MergeAtCap(dec: Decorator, max: int, mode: Removal, st: Pass, current: RealLayer, n: nat)
    requires Consistent(st, n, max) && n > 0
    requires |st.out| == max
    requires Step(dec, max, mode, st, current).Success?
    ensures var next := Step(dec, max, mode, st, current).value;
      && dec.computeSoil(current, st.previous.value).Success?
      && next.out == Drop(mode, st.out, st.previous.value) + [dec.computeSoil(current, st.previous.value).value]
      && |next.out| == max
      && next.enforce
  {
    DropLength(mode, st.out, st.previous.value);
  }

  /** The forced merge, once on, stays on, and the output stays at the maximum. */
  lemma {:induction false} CapIsKept(dec: Decorator, max: int, mode: Removal, layers: seq<RealLayer>, n: nat)
    requires 0 < n <= |layers|
    requires Run(dec, max, mode, layers).Success?
    requires Run(dec, max, mode, layers[..n]).Success?
    requires |Run(dec, max, mode, layers[..n]).value.out| == max
    ensures |Run(dec, max, mode, layers).value.out| == max
    ensures n < |layers| ==> Run(dec, max, mode, layers).value.enforce
    decreases |layers| - n
  {
    RunPrefixSucceeds(dec, max, mode, layers, n);
    if n < |layers| {
      var init := layers[..|layers| - 1];
      assert init[..n] == layers[..n];
      RunPrefixSucceeds(dec, max, mode, layers, |layers| - 1);
      CapIsKept(dec, max, mode, init, n);
      RunConsistent(dec, max, mode, init);
      MergeAtCap(dec, max, mode, Run(dec, max, mode, init).value, layers[|layers| - 1], |init|);
    } else {
      assert layers[..n] == layers;
    }
  }

  // ---------------------------------------------------------------------------
  // Decorators that never merge

  ghost predicate NeverAggregates(dec: Decorator) {
    forall a, b :: dec.shouldAggregateSoils(a, b) == Success(false)
  }

  ghost predicate AlwaysComputes(dec: Decorator) {
    forall a, b :: dec.computeSoil(a, b).Success?
  }

  /** When the decorator never asks for a merge, a profile within the maximum passes through. */
  lemma {:induction false} NeverAggregatingKeepsLayers(dec: Decorator, max: int, mode: Removal, layers: seq<RealLayer>)
    requires NeverAggregates(dec)
    requires |layers| <= max
    ensures Run(dec, max, mode, layers).Success?
    ensures Run(dec, max, mode, layers).value.out == layers
    ensures !Run(dec, max, mode, layers).value.enforce
    decreases |layers|
  {
    if |layers| > 0 {
      var init := layers[..|layers| - 1];
      var current := layers[|layers| - 1];
      NeverAggregatingKeepsLayers(dec, max, mode, init);
      RunConsistent(dec, max, mode, init);
      var st := Run(dec, max, mode, init).value;
      RunUnfold(dec, max, mode, layers);
      if st.previous.Some? {
        assert dec.shouldAggregateSoils(current, st.previous.value) == Success(false);
      }
      assert Step(dec, max, mode, st, current) == Success(Pass(init + [current], Some(current), false));
      assert init + [current] == layers;
    }
  }

  /** ... and the reduced profile is the normalised profile. */
  lemma NeverAggregatingReduceNormalizes(dec: Decorator, max: int, mode: Removal, soils: seq<RealLayer>)
    requires NeverAggregates(dec)
    requires 0 < |soils| <= max
    ensures Reduce(dec, max, mode, soils) == Success(Normalize(soils))
  {
    NeverAggregatingKeepsLayers(dec, max, mode, Normalize(soils));
  }

  /** When the decorator never asks for a merge but can always merge, the output has
      exactly as many layers as the input, capped at the maximum. */
  lemma {:induction false} NeverAggregatingCaps(dec: Decorator, max: int, mode: Removal, layers: seq<RealLayer>)
    requires NeverAggregates(dec) && AlwaysComputes(dec)
    requires max >= 1
    ensures Run(dec, max, mode, layers).Success?
    ensures |Run(dec, max, mode, layers).value.out| == if |layers| <= max then |layers| else max
    decreases |layers|
  {
    if |layers| > 0 {
      var init := layers[..|layers| - 1];
      NeverAggregatingCaps(dec, max, mode, init);
      RunConsistent(dec, max, mode, init);
      var st := Run(dec, max, mode, init).value;
      if st.previous.Some? {
        DropLength(mode, st.out, st.previous.value);
      }
    }
  }

  // ---------------------------------------------------------------------------
  // Removal of the last layer: layers already passed are never disturbed

  function Committed(out: seq<RealLayer>): seq<RealLayer> {
    if |out| == 0 then [] else out[..|out| - 1]
  }

  lemma PrefixTransitive(a: seq<RealLayer>, b: seq<RealLayer>, c: seq<RealLayer>)
    requires a <= b && b <= c
    ensures a <= c
  {
    assert c[..|b|] == b;
    assert c[..|a|] == b[..|a|];
  }

  lemma StepCommitted(dec: Decorator, max: int, st: Pass, current: RealLayer, n: nat)
    requires Consistent(st, n, max)
    requires Step(dec, max, Tail, st, current).Success?
    ensures Committed(st.out) <= Committed(Step(dec, max, Tail, st, current).value.out)
  {
    var next := Step(dec, max, Tail, st, current).value;
    if st.previous.Some? && next.out != st.out + [current] {
      assert next.out[..|next.out| - 1] == st.out[..|st.out| - 1];
    } else {
      assert next.out[..|next.out| - 1] == st.out;
    }
  }

  /** With the last output layer replaced on a merge, every layer the pass has moved past is
      kept in place: the output after n layers, less its last, is a prefix of the final output. */
  lemma {:induction false} TailRemovalKeepsEmittedLayers(dec: Decorator, max: int, layers: seq<RealLayer>, n: nat)
    requires n <= |layers|
    requires Run(dec, max, Tail, layers).Success?
    ensures Run(dec, max, Tail, layers[..n]).Success?
    ensures Committed(Run(dec, max, Tail, layers[..n]).value.out) <= Committed(Run(dec, max, Tail, layers).value.out)
    ensures Committed(Run(dec, max, Tail, layers[..n]).value.out) <= Run(dec, max, Tail, layers).value.out
    decreases |layers| - n
  {
    RunPrefixSucceeds(dec, max, Tail, layers, n);
    if n < |layers| {
      var init := layers[..|layers| - 1];
      assert init[..n] == layers[..n];
      RunPrefixSucceeds(dec, max, Tail, layers, |layers| - 1);
      TailRemovalKeepsEmittedLayers(dec, max, init, n);
      RunConsistent(dec, max, Tail, init);
      var st := Run(dec, max, Tail, init).value;
      RunUnfold(dec, max, Tail, layers);
      StepCommitted(dec, max, st, layers[|layers| - 1], |init|);
      var early := Committed(Run(dec, max, Tail, layers[..n]).value.out);
      var final := Run(dec, max, Tail, layers).value.out;
      PrefixTransitive(early, Committed(st.out), Committed(final));
      PrefixTransitive(early, Committed(final), final);
    } else {
      assert layers[..n] == layers;
    }
  }
}
