/**
 * The soil layer reducer: one left-to-right pass over the normalised layers that merges
 * a layer into the previous one when the decorator says so, and unconditionally once
 * the output has reached the maximum number of layers.
 */
module LayerReduction {
  import opened Wrappers
  import opened SoilLayers

  /** The maximum number of layers a reducer starts with. */
  const DefaultMaxSoilLayers: int := 5

  // ---------------------------------------------------------------------------
  // Normalisation

  /** A layer completed from the reference layer: exactly the reference's keys, its own value first. */
  function NormalizeLayer<V>(reference: map<string, V>, layer: map<string, V>): map<string, V> {
    map k | k in reference :: if k in layer then layer[k] else reference[k]
  }

  /** Every layer completed from the first layer of the profile. */
  function Normalize<V>(layers: seq<map<string, V>>): (r: seq<map<string, V>>)
    requires |layers| > 0
    ensures |r| == |layers|
  {
    seq(|layers|, i requires 0 <= i < |layers| => NormalizeLayer(layers[0], layers[i]))
  }

  // ---------------------------------------------------------------------------
  // ArrayList.remove(Object)

  /** The index of the first element of s equal to x. */
  function IndexOf<T(==)>(s: seq<T>, x: T): (i: nat)
    requires x in s
    ensures i < |s| && s[i] == x
    ensures forall j :: 0 <= j < i ==> s[j] != x
  {
    if s[0] == x then 0 else 1 + IndexOf(s[1..], x)
  }

  /** s without its first element equal to x; s itself when there is none. */
  function RemoveFirst<T(==)>(s: seq<T>, x: T): (r: seq<T>)
    ensures x !in s ==> r == s
    ensures x in s ==> r == s[..IndexOf(s, x)] + s[IndexOf(s, x) + 1..]
    ensures x in s ==> |r| == |s| - 1
  {
    if x in s then s[..IndexOf(s, x)] + s[IndexOf(s, x) + 1..] else s
  }

  // ---------------------------------------------------------------------------
  // The reduction pass

  /**
   * Which output layer a merge takes out before appending the merged layer:
   * FirstEqual is the first output layer equal in value to the previous one, as
   * ArrayList.remove(Object) finds it; Tail is the previous layer itself, always
   * the last of the output, and is what the reducer below takes out.
   */
  datatype Removal = FirstEqual | Tail

  /** The state of the pass: the output so far, the previous layer and the forced-merge flag. */
  datatype Pass = Pass(out: seq<RealLayer>, previous: Option<RealLayer>, enforce: bool)

  const Start := Pass([], None, false)

  function Drop(mode: Removal, out: seq<RealLayer>, previous: RealLayer): seq<RealLayer> {
    match mode
    case FirstEqual => RemoveFirst(out, previous)
    case Tail => if |out| == 0 then out else out[..|out| - 1]
  }

  /** One iteration of the pass over the current layer. */
  function Step(dec: Decorator, max: int, mode: Removal, st: Pass, current: RealLayer): Result<Pass, Fault> {
    match st.previous
    case None => Success(Pass(st.out + [current], Some(current), st.enforce))
    case Some(previous) =>
      var enforce := st.enforce || |st.out| == max;
      var should :- dec.shouldAggregateSoils(current, previous);
      if should || enforce then
        var merged :- dec.computeSoil(current, previous);
        Success(Pass(Drop(mode, st.out, previous) + [merged], Some(merged), enforce))
      else
        Success(Pass(st.out + [current], Some(current), enforce))
  }

  /** The pass over a sequence of (already normalised) layers. */
  function Run(dec: Decorator, max: int, mode: Removal, layers: seq<RealLayer>): Result<Pass, Fault>
    decreases |layers|
  {
    if |layers| == 0 then Success(Start)
    else
      var st :- Run(dec, max, mode, layers[..|layers| - 1]);
      Step(dec, max, mode, st, layers[|layers| - 1])
  }

  /** The reduced profile: normalisation, then the pass; an empty profile has no first layer. */
  function Reduce(dec: Decorator, max: int, mode: Removal, soils: seq<RealLayer>): Result<seq<RealLayer>, Fault> {
    if |soils| == 0 then Failure(EmptyProfile)
    else
      var st :- Run(dec, max, mode, Normalize(soils));
      Success(st.out)
  }

  /** A fault stops the pass: it is the fault of every longer pass. */
  lemma {:induction false} RunFailurePersists(dec: Decorator, max: int, mode: Removal, layers: seq<RealLayer>, n: nat)
    requires n <= |layers|
    requires Run(dec, max, mode, layers[..n]).Failure?
    ensures Run(dec, max, mode, layers) == Run(dec, max, mode, layers[..n])
    decreases |layers| - n
  {
    if n < |layers| {
      var init := layers[..|layers| - 1];
      assert init[..n] == layers[..n];
      RunFailurePersists(dec, max, mode, init, n);
    } else {
      assert layers[..n] == layers;
    }
  }

  class LayerReducer {
    const decorator: Decorator
    var maxSoilLayers: int

    constructor (decorator: Decorator)
      ensures this.decorator == decorator
      ensures maxSoilLayers == DefaultMaxSoilLayers
    {
      this.decorator := decorator;
      maxSoilLayers := DefaultMaxSoilLayers;
    }

    function GetMaxSoilLayers(): int
      reads this
    {
      maxSoilLayers
    }

    /** Sets the maximum number of layers left at the end of a reduction. */
    method SetMaxSoilLayers(maxSoilLayers: int)
      modifies this
      ensures this.maxSoilLayers == maxSoilLayers
    {
      this.maxSoilLayers := maxSoilLayers;
    }

    /** normalizeSoilLayers: every layer completed from a copy of the first layer. */
    method NormalizeSoilLayers(soils: seq<RealLayer>) returns (normalized: seq<RealLayer>)
      requires |soils| > 0
      ensures normalized == Normalize(soils)
    {
      var reference := soils[0];
      normalized := [];
      var i := 0;
      while i < |soils|
        invariant 0 <= i <= |soils|
        invariant normalized == Normalize(soils)[..i]
      {
        var current := soils[i];
        var full := reference;
        var keys := reference.Keys;
        while keys != {}
          invariant keys <= reference.Keys
          invariant full.Keys == reference.Keys
          invariant forall k :: k in reference ==>
            full[k] == if k !in keys && k in current then current[k] else reference[k]
          decreases keys
        {
          var key :| key in keys;
          if key in current {
            full := full[key := current[key]];
          }
          keys := keys - {key};
        }
        assert full == NormalizeLayer(reference, current);
        normalized := normalized + [full];
        i := i + 1;
      }
    }

    /** process: the reduction pass, taking out the last output layer on a merge. */
    method Process(soils: seq<RealLayer>) returns (r: Result<seq<RealLayer>, Fault>)
      ensures r == Reduce(decorator, maxSoilLayers, Tail, soils)
    {
      if |soils| == 0 {
        return Failure(EmptyProfile);
      }
      var normalized := NormalizeSoilLayers(soils);
      var aggregated: seq<RealLayer> := [];
      var previous: Option<RealLayer> := None;
      var enforce := false;
      var i := 0;
      while i < |normalized|
        invariant 0 <= i <= |normalized|
        invariant Run(decorator, maxSoilLayers, Tail, normalized[..i]) == Success(Pass(aggregated, previous, enforce))
      {
        var current := normalized[i];
        assert normalized[..i + 1][..i] == normalized[..i];
        if previous.Some? {
          if |aggregated| == GetMaxSoilLayers() {
            enforce := true;
          }
          var should := decorator.shouldAggregateSoils(current, previous.value);
          if should.Failure? {
            RunFailurePersists(decorator, maxSoilLayers, Tail, normalized, i + 1);
            return Failure(should.error);
          }
          if should.value || enforce {
            var merged := decorator.computeSoil(current, previous.value);
            if merged.Failure? {
              RunFailurePersists(decorator, maxSoilLayers, Tail, normalized, i + 1);
              return Failure(merged.error);
            }
            if |aggregated| > 0 {
              aggregated := aggregated[..|aggregated| - 1];
            }
            previous := Some(merged.value);
            aggregated := aggregated + [merged.value];
          } else {
            previous := Some(current);
            aggregated := aggregated + [current];
          }
        } else {
          previous := Some(current);
          aggregated := aggregated + [current];
        }
        i := i + 1;
      }
      assert normalized[..i] == normalized;
      r := Success(aggregated);
    }
  }
}
