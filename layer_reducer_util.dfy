/**
 * Helpers of the soil layer reduction: the table of default parameter values, the
 * conversion of cumulative depths into layer thicknesses, and the positional merge of
 * soil layers with initial-condition layers.
 */
module LayerReducerUtil {
  import opened Wrappers
  import opened SoilLayers
  import opened Digits

  // ---------------------------------------------------------------------------
  // Default values

  /** The value used for a key absent from the table below. */
  const UnknownDefaultValue := "0.0"

  /** The default (text) value of a soil or initial-condition parameter. */
  function DefaultValue(key: string): string {
    if key == "slcly" then "12.6"
    else if key == "salb" then "0.25"
    else if key == "slphw" then "6.2"
    else if key == "sksat" then "0.0"
    else if key == "caco3" then "0.0"
    else if key == "sloc" then "0.1"
    else if key == "slll" then "0.0"
    else if key == "icnh4" then "0.0"
    else if key == "icno3" then "0.0"
    else if key == "ich2o" then "0.0"
    else UnknownDefaultValue
  }

  function Pow10(n: nat): (r: nat)
    ensures r >= 1
  {
    if n == 0 then 1 else 10 * Pow10(n - 1)
  }

  /** The index of the first '.' of s, or |s| when there is none. */
  function DotIndex(s: string): (r: nat)
    ensures r <= |s|
    ensures r < |s| ==> s[r] == '.'
    ensures forall i :: 0 <= i < r ==> s[i] != '.'
    decreases |s|
  {
    if |s| == 0 then 0
    else if s[0] == '.' then 0
    else 1 + DotIndex(s[1..])
  }

  /**
   * The number a plain decimal text ("12", "12.6") denotes: one or more digits,
   * optionally followed by a point and one or more digits. Any other text has no value.
   * This is the part of Float.parseFloat the default table relies on, read exactly.
   */
  function DecimalValue(s: string): (r: Option<real>)
    ensures r.Some? ==> r.value >= 0.0
  {
    var d := DotIndex(s);
    var whole, fraction := s[..d], if d < |s| then s[d + 1..] else "";
    if whole == [] || !AllDigits(whole) then None
    else if d == |s| then Some(DigitsValue(whole) as real)
    else if fraction == [] || !AllDigits(fraction) then None
    else Some(DigitsValue(whole) as real + DigitsValue(fraction) as real / Pow10(|fraction|) as real)
  }

  /**
   * The default table read as numbers, as parseFloat(defaultValue(key)) gives it:
   * four non-zero entries, and zero for every other key.
   */
  function DefaultNumber(key: string): real {
    if key == "slcly" then 12.6
    else if key == "salb" then 0.25
    else if key == "slphw" then 6.2
    else if key == "sloc" then 0.1
    else 0.0
  }

  /** The numbers the texts of the default table denote. */
  lemma DefaultTextValues()
    ensures DecimalValue("0.1") == Some(0.1)
    ensures DecimalValue("12.6") == Some(12.6)
    ensures DecimalValue("0.25") == Some(0.25)
    ensures DecimalValue("6.2") == Some(6.2)
    ensures DecimalValue("0.0") == Some(0.0)
  {
    assert DotIndex("0.1") == 1 && "0.1"[..1] == "0" && "0.1"[2..] == "1";
    assert DigitsValue("1") == 1 && DigitsValue("0") == 0;
    assert DotIndex("12.6") == 2 && "12.6"[..2] == "12" && "12.6"[3..] == "6";
    assert "12"[..1] == "1" && DigitsValue("12") == 12 && DigitsValue("6") == 6;
    assert DotIndex("0.25") == 1 && "0.25"[..1] == "0" && "0.25"[2..] == "25";
    assert "25"[..1] == "2" && DigitsValue("25") == 25;
    assert DotIndex("6.2") == 1 && "6.2"[..1] == "6" && "6.2"[2..] == "2";
    assert DotIndex("0.0") == 1 && "0.0"[..1] == "0" && "0.0"[2..] == "0";
  }

  /** Every default text is a plain decimal, and it denotes the numeric default. */
  lemma DefaultValueDenotesDefaultNumber(key: string)
    ensures DecimalValue(DefaultValue(key)) == Some(DefaultNumber(key))
  {
    DefaultTextValues();
    if key == "slcly" {
      assert DefaultValue(key) == "12.6";
    } else if key == "salb" {
      assert DefaultValue(key) == "0.25";
    } else if key == "slphw" {
      assert DefaultValue(key) == "6.2";
    } else if key == "sloc" {
      assert DefaultValue(key) == "0.1";
    } else {
      assert DefaultValue(key) == "0.0";
    }
  }

  // ---------------------------------------------------------------------------
  // Depth to thickness

  predicate AllHaveThickness(layers: seq<RealLayer>) {
    forall i :: 0 <= i < |layers| ==> SLLB in layers[i]
  }

  /**
   * The layers with their cumulative depth (sllb) replaced by their own thickness:
   * the depth of the layer minus the depth of the layer above it (zero for the first).
   */
  function LayerSizes(layers: seq<RealLayer>): (r: seq<RealLayer>)
    requires AllHaveThickness(layers)
  {
    seq(|layers|, i requires 0 <= i < |layers| =>
      layers[i][SLLB := layers[i][SLLB] - (if i == 0 then 0.0 else layers[i - 1][SLLB])])
  }

  /**
   * computeSoilLayerSize: one pass that keeps the depth of the previous layer. A layer
   * with no depth has no number to read (MissingValue), and the pass produces no profile.
   */
  method ComputeSoilLayerSize(layers: seq<RealLayer>) returns (r: Result<seq<RealLayer>, Fault>)
    ensures r.Success? <==> AllHaveThickness(layers)
    ensures r.Success? ==> r.value == LayerSizes(layers)
    ensures r.Failure? ==> r.error == MissingValue
  {
    var deep := 0.0;
    var sized := [];
    var i := 0;
    while i < |layers|
      invariant 0 <= i <= |layers|
      invariant AllHaveThickness(layers[..i])
      invariant |sized| == i
      invariant forall j :: 0 <= j < i ==> sized[j] == layers[j][SLLB := layers[j][SLLB] - (if j == 0 then 0.0 else layers[j - 1][SLLB])]
      invariant deep == if i == 0 then 0.0 else layers[i - 1][SLLB]
    {
      var current := layers[i];
      if SLLB !in current {
        return Failure(MissingValue);
      }
      sized := sized + [current[SLLB := current[SLLB] - deep]];
      deep := current[SLLB];
      i := i + 1;
    }
    assert layers[..i] == layers;
    assert AllHaveThickness(layers);
    forall j | 0 <= j < |layers|
      ensures sized[j] == LayerSizes(layers)[j]
    {
      assert sized[j] == layers[j][SLLB := layers[j][SLLB] - (if j == 0 then 0.0 else layers[j - 1][SLLB])];
      assert LayerSizes(layers)[j] == layers[j][SLLB := layers[j][SLLB] - (if j == 0 then 0.0 else layers[j - 1][SLLB])];
    }
    r := Success(sized);
  }

  /** Each converted layer is its input layer with only sllb replaced. */
  lemma LayerSizesShape(layers: seq<RealLayer>, i: int)
    requires AllHaveThickness(layers) && 0 <= i < |layers|
    ensures |LayerSizes(layers)| == |layers|
    ensures LayerSizes(layers)[i].Keys == layers[i].Keys
    ensures forall k :: k in layers[i] && k != SLLB ==> LayerSizes(layers)[i][k] == layers[i][k]
    ensures LayerSizes(layers)[0][SLLB] == layers[0][SLLB]
    ensures i > 0 ==> LayerSizes(layers)[i][SLLB] == layers[i][SLLB] - layers[i - 1][SLLB]
  {
  }

  /** The thicknesses of the first i+1 layers add up to the depth of layer i. */
  lemma {:induction false} ThicknessesTelescope(layers: seq<RealLayer>, i: nat)
    requires AllHaveThickness(layers) && i < |layers|
    ensures TotalThickness(LayerSizes(layers)[..i + 1]) == layers[i][SLLB]
  {
    var sized := LayerSizes(layers);
    assert sized[..i + 1][..i] == sized[..i];
    if i > 0 {
      ThicknessesTelescope(layers, i - 1);
    } else {
      assert sized[..1][..0] == [];
    }
  }

  /** The total thickness of the converted profile is the depth of its last layer. */
  lemma TotalThicknessIsLastDepth(layers: seq<RealLayer>)
    requires AllHaveThickness(layers) && |layers| > 0
    ensures TotalThickness(LayerSizes(layers)) == layers[|layers| - 1][SLLB]
  {
    ThicknessesTelescope(layers, |layers| - 1);
    assert LayerSizes(layers)[..|layers|] == LayerSizes(layers);
  }

  /** Positive, strictly increasing depths give positive thicknesses. */
  lemma IncreasingDepthsGivePositiveThickness(layers: seq<RealLayer>)
    requires AllHaveThickness(layers)
    requires |layers| > 0 ==> layers[0][SLLB] > 0.0
    requires forall i :: 0 < i < |layers| ==> layers[i - 1][SLLB] < layers[i][SLLB]
    ensures forall i :: 0 <= i < |layers| ==> LayerSizes(layers)[i][SLLB] > 0.0
  {
  }

  // ---------------------------------------------------------------------------
  // Soil and initial-condition merge

  /**
   * One position of the merge: the initial-condition entries are put into the soil
   * layer when the texts of its boundary (icbl) and of the soil's sllb are equal.
   */
  function MergeAt(soil: TextLayer, init: TextLayer): TextLayer
    requires ICBL in init
  {
    if SLLB in soil && init[ICBL] == soil[SLLB] then soil + init else soil
  }

  /** The position has an initial-condition layer with a boundary to compare. */
  predicate Mergeable(inits: seq<TextLayer>, i: nat) {
    i < |inits| && ICBL in inits[i]
  }

  /** The first soil position without a usable initial-condition layer, or the number of soil layers. */
  function MergeLimit(soils: seq<TextLayer>, inits: seq<TextLayer>, from: nat): (n: nat)
    requires from <= |soils|
    ensures from <= n <= |soils|
    ensures n < |soils| ==> !Mergeable(inits, n)
    ensures forall i :: from <= i < n ==> Mergeable(inits, i)
    decreases |soils| - from
  {
    if from == |soils| || !Mergeable(inits, from) then from
    else MergeLimit(soils, inits, from + 1)
  }

  /**
   * mergeSoilAndInitializationData, on values: position by position, the soil layer takes
   * the initial-condition layer's entries when its depth text equals the boundary text.
   * The merge stops at the first position with no initial-condition layer (MissingLayer)
   * or with one that has no boundary (MissingValue); the positions before it are merged
   * and the rest are left as they are.
   */
  method MergeSoilAndInitializationData(soils: seq<TextLayer>, inits: seq<TextLayer>)
    returns (merged: seq<TextLayer>, fault: Option<Fault>)
    ensures var n := MergeLimit(soils, inits, 0);
      && |merged| == |soils|
      && (forall i :: 0 <= i < n ==> Mergeable(inits, i) && merged[i] == MergeAt(soils[i], inits[i]))
      && (forall i :: n <= i < |soils| ==> merged[i] == soils[i])
      && (fault.None? <==> n == |soils|)
      && (fault.Some? ==> fault.value == if n < |inits| then MissingValue else MissingLayer)
  {
    merged := [];
    var index := 0;
    while index < |soils|
      invariant 0 <= index <= |soils|
      invariant |merged| == index
      invariant MergeLimit(soils, inits, 0) == MergeLimit(soils, inits, index)
      invariant forall i :: 0 <= i < index ==> Mergeable(inits, i) && merged[i] == MergeAt(soils[i], inits[i])
    {
      if index >= |inits| || ICBL !in inits[index] {
        fault := Some(if index < |inits| then MissingValue else MissingLayer);
        merged := merged + soils[index..];
        return;
      }
      var soil := soils[index];
      if SLLB in soil && inits[index][ICBL] == soil[SLLB] {
        soil := soil + inits[index];
      }
      merged := merged + [soil];
      index := index + 1;
    }
    fault := None;
  }

  /** A matching position gains every initial-condition entry and keeps its other soil entries. */
  lemma MergeAtMatched(soil: TextLayer, init: TextLayer)
    requires ICBL in init && SLLB in soil && init[ICBL] == soil[SLLB]
    ensures MergeAt(soil, init).Keys == soil.Keys + init.Keys
    ensures forall k :: k in init ==> MergeAt(soil, init)[k] == init[k]
    ensures forall k :: k in soil && k !in init ==> MergeAt(soil, init)[k] == soil[k]
  {
  }

  /** Merging the same initial conditions twice changes nothing more, unless they carry an sllb. */
  lemma MergeAtIdempotent(soil: TextLayer, init: TextLayer)
    requires ICBL in init && SLLB !in init
    ensures MergeAt(MergeAt(soil, init), init) == MergeAt(soil, init)
  {
  }

  /** The boundary test compares texts: a depth "20.0" does not match a boundary "20". */
  lemma MergeComparesText()
    ensures MergeAt(map[SLLB := "20.0"], map[ICBL := "20", ICH2O := "0.3"]) == map[SLLB := "20.0"]
  {
  }
}
