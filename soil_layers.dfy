/**
 * The data model shared by the soil layer-reduction engine: soil layers as maps from
 * parameter codes to values, the parameter codes themselves, the ways a computation on a
 * layer can fail, and the two-operation strategy ("decorator") that drives a reduction.
 */
module SoilLayers {
  import opened Wrappers

  /** A soil layer whose values have been read as numbers. */
  type RealLayer = map<string, real>

  /** A soil or initial-condition layer in its textual form. */
  type TextLayer = map<string, string>

  // Soil parameters (soil section)
  const SLLL := "slll"
  const SLDUL := "sldul"
  const SLBDM := "slbdm"
  const SKSAT := "sksat"
  const SLLB := "sllb"
  const SLOC := "sloc"

  // Initial-condition parameters (init section)
  const ICBL := "icbl"
  const ICH2O := "ich2o"
  const ICNO3 := "icno3"
  const ICNH4 := "icnh4"

  /** Why a layer computation does not produce a value. */
  datatype Fault =
    | MissingValue   // a parameter is read that the layer does not hold (parseFloat(null))
    | EmptyProfile   // the first layer of an empty profile is asked for
    | MissingLayer   // a layer is asked for past the end of a list
    | ZeroThickness  // a thickness-weighted mean over a total thickness of zero

  /**
   * The strategy a reduction is parametrised by: whether two adjacent layers
   * should be merged, and the layer that replaces them when they are.
   * Both operations take the current layer first and the previous one second.
   */
  datatype Decorator = Decorator(
    shouldAggregateSoils: (RealLayer, RealLayer) -> Result<bool, Fault>,
    computeSoil: (RealLayer, RealLayer) -> Result<RealLayer, Fault>)

  /** The numeric value a layer holds for a key, or a MissingValue fault. */
  function Field(layer: RealLayer, key: string): (r: Result<real, Fault>)
    ensures r.Success? <==> key in layer
    ensures r.Success? ==> r.value == layer[key]
  {
    if key in layer then Success(layer[key]) else Failure(MissingValue)
  }

  /** The thickness (sllb) of a layer, zero when the layer has none. */
  function Thickness(layer: RealLayer): real {
    if SLLB in layer then layer[SLLB] else 0.0
  }

  /** The sum of the thicknesses of a sequence of layers. */
  function TotalThickness(layers: seq<RealLayer>): real
    decreases |layers|
  {
    if |layers| == 0 then 0.0
    else TotalThickness(layers[..|layers| - 1]) + Thickness(layers[|layers| - 1])
  }
}
