/**
 * On a merge the reducer takes out the first output layer equal in value to the previous
 * layer, not the previous layer itself; when an earlier layer holds the same values, the
 * earlier one goes and the profile comes out reordered.
 */
module RemovalFinding {
  import opened Wrappers
  import opened SoilLayers
  import opened WaterReserve
  import opened SAReducer
  import opened LayerReduction
  import opened LayerReductionProperties

  /** A topsoil layer, 10 cm thick. */
  const Top: RealLayer := map[SLLB := 10.0, SLDUL := 0.3, SLLL := 0.1, SLBDM := 1.2]
  /** A layer with a water reserve 100 mm/m higher than Top's. */
  const Other: RealLayer := map[SLLB := 10.0, SLDUL := 0.4, SLLL := 0.1, SLBDM := 1.2]
  /** A layer with Top's water reserve and bulk density, but 20 cm thick. */
  const Similar: RealLayer := map[SLLB := 20.0, SLDUL := 0.3, SLLL := 0.1, SLBDM := 1.2]

  lemma Decisions(sa: SAReducerDecorator)
    ensures sa.AsDecorator().shouldAggregateSoils(Other, Top) == Success(false)
    ensures sa.AsDecorator().shouldAggregateSoils(Top, Other) == Success(false)
    ensures sa.AsDecorator().shouldAggregateSoils(Similar, Top) == Success(true)
    ensures sa.AsDecorator().computeSoil(Similar, Top).Success?
  {
    sa.MergedLayerValues(Similar, Top);
  }

  /**
   * The profile Top, Other, Top, Similar reduced by the soil-aggregation decorator with
   * the default maximum: the last layer merges into the Top just before it, but the
   * reducer takes out the first Top, so Other comes out on top. Replacing the last output
   * layer instead keeps Top first.
   */
  lemma FirstEqualRemovalReorders(sa: SAReducerDecorator)
    ensures var soils := [Top, Other, Top, Similar];
      var merged := sa.MergedLayer(Similar, Top);
      && merged.Success?
      && Reduce(sa.AsDecorator(), DefaultMaxSoilLayers, FirstEqual, soils) == Success([Other, Top, merged.value])
      && Reduce(sa.AsDecorator(), DefaultMaxSoilLayers, Tail, soils) == Success([Top, Other, merged.value])
      && Other != Top
  {
    var dec := sa.AsDecorator();
    var soils := [Top, Other, Top, Similar];
    Decisions(sa);
    var merged := sa.MergedLayer(Similar, Top).value;
    NormalizeUniformKeys(soils);
    assert Normalize(soils) == soils;
    assert soils[..1] == [Top] && [Top][..0] == [];
    assert soils[..2] == [Top, Other] && soils[..2][..1] == [Top];
    assert soils[..3] == [Top, Other, Top] && soils[..3][..2] == soils[..2];
    assert soils[..4] == soils && soils[..3] == [Top, Other, Top];
    assert Other[SLDUL] != Top[SLDUL];
    forall mode: Removal
      ensures Run(dec, DefaultMaxSoilLayers, mode, [Top, Other, Top]) == Success(Pass([Top, Other, Top], Some(Top), false))
    {
      assert [Top][..0] == [];
      RunUnfold(dec, DefaultMaxSoilLayers, mode, [Top]);
      assert [] + [Top] == [Top];
      assert Run(dec, DefaultMaxSoilLayers, mode, [Top]) == Success(Pass([Top], Some(Top), false));
      assert [Top, Other][..1] == [Top];
      RunUnfold(dec, DefaultMaxSoilLayers, mode, [Top, Other]);
      assert [Top] + [Other] == [Top, Other];
      assert [Top, Other] + [Top] == [Top, Other, Top];
      assert Run(dec, DefaultMaxSoilLayers, mode, [Top, Other]) == Success(Pass([Top, Other], Some(Other), false));
      assert [Top, Other, Top][..2] == [Top, Other];
      RunUnfold(dec, DefaultMaxSoilLayers, mode, [Top, Other, Top]);
    }
    assert IndexOf([Top, Other, Top], Top) == 0;
    assert Drop(FirstEqual, [Top, Other, Top], Top) == [Other, Top];
    assert Drop(Tail, [Top, Other, Top], Top) == [Top, Other];
    assert [Other, Top] + [merged] == [Other, Top, merged];
    assert [Top, Other] + [merged] == [Top, Other, merged];
    var three := Pass([Top, Other, Top], Some(Top), false);
    RunUnfold(dec, DefaultMaxSoilLayers, FirstEqual, soils);
    RunUnfold(dec, DefaultMaxSoilLayers, Tail, soils);
    assert Run(dec, DefaultMaxSoilLayers, FirstEqual, soils) == Step(dec, DefaultMaxSoilLayers, FirstEqual, three, Similar);
    assert Run(dec, DefaultMaxSoilLayers, Tail, soils) == Step(dec, DefaultMaxSoilLayers, Tail, three, Similar);
    assert Step(dec, DefaultMaxSoilLayers, FirstEqual, three, Similar) == Success(Pass([Other, Top, merged], Some(merged), false));
    assert Step(dec, DefaultMaxSoilLayers, Tail, three, Similar) == Success(Pass([Top, Other, merged], Some(merged), false));
  }
}
