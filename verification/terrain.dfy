/** The tunable fields of the `TerrainGenerator` component. */
module Terrain {

  /** Every public tunable of the component. `heightmapDetail` is declared by the
      component but read by none of the modelled code. */
  datatype TerrainParams = TerrainParams(
    shoreDepth: int,
    maxTerrainHeight: real,
    minTerrainHeight: real,
    terrainScale: real,
    heightmapDetail: real,
    terrainSharpness: real,
    textureNoiseScale: real,
    grassAmount: real,
    dirtAmount: real,
    mossAmount: real,
    sandheight: real)

  /** The field initialisers. `maxTerrainHeight` starts at 1, outside its own
      inspector range. */
  const Defaults := TerrainParams(
    shoreDepth := 5,
    maxTerrainHeight := 1.0,
    minTerrainHeight := 0.25,
    terrainScale := 10.0,
    heightmapDetail := 3.0,
    terrainSharpness := 1.0,
    textureNoiseScale := 10.0,
    grassAmount := 1.0,
    dirtAmount := 1.0,
    mossAmount := 1.0,
    sandheight := 0.2)

  /** The `[Range]` attributes. They only bound the editor's sliders; nothing
      enforces them at run time, so no operation here assumes them. */
  predicate InInspectorRanges(p: TerrainParams) {
    && 0 <= p.shoreDepth <= 100
    && 0.0 <= p.maxTerrainHeight <= 0.4
    && 0.0 <= p.minTerrainHeight <= 0.4
    && 0.0 <= p.terrainSharpness <= 1.0
    && 0.0 <= p.grassAmount <= 1.0
    && 0.0 <= p.dirtAmount <= 1.0
    && 0.0 <= p.mossAmount <= 1.0
    && 0.0 <= p.sandheight <= 0.4
  }
}
