/** The build-time constants of the terrain (the macros of Terrain.h). */
module TerrainConfig {

  /** World units, and lattice quads, along one edge of a cell. */
  const CELL_SIZE: nat := 10

  /** How many cells on each side of the focus cell are rendered. */
  const RENDER_DISTANCE: nat := 10

  /** The cache capacity the header declares. Nothing enforces it: the cell
      map grows without bound. */
  const CACHE_CAPACITY: nat := 25

  /** Lattice points along one edge of a cell: `TERRAIN_CELL_SIZE + 1`. */
  const LATTICE_SIZE: nat := 11

  /** Cells along one edge of the render window: `2 * RENDER_DISTANCE + 1`. */
  const WINDOW_WIDTH: nat := 21

  /** Cells in one render window. */
  const WINDOW_CELLS: nat := 441

  /** The derived sizes follow from the macros: a cell has 11 x 11 lattice
      points, and one render window holds 21 x 21 = 441 cells, far more than
      the declared capacity. */
  lemma WindowOutgrowsCapacity()
    ensures LATTICE_SIZE == CELL_SIZE + 1
    ensures WINDOW_WIDTH == 2 * RENDER_DISTANCE + 1
    ensures WINDOW_CELLS == WINDOW_WIDTH * WINDOW_WIDTH
    ensures WINDOW_CELLS > CACHE_CAPACITY
  {
  }
}
