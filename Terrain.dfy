/** The terrain: cells built from Perlin noise on first use and kept in a map
    keyed by `cx * 32768 + cz`, and the render pass that walks the 21 x 21
    window of cells around the viewer. The draw calls are recorded as a log
    of values instead of being issued. */
module Terrain {
  import opened TerrainConfig
  import opened MeshLayout
  import opened CellSynthesis
  import opened Noise
  import opened RenderPass

  // ---------------------------------------------------------------------
  // Cells

  /** The noise a cell samples: `getPerlinNoise` as written, with corners
      chosen by truncation, and with the given trigonometry. */
  function CellNoise(trig: Trig): NoiseField
  {
    (px: real, py: real, s: int) => GetPerlinNoise(trig, px, py, s)
  }

  /** One terrain cell: its height lattice and the mesh of its quads. The
      cell coordinates are not stored by the source; they are kept here as
      ghost state to say which cell the cache holds under a key. */
  class TerrainCell {
    ghost const cellX: int
    ghost const cellZ: int
    const lattice: array2<real>
    const mesh: Mesh

    ghost predicate Valid()
    {
      IsLattice(lattice) && mesh.numVertices == VERTEX_COUNT && |mesh.data| == BUFFER_LENGTH
    }

    /** Samples the lattice, assembles the buffer and builds the mesh of
        600 vertices from it with the given attribute set. */
    constructor (x: int, z: int, seed: int, trig: Trig, attribSet: seq<VertexAttribute>)
      ensures Valid() && fresh(lattice) && fresh(mesh)
      ensures cellX == x && cellZ == z
      ensures forall i, j :: 0 <= i < LATTICE_SIZE && 0 <= j < LATTICE_SIZE ==>
                lattice[i, j] == LatticeHeight(CellNoise(trig), x, z, seed, i, j)
      ensures mesh.data == Buffer(lattice)
      ensures mesh.layout == AttribCalls(attribSet, TotalElements(attribSet), |attribSet|)
      ensures mesh.uploadBytes == VertexBytes(attribSet) * VERTEX_COUNT
    {
      cellX, cellZ := x, z;
      var points := FillLattice(CellNoise(trig), x, z, seed);
      var data := AssembleBuffer(points);
      assert data[..] == Buffer(points);
      lattice := points;
      mesh := new Mesh(data[..], VERTEX_COUNT, attribSet);
    }

    /** getMesh(): the cell's mesh, which draws 600 vertices. */
    function GetMesh(): (m: Mesh)
      requires Valid()
      ensures m.numVertices == VERTEX_COUNT && |m.data| == BUFFER_LENGTH
    {
      mesh
    }
  }

  // ---------------------------------------------------------------------
  // The terrain and its render pass

  class Terrain {
    const seed: int
    const trig: Trig
    const attribSet: seq<VertexAttribute>
    /** The cell cache. Entries are added, never replaced or removed. */
    var cells: map<int, TerrainCell>
    /** How many cells have been generated so far. */
    ghost var generated: nat
    /** Every draw issued so far, in order. */
    var draws: seq<DrawRecord<TerrainCell>>

    /** Each entry is a well-formed cell stored under its own key, and every
        generated cell is still in the cache. */
    ghost predicate Valid()
      reads this
    {
      && generated == |cells|
      && forall k :: k in cells ==> cells[k].Valid() && Key(cells[k].cellX, cells[k].cellZ) == k
    }

    /** A terrain with an empty cache. */
    constructor (seed: int, trig: Trig, attribSet: seq<VertexAttribute>)
      ensures Valid()
      ensures this.seed == seed && this.trig == trig && this.attribSet == attribSet
      ensures cells == map[] && draws == []
    {
      this.seed, this.trig, this.attribSet := seed, trig, attribSet;
      cells, generated, draws := map[], 0, [];
    }

    /** After the first `count` visits of a render pass around (cellX, cellZ)
        that started with cache `before` and log `earlier`: every old entry
        is kept, the keys are the old ones plus those of the visited cells,
        and the log is `earlier` followed by one draw per visited cell. */
    ghost predicate Progress(cellX: int, cellZ: int, before: map<int, TerrainCell>, earlier: seq<DrawRecord<TerrainCell>>, count: nat)
      reads this
    {
      Valid() && PassState(cellX, cellZ, before, earlier, count, cells, draws)
    }

    /** render(x, z): for every cell of the 21 x 21 window around the cell
        of (x, z), generates and caches it when its key is missing, then
        draws the cached cell at its translation. The cache keeps every old
        entry and gains exactly the window's missing keys, each holding a new
        cell; the new draws are the window's 441 cells in visiting order. */
    method Render(x: real, z: real)
      requires Valid()
      modifies this
      ensures Valid()
      ensures PassState(FocusCell(x), FocusCell(z), old(cells), old(draws), WINDOW_CELLS, cells, draws)
      ensures cells.Keys == old(cells.Keys) + WindowKeys(FocusCell(x), FocusCell(z), WINDOW_CELLS)
      ensures -16374 <= FocusCell(z) < 16374 ==> |cells| >= WINDOW_CELLS > CACHE_CAPACITY
    {
      var cellX, cellZ := FocusCell(x), FocusCell(z);
      RenderWindow(cellX, cellZ);
    }

    /** The two nested loops of render around cell (cellX, cellZ): cx outer,
        cz inner, each from 10 below to 10 above. */
    method RenderWindow(cellX: int, cellZ: int)
      requires Valid()
      modifies this
      ensures Valid()
      ensures PassState(cellX, cellZ, old(cells), old(draws), WINDOW_CELLS, cells, draws)
      ensures cells.Keys == old(cells.Keys) + WindowKeys(cellX, cellZ, WINDOW_CELLS)
      ensures -16374 <= cellZ < 16374 ==> |cells| >= WINDOW_CELLS
    {
      ghost var before, earlier := cells, draws;
      assert draws[..|earlier|] == earlier;
      var cx := cellX - RENDER_DISTANCE;
      ghost var count := 0;
      while cx <= cellX + RENDER_DISTANCE
        invariant cellX - RENDER_DISTANCE <= cx <= cellX + RENDER_DISTANCE + 1
        invariant count == (cx - (cellX - RENDER_DISTANCE)) * 21
        invariant Progress(cellX, cellZ, before, earlier, count)
      {
        RenderColumn(cellX, cellZ, cx, before, earlier, count);
        cx, count := cx + 1, count + WINDOW_WIDTH;
      }
      PassComplete(cellX, cellZ, before, earlier, cells, draws);
    }

    /** The inner loop of render for one cx: the visits of cz from
        cellZ - 10 to cellZ + 10. */
    method RenderColumn(cellX: int, cellZ: int, cx: int,
                        ghost before: map<int, TerrainCell>, ghost earlier: seq<DrawRecord<TerrainCell>>, ghost start: nat)
      requires cellX - RENDER_DISTANCE <= cx <= cellX + RENDER_DISTANCE
      requires start == (cx - (cellX - RENDER_DISTANCE)) * 21
      requires Progress(cellX, cellZ, before, earlier, start)
      modifies this
      ensures Progress(cellX, cellZ, before, earlier, start + WINDOW_WIDTH)
    {
      var cz := cellZ - RENDER_DISTANCE;
      ghost var count := start;
      while cz <= cellZ + RENDER_DISTANCE
        invariant cellZ - RENDER_DISTANCE <= cz <= cellZ + RENDER_DISTANCE + 1
        invariant count == (cx - (cellX - RENDER_DISTANCE)) * 21 + (cz - (cellZ - RENDER_DISTANCE))
        invariant Progress(cellX, cellZ, before, earlier, count)
      {
        Visit(cellX, cellZ, cx, cz, before, earlier, count);
        cz, count := cz + 1, count + 1;
      }
    }

    /** One iteration of the inner loop of render: the cache lookup, the
        insertion on a miss, and the draw of cell (cx, cz). */
    method Visit(cellX: int, cellZ: int, cx: int, cz: int,
                 ghost before: map<int, TerrainCell>, ghost earlier: seq<DrawRecord<TerrainCell>>, ghost count: nat)
      requires cellX - RENDER_DISTANCE <= cx <= cellX + RENDER_DISTANCE
      requires cellZ - RENDER_DISTANCE <= cz <= cellZ + RENDER_DISTANCE
      requires count == (cx - (cellX - RENDER_DISTANCE)) * 21 + (cz - (cellZ - RENDER_DISTANCE))
      requires Progress(cellX, cellZ, before, earlier, count)
      modifies this
      ensures Progress(cellX, cellZ, before, earlier, count + 1)
    {
      ghost var prior, priorCells := draws, cells;
      WindowCellAt(cellX, cellZ, cx - (cellX - RENDER_DISTANCE), cz - (cellZ - RENDER_DISTANCE));
      var tcell := Lookup(cx, cz);
      var call := tcell.GetMesh().Render();
      ghost var d := DrawRecord((cx * CELL_SIZE, 0, cz * CELL_SIZE), tcell, call);
      PassStep(cellX, cellZ, before, earlier, count, priorCells, prior, cells, d);
      draws := draws + [DrawRecord((cx * CELL_SIZE, 0, cz * CELL_SIZE), tcell, call)];
    }

    /** The cache lookup of one visit, keyed by `cx * 32768 + cz`: on a miss a
        new cell is generated for (cx, cz) from the terrain's seed and stored
        under the key; on a hit the cache is left as it is. Either way the
        cell stored under the key is returned, and no entry is ever replaced
        or removed. */
    method Lookup(cx: int, cz: int) returns (cell: TerrainCell)
      requires Valid()
      modifies this
      ensures Valid() && draws == old(draws)
      ensures Key(cx, cz) in cells && cell == cells[Key(cx, cz)]
      ensures Key(cx, cz) in old(cells) ==> cells == old(cells)
      ensures Key(cx, cz) !in old(cells) ==>
                && cells == old(cells)[Key(cx, cz) := cell]
                && fresh(cell) && fresh(cell.lattice) && cell.cellX == cx && cell.cellZ == cz
                && forall i, j :: 0 <= i < LATTICE_SIZE && 0 <= j < LATTICE_SIZE ==>
                     cell.lattice[i, j] == LatticeHeight(CellNoise(trig), cx, cz, seed, i, j)
    {
      var hash := Key(cx, cz);
      if hash !in cells {
        var created := new TerrainCell(cx, cz, seed, trig, attribSet);
        cells := cells[hash := created];
        generated := generated + 1;
      }
      cell := cells[hash];
    }
  }
}
