/** One render pass of the terrain on values: which cell a world coordinate
    falls in, the cache key of a cell, the order in which a pass visits the
    21 x 21 window of cells, and the state of the cache and of the draw log
    after each visit. The cell type is a parameter, so that the pass can be
    stated apart from how cells are built. */
module RenderPass {
  import opened TerrainConfig
  import opened MeshLayout
  import opened CellSynthesis
  import opened Noise

  // ---------------------------------------------------------------------
  // Cell coordinates and cache keys

  /** `static_cast<int>(c / TERRAIN_CELL_SIZE)`: the cell a world coordinate
      falls in, truncating toward zero. */
  function FocusCell(c: real): (cell: int)
    ensures c >= 0.0 ==> cell as real * 10.0 <= c < cell as real * 10.0 + 10.0
    ensures c < 0.0 ==> cell as real * 10.0 - 10.0 < c <= cell as real * 10.0
  {
    assert CELL_SIZE as real == 10.0;
    Trunc(c / CELL_SIZE as real)
  }

  /** Every point strictly between -10 and 10 on an axis falls in cell 0, so
      cell 0 is twice as wide as every other cell. */
  lemma FocusCellNearOrigin(c: real)
    requires -10.0 < c < 10.0
    ensures FocusCell(c) == 0
  {
  }

  /** The cache key `cx * 32768 + cz`. */
  function Key(cx: int, cz: int): int
  {
    cx * 32768 + cz
  }

  /** The cell a key stands for when its z lies in -16384 .. 16383. */
  function KeyCell(k: int): (int, int)
  {
    ((k + 16384) / 32768, (k + 16384) % 32768 - 16384)
  }

  /** While cz lies in -16384 .. 16383 the key decodes back to the cell. */
  lemma KeyDecodes(cx: int, cz: int)
    requires -16384 <= cz < 16384
    ensures KeyCell(Key(cx, cz)) == (cx, cz)
  {
    var k := Key(cx, cz);
    assert (k + 16384) / 32768 == cx && (k + 16384) % 32768 == cz + 16384;
  }

  /** The key determines the cell while both z coordinates fit in 15 bits
      with sign, -16384 .. 16383. */
  lemma KeyInjective(cx: int, cz: int, dx: int, dz: int)
    requires -16384 <= cz < 16384 && -16384 <= dz < 16384
    ensures Key(cx, cz) == Key(dx, dz) <==> cx == dx && cz == dz
  {
    if Key(cx, cz) == Key(dx, dz) {
      assert (cx - dx) * 32768 == dz - cz;
    }
  }

  /** Beyond that range distinct cells share a key: cell (0, 16384) finds
      cell (1, -16384) in the cache and draws it in its place. */
  lemma KeyCollision()
    ensures Key(0, 16384) == Key(1, -16384)
  {
  }

  /** Cell n of the render window around (cellX, cellZ), in visiting order:
      cx outer from cellX - 10 to cellX + 10, cz inner likewise (the window
      is WINDOW_WIDTH = 21 cells wide). */
  function WindowCell(cellX: int, cellZ: int, n: nat): (int, int)
  {
    (cellX - RENDER_DISTANCE + n / 21, cellZ - RENDER_DISTANCE + n % 21)
  }

  /** Every visit of a pass lies inside the 21 x 21 window. */
  lemma WindowCellInWindow(cellX: int, cellZ: int, n: nat)
    requires n < WINDOW_CELLS
    ensures cellX - RENDER_DISTANCE <= WindowCell(cellX, cellZ, n).0 <= cellX + RENDER_DISTANCE
    ensures cellZ - RENDER_DISTANCE <= WindowCell(cellX, cellZ, n).1 <= cellZ + RENDER_DISTANCE
  {
  }

  function WindowKey(cellX: int, cellZ: int, n: nat): int
  {
    var (cx, cz) := WindowCell(cellX, cellZ, n);
    Key(cx, cz)
  }

  /** The visit with cx = cellX - 10 + a and cz = cellZ - 10 + b is visit
      number 21 * a + b. */
  lemma WindowCellAt(cellX: int, cellZ: int, a: nat, b: nat)
    requires a < WINDOW_WIDTH && b < WINDOW_WIDTH
    ensures a * 21 + b < WINDOW_CELLS
    ensures WindowCell(cellX, cellZ, a * 21 + b)
            == (cellX - RENDER_DISTANCE + a, cellZ - RENDER_DISTANCE + b)
  {
    var n := a * 21 + b;
    assert n / 21 == a && n % 21 == b;
  }

  /** The keys of the first `count` cells of the window. */
  ghost function WindowKeys(cellX: int, cellZ: int, count: nat): set<int>
  {
    if count == 0 then {} else WindowKeys(cellX, cellZ, count - 1) + {WindowKey(cellX, cellZ, count - 1)}
  }

  /** A key is among the first `count` window keys exactly when one of
      those visits has it. */
  lemma {:induction false} InWindowKeys(cellX: int, cellZ: int, count: nat, k: int)
    ensures k in WindowKeys(cellX, cellZ, count) <==> exists n: nat :: n < count && WindowKey(cellX, cellZ, n) == k
  {
    if count > 0 {
      InWindowKeys(cellX, cellZ, count - 1, k);
    }
  }

  /** While the window stays inside the key's z range, distinct visits of one
      render pass have distinct keys. */
  lemma WindowKeyInjective(cellX: int, cellZ: int, n: nat, m: nat)
    requires -16374 <= cellZ < 16374
    requires n < WINDOW_CELLS && m < WINDOW_CELLS
    ensures WindowKey(cellX, cellZ, n) == WindowKey(cellX, cellZ, m) <==> n == m
  {
    var (cx, cz) := WindowCell(cellX, cellZ, n);
    var (dx, dz) := WindowCell(cellX, cellZ, m);
    KeyInjective(cx, cz, dx, dz);
    if WindowKey(cellX, cellZ, n) == WindowKey(cellX, cellZ, m) {
      assert n / 21 == m / 21 && n % 21 == m % 21;
      assert n == 21 * (n / 21) + n % 21;
      assert m == 21 * (m / 21) + m % 21;
    }
  }

  /** Inside that range the first `count` visits have `count` distinct keys;
      in particular one pass touches 441 distinct cache entries. */
  lemma {:induction false} WindowKeysCount(cellX: int, cellZ: int, count: nat)
    requires -16374 <= cellZ < 16374 && count <= WINDOW_CELLS
    ensures |WindowKeys(cellX, cellZ, count)| == count
  {
    if count > 0 {
      var c := count - 1;
      WindowKeysCount(cellX, cellZ, c);
      InWindowKeys(cellX, cellZ, c, WindowKey(cellX, cellZ, c));
      if WindowKey(cellX, cellZ, c) in WindowKeys(cellX, cellZ, c) {
        var n: nat :| n < c && WindowKey(cellX, cellZ, n) == WindowKey(cellX, cellZ, c);
        WindowKeyInjective(cellX, cellZ, n, c);
      }
    }
  }

  // ---------------------------------------------------------------------
  // The state of a render pass

  /** One drawn cell: the model translation, the cell drawn and its call. */
  datatype DrawRecord<C> = DrawRecord(translation: (int, int, int), cell: C, call: GlCall)

  /** Record `d` is the drawing of cell (cx, cz) from cache `cells`: the cell
      cached under its key, translated to (cx * 10, 0, cz * 10), drawn as 600
      vertices of triangles. */
  ghost predicate Drawn<C>(cells: map<int, C>, d: DrawRecord<C>, cell: (int, int))
  {
    var (cx, cz) := cell;
    && Key(cx, cz) in cells
    && d.cell == cells[Key(cx, cz)]
    && d.translation == (cx * 10, 0, cz * 10)
    && d.call == DrawArrays(GL_TRIANGLES, 0, VERTEX_COUNT)
  }

  /** The state of a render pass after `count` visits, on values: the cache
      `cells` keeps every entry of `before` and holds exactly its keys plus
      the visited ones, and the log `draws` is `earlier` followed by one
      draw per visited cell, in visiting order. */
  ghost predicate PassState<C>(cellX: int, cellZ: int, before: map<int, C>, earlier: seq<DrawRecord<C>>, count: nat,
                            cells: map<int, C>, draws: seq<DrawRecord<C>>)
  {
    && |draws| == |earlier| + count
    && draws[..|earlier|] == earlier
    && (forall k :: k in before ==> k in cells && cells[k] == before[k])
    && (forall k :: k in cells ==> k in before || k in WindowKeys(cellX, cellZ, count))
    && forall m :: |earlier| <= m < |draws| ==> Drawn(cells, draws[m], WindowCell(cellX, cellZ, m - |earlier|))
  }

  /** One visit advances the pass: the cache gains at most the visited key,
      keeps every entry, and the visit's draw is appended. */
  lemma PassStep<C>(cellX: int, cellZ: int, before: map<int, C>, earlier: seq<DrawRecord<C>>, count: nat,
                 cells: map<int, C>, draws: seq<DrawRecord<C>>, cells': map<int, C>, d: DrawRecord<C>)
    requires PassState(cellX, cellZ, before, earlier, count, cells, draws)
    requires forall k :: k in cells ==> k in cells' && cells'[k] == cells[k]
    requires forall k :: k in cells' ==> k in cells || k == WindowKey(cellX, cellZ, count)
    requires Drawn(cells', d, WindowCell(cellX, cellZ, count))
    ensures PassState(cellX, cellZ, before, earlier, count + 1, cells', draws + [d])
  {
    var draws' := draws + [d];
    assert draws'[..|earlier|] == draws[..|earlier|];
    forall m | |earlier| <= m < |draws'|
      ensures Drawn(cells', draws'[m], WindowCell(cellX, cellZ, m - |earlier|))
    {
      if m < |draws| {
        assert draws'[m] == draws[m];
        assert Drawn(cells, draws[m], WindowCell(cellX, cellZ, m - |earlier|));
      }
    }
  }

  /** After `count` visits the cache holds exactly the old keys and the keys
      of the visited cells. */
  lemma PassKeys<C>(cellX: int, cellZ: int, before: map<int, C>, earlier: seq<DrawRecord<C>>, count: nat,
                 cells: map<int, C>, draws: seq<DrawRecord<C>>)
    requires PassState(cellX, cellZ, before, earlier, count, cells, draws)
    ensures cells.Keys == before.Keys + WindowKeys(cellX, cellZ, count)
  {
    forall k | k in WindowKeys(cellX, cellZ, count)
      ensures k in cells
    {
      InWindowKeys(cellX, cellZ, count, k);
      var n: nat :| n < count && WindowKey(cellX, cellZ, n) == k;
      var m := |earlier| + n;
      assert m - |earlier| == n;
      assert Drawn(cells, draws[m], WindowCell(cellX, cellZ, n));
      var (cx, cz) := WindowCell(cellX, cellZ, n);
      assert Key(cx, cz) == k;
    }
    var want := before.Keys + WindowKeys(cellX, cellZ, count);
    assert forall k :: k in cells ==> k in before || k in WindowKeys(cellX, cellZ, count);
    assert forall k :: k in cells.Keys ==> k in want;
    assert cells.Keys <= want;
    assert forall k :: k in WindowKeys(cellX, cellZ, count) ==> k in cells;
    assert forall k :: k in before ==> k in cells;
    assert want <= cells.Keys;
  }

  /** A finished pass: the cache holds the old keys and the window's, and
      inside the key's z range that is at least 441 entries. */
  lemma PassComplete<C>(cellX: int, cellZ: int, before: map<int, C>, earlier: seq<DrawRecord<C>>,
                     cells: map<int, C>, draws: seq<DrawRecord<C>>)
    requires PassState(cellX, cellZ, before, earlier, WINDOW_CELLS, cells, draws)
    ensures cells.Keys == before.Keys + WindowKeys(cellX, cellZ, WINDOW_CELLS)
    ensures -16374 <= cellZ < 16374 ==> |cells| >= WINDOW_CELLS
  {
    PassKeys(cellX, cellZ, before, earlier, WINDOW_CELLS, cells, draws);
    if -16374 <= cellZ < 16374 {
      WindowKeysCount(cellX, cellZ, WINDOW_CELLS);
      SubsetCardinality(WindowKeys(cellX, cellZ, WINDOW_CELLS), cells.Keys);
    }
  }

  lemma SubsetCardinality(a: set<int>, b: set<int>)
    requires a <= b
    ensures |a| <= |b|
  {
    assert b == a + (b - a);
    assert a * (b - a) == {};
  }
}
