/** How a terrain cell is synthesised: an 11 x 11 lattice of heights sampled
    from noise at world lattice indices, then a flat vertex buffer of two
    triangles per lattice quad, each triangle carrying a face normal that
    points up. */
module CellSynthesis {
  import opened TerrainConfig
  import opened MeshLayout

  /** A noise field: (x, y, seed) to a noise value. */
  type NoiseField = (real, real, int) -> real

  /** The divisor `s` applied to world lattice indices before sampling. */
  const NOISE_SCALE: real := 18.45231

  /** The height shaping `f * f * 52 - 2`. */
  const HEIGHT_GAIN: real := 52.0
  const HEIGHT_BIAS: real := 2.0

  /** The quad edge length `s` in cell-local units. */
  const QUAD_SCALE: real := 1.0

  const FLOATS_PER_VERTEX: nat := 8
  const VERTICES_PER_QUAD: nat := 6
  /** Floats in one quad (six vertices of eight floats), in one row of ten
      quads, and in the whole buffer of ten rows; the lemma below derives
      each of them. */
  const FLOATS_PER_QUAD: nat := 48
  const FLOATS_PER_ROW: nat := 480
  const BUFFER_LENGTH: nat := 4800

  /** The vertex count handed to the mesh: `TERRAIN_CELL_SIZE^2 * 6`. */
  const VERTEX_COUNT: nat := 600

  /** The buffer sizes follow from the cell size and the vertex format, and
      the buffer holds exactly VERTEX_COUNT vertices of 8 floats. */
  lemma BufferHoldsVertexCount()
    ensures FLOATS_PER_QUAD == VERTICES_PER_QUAD * FLOATS_PER_VERTEX
    ensures FLOATS_PER_ROW == CELL_SIZE * FLOATS_PER_QUAD
    ensures BUFFER_LENGTH == CELL_SIZE * FLOATS_PER_ROW
    ensures VERTEX_COUNT == CELL_SIZE * CELL_SIZE * VERTICES_PER_QUAD
    ensures VERTEX_COUNT * FLOATS_PER_VERTEX == BUFFER_LENGTH
  {
  }

  // ---------------------------------------------------------------------
  // The height lattice

  /** The height shaping of a noise value. */
  function Height(f: real): (h: real)
    ensures h >= -HEIGHT_BIAS
    ensures f == 0.0 ==> h == -HEIGHT_BIAS
  {
    assert f * f >= 0.0;
    f * f * HEIGHT_GAIN - HEIGHT_BIAS
  }

  /** The world lattice index `cell * TERRAIN_CELL_SIZE + i`. */
  function WorldIndex(cell: int, i: int): int
  {
    cell * CELL_SIZE + i
  }

  /** The noise coordinate of lattice index `i` of `cell`. */
  function SampleCoord(cell: int, i: int): real
  {
    WorldIndex(cell, i) as real / NOISE_SCALE
  }

  /** The height at lattice point (i, j) of cell (x, z). */
  function LatticeHeight(noise: NoiseField, x: int, z: int, seed: int, i: int, j: int): (h: real)
    ensures h >= -HEIGHT_BIAS
  {
    Height(noise(SampleCoord(x, i), SampleCoord(z, j), seed))
  }

  /** Two lattice indices of cells on one axis sample the same noise
      coordinate exactly when they are the same point of the same cell, or
      the last index of a cell and the first of the next. */
  lemma SampleCoordShared(c: int, i: int, d: int, k: int)
    requires 0 <= i <= CELL_SIZE && 0 <= k <= CELL_SIZE
    ensures SampleCoord(c, i) == SampleCoord(d, k) <==>
              ((c == d && i == k)
               || (d == c + 1 && i == CELL_SIZE && k == 0)
               || (c == d + 1 && i == 0 && k == CELL_SIZE))
  {
    if SampleCoord(c, i) == SampleCoord(d, k) {
      assert WorldIndex(c, i) as real == WorldIndex(d, k) as real;
    }
  }

  /** Neighbouring cells agree on the heights of their shared edges. */
  lemma SharedEdgeHeights(noise: NoiseField, x: int, z: int, seed: int, k: int)
    requires 0 <= k <= CELL_SIZE
    ensures LatticeHeight(noise, x, z, seed, CELL_SIZE, k) == LatticeHeight(noise, x + 1, z, seed, 0, k)
    ensures LatticeHeight(noise, x, z, seed, k, CELL_SIZE) == LatticeHeight(noise, x, z + 1, seed, k, 0)
  {
    assert SampleCoord(x, CELL_SIZE) == SampleCoord(x + 1, 0);
    assert SampleCoord(z, CELL_SIZE) == SampleCoord(z + 1, 0);
  }

  /** The first nested loop of the TerrainCell constructor: every lattice
      point (i, j), 0 <= i, j <= 10, gets the shaped noise at world lattice
      index (x * 10 + i, z * 10 + j). */
  method FillLattice(noise: NoiseField, x: int, z: int, seed: int) returns (lattice: array2<real>)
    ensures fresh(lattice)
    ensures lattice.Length0 == LATTICE_SIZE && lattice.Length1 == LATTICE_SIZE
    ensures forall i, j :: 0 <= i < LATTICE_SIZE && 0 <= j < LATTICE_SIZE ==>
              lattice[i, j] == LatticeHeight(noise, x, z, seed, i, j)
  {
    lattice := new real[LATTICE_SIZE, LATTICE_SIZE];
    var i := 0;
    while i < LATTICE_SIZE
      invariant 0 <= i <= LATTICE_SIZE
      invariant forall a, b :: 0 <= a < i && 0 <= b < LATTICE_SIZE ==>
                  lattice[a, b] == LatticeHeight(noise, x, z, seed, a, b)
    {
      var j := 0;
      while j < LATTICE_SIZE
        invariant 0 <= j <= LATTICE_SIZE
        invariant forall a, b :: 0 <= a < i && 0 <= b < LATTICE_SIZE ==>
                    lattice[a, b] == LatticeHeight(noise, x, z, seed, a, b)
        invariant forall b :: 0 <= b < j ==> lattice[i, b] == LatticeHeight(noise, x, z, seed, i, b)
      {
        var f := noise(SampleCoord(x, i), SampleCoord(z, j), seed);
        lattice[i, j] := f * f * HEIGHT_GAIN - HEIGHT_BIAS;
        j := j + 1;
      }
      i := i + 1;
    }
  }

  // ---------------------------------------------------------------------
  // Normals

  datatype Vec3 = Vec3(x: real, y: real, z: real)

  function Sub(a: Vec3, b: Vec3): Vec3
  {
    Vec3(a.x - b.x, a.y - b.y, a.z - b.z)
  }

  function Dot(a: Vec3, b: Vec3): real
  {
    a.x * b.x + a.y * b.y + a.z * b.z
  }

  function Negate(v: Vec3): Vec3
  {
    Vec3(-v.x, -v.y, -v.z)
  }

  /** The cross product: perpendicular to both of its arguments. */
  function Cross(a: Vec3, b: Vec3): (c: Vec3)
    ensures Dot(c, a) == 0.0 && Dot(c, b) == 0.0
  {
    Vec3(a.y * b.z - a.z * b.y, a.z * b.x - a.x * b.z, a.x * b.y - a.y * b.x)
  }

  /** `if (n.y < 0) n = -n`: the vector or its opposite, whichever points up. */
  function FaceUp(v: Vec3): (r: Vec3)
    ensures r.y >= 0.0
    ensures v.y >= 0.0 ==> r == v
    ensures v.y < 0.0 ==> r == Negate(v)
  {
    if v.y < 0.0 then Negate(v) else v
  }

  /** The edge vectors of quad (i, j) from corner (i, j), given the corner
      heights h00 = (i, j), h10 = (i+1, j), h11 = (i+1, j+1), h01 = (i, j+1). */
  function Diag(h00: real, h11: real): Vec3 { Vec3(1.0, h11 - h00, 1.0) }

  function Right(h00: real, h10: real): Vec3 { Vec3(1.0, h10 - h00, 0.0) }

  function Up(h00: real, h01: real): Vec3 { Vec3(0.0, h01 - h00, 1.0) }

  /** The emitted normal of the first triangle, (i, j), (i+1, j), (i+1, j+1):
      `cross(diag, right)` written out, which already points up: it is
      perpendicular to both edges of the triangle. */
  function NormalA(h00: real, h10: real, h11: real): (n: Vec3)
    ensures n.y == 1.0
    ensures Dot(n, Right(h00, h10)) == 0.0 && Dot(n, Diag(h00, h11)) == 0.0
  {
    Vec3(h00 - h10, 1.0, h10 - h11)
  }

  /** The emitted normal of the second triangle, (i, j), (i, j+1), (i+1, j+1):
      `cross(diag, up)` written out and negated, since it points down: it is
      perpendicular to both edges of the triangle. */
  function NormalB(h00: real, h01: real, h11: real): (n: Vec3)
    ensures n.y == 1.0
    ensures Dot(n, Up(h00, h01)) == 0.0 && Dot(n, Diag(h00, h11)) == 0.0
  {
    Vec3(h01 - h11, 1.0, h00 - h01)
  }

  /** Whatever the heights, `cross(diag, right)` has y = 1 and is never
      flipped, while `cross(diag, up)` has y = -1 and is always flipped; the
      normals that result are NormalA and NormalB, both with y = 1 (before
      normalisation). */
  lemma NormalFlips(h00: real, h10: real, h11: real, h01: real)
    ensures Cross(Diag(h00, h11), Right(h00, h10)).y == 1.0
    ensures Cross(Diag(h00, h11), Up(h00, h01)).y == -1.0
    ensures FaceUp(Cross(Diag(h00, h11), Right(h00, h10))) == NormalA(h00, h10, h11)
    ensures FaceUp(Cross(Diag(h00, h11), Up(h00, h01))) == NormalB(h00, h01, h11)
    ensures NormalA(h00, h10, h11).y == 1.0 && NormalB(h00, h01, h11).y == 1.0
  {
  }

  // ---------------------------------------------------------------------
  // The vertex buffer

  /** The lattice corner of vertex t (0 <= t < 6) of a quad, as offsets from
      (i, j): triangle one uses (0,0), (1,0), (1,1), triangle two (0,0),
      (0,1), (1,1). */
  function CornerI(t: nat): nat { if t == 1 || t == 2 || t == 5 then 1 else 0 }

  function CornerJ(t: nat): nat { if t == 2 || t == 4 || t == 5 then 1 else 0 }

  /** The height of the corner at offset (di, dj) among the four corner
      heights h00 = (i, j), h10 = (i+1, j), h11 = (i+1, j+1), h01 = (i, j+1). */
  function CornerHeight(di: nat, dj: nat, h00: real, h10: real, h11: real, h01: real): real
  {
    if di == 0 && dj == 0 then h00
    else if dj == 0 then h10
    else if di == 0 then h01
    else h11
  }

  /** Float k (0 <= k < 48) of the 48-float initialiser of a quad at local
      position (fi, fj): element k % 8 of vertex t = k / 8, where a vertex is
      its position (fi + s * di, corner height, fj + s * dj), its normal (`n1`
      for the first triangle, `n2` for the second) and its texture
      coordinate (di, dj), with (di, dj) the vertex's corner. This is the
      initialiser read row by row: vertices (0,0), (1,0), (1,1) with `n1`,
      then (0,0), (0,1), (1,1) with `n2`. */
  function LayoutFloat(fi: real, fj: real, h00: real, h10: real, h11: real, h01: real,
                       n1: Vec3, n2: Vec3, k: nat): real
  {
    var t, c := k / 8, k % 8;
    var di, dj := CornerI(t), CornerJ(t);
    var n := if t < 3 then n1 else n2;
    if c == 0 then (if di == 1 then fi + QUAD_SCALE else fi)
    else if c == 1 then CornerHeight(di, dj, h00, h10, h11, h01)
    else if c == 2 then (if dj == 1 then fj + QUAD_SCALE else fj)
    else if c == 3 then n.x
    else if c == 4 then n.y
    else if c == 5 then n.z
    else if c == 6 then di as real
    else dj as real
  }

  /** The 48 floats of one quad's initialiser, in order. */
  function QuadFloats(fi: real, fj: real, h00: real, h10: real, h11: real, h01: real,
                      n1: Vec3, n2: Vec3): (q: seq<real>)
    ensures |q| == FLOATS_PER_QUAD
  {
    seq(48, k requires 0 <= k < 48 => LayoutFloat(fi, fj, h00, h10, h11, h01, n1, n2, k))
  }

  ghost predicate IsLattice(lattice: array2<real>)
  {
    lattice.Length0 == LATTICE_SIZE && lattice.Length1 == LATTICE_SIZE
  }

  /** The floats quad (i, j) of `lattice` contributes to the buffer: its
      initialiser at local position (i, j) with the emitted normals. */
  function Quad(lattice: array2<real>, i: nat, j: nat): (q: seq<real>)
    reads lattice
    requires IsLattice(lattice) && i < CELL_SIZE && j < CELL_SIZE
    ensures |q| == FLOATS_PER_QUAD
  {
    var h00, h10 := lattice[i, j], lattice[i + 1, j];
    var h11, h01 := lattice[i + 1, j + 1], lattice[i, j + 1];
    QuadFloats(i as real, j as real, h00, h10, h11, h01, NormalA(h00, h10, h11), NormalB(h00, h01, h11))
  }

  /** The position of slot `n` of the buffer: quad row, quad column, and the
      float within the quad (480 = FLOATS_PER_ROW, 48 = FLOATS_PER_QUAD). */
  function QuadRow(n: nat): nat { n / 480 }

  function QuadColumn(n: nat): nat { (n % 480) / 48 }

  function QuadOffset(n: nat): nat { n % 48 }

  /** The start of quad (i, j) in the buffer: FLOATS_PER_QUAD times the quad's
      row-major index in the CELL_SIZE x CELL_SIZE grid. */
  function QuadStart(i: nat, j: nat): nat { 48 * (10 * i + j) }

  /** Slot `n` of the intended buffer: float QuadOffset(n) of quad
      (QuadRow(n), QuadColumn(n)). */
  function Slot(lattice: array2<real>, n: nat): real
    reads lattice
    requires IsLattice(lattice) && n < BUFFER_LENGTH
  {
    Quad(lattice, QuadRow(n), QuadColumn(n))[QuadOffset(n)]
  }

  /** The intended vertex buffer: every quad's 48 floats, row by row. */
  ghost function Buffer(lattice: array2<real>): (b: seq<real>)
    reads lattice
    requires IsLattice(lattice)
    ensures |b| == BUFFER_LENGTH
    ensures forall n :: 0 <= n < BUFFER_LENGTH ==> b[n] == Slot(lattice, n)
  {
    seq(BUFFER_LENGTH, n reads lattice requires 0 <= n < BUFFER_LENGTH => Slot(lattice, n))
  }

  /** Quad (i, j) owns the slots QuadStart(i, j) .. QuadStart(i, j) + 47,
      and slot QuadStart(i, j) + k holds its float k. */
  lemma SlotOfQuad(i: nat, j: nat, k: nat)
    requires i < CELL_SIZE && j < CELL_SIZE && k < FLOATS_PER_QUAD
    ensures QuadStart(i, j) + k < BUFFER_LENGTH
    ensures QuadRow(QuadStart(i, j) + k) == i
    ensures QuadColumn(QuadStart(i, j) + k) == j
    ensures QuadOffset(QuadStart(i, j) + k) == k
  {
    var n := QuadStart(i, j) + k;
    assert n == 480 * i + (48 * j + k);
    assert 48 * j + k < 480;
    assert n / 480 == i;
    assert n % 480 == 48 * j + k;
  }

  /** Every slot of the buffer belongs to exactly one quad: its row, column
      and offset locate it, and no other quad's range reaches it. */
  lemma SlotOwner(n: nat, i: nat, j: nat, k: nat)
    requires n < BUFFER_LENGTH
    requires i < CELL_SIZE && j < CELL_SIZE && k < FLOATS_PER_QUAD
    ensures QuadRow(n) < CELL_SIZE && QuadColumn(n) < CELL_SIZE && QuadOffset(n) < FLOATS_PER_QUAD
    ensures n == QuadStart(QuadRow(n), QuadColumn(n)) + QuadOffset(n)
    ensures n == QuadStart(i, j) + k <==> i == QuadRow(n) && j == QuadColumn(n) && k == QuadOffset(n)
  {
    assert n == 480 * (n / 480) + n % 480;
    assert n % 480 == 48 * ((n % 480) / 48) + (n % 480) % 48;
    assert (n % 480) % 48 == n % 48;
    SlotOfQuad(i, j, k);
  }

  /** The body of the second nested loop for quad (i, j): the edge vectors
      from corner (i, j), the two normals, each negated when its y is
      negative, and the 48 floats of the quad's six vertices. */
  method QuadTriangles(lattice: array2<real>, i: nat, j: nat) returns (triangles: seq<real>)
    requires IsLattice(lattice) && i < CELL_SIZE && j < CELL_SIZE
    ensures triangles == Quad(lattice, i, j)
  {
    var fi, fj := i as real * QUAD_SCALE, j as real * QUAD_SCALE;
    var h00, h10 := lattice[i, j], lattice[i + 1, j];
    var h11, h01 := lattice[i + 1, j + 1], lattice[i, j + 1];
    var diag, right, up := Diag(h00, h11), Right(h00, h10), Up(h00, h01);
    var norm1 := Cross(diag, right);
    if norm1.y < 0.0 { norm1 := Negate(norm1); }
    var norm2 := Cross(diag, up);
    if norm2.y < 0.0 { norm2 := Negate(norm2); }
    NormalFlips(h00, h10, h11, h01);
    assert fi == i as real && fj == j as real;
    triangles := QuadFloats(fi, fj, h00, h10, h11, h01, norm1, norm2);
  }

  /** The innermost loop: copies the 48 floats of one quad to the buffer
      from index `ti` on, leaving every other slot as it was. */
  method CopyQuad(data: array<real>, ti: nat, triangles: seq<real>)
    requires |triangles| == FLOATS_PER_QUAD && ti + FLOATS_PER_QUAD <= data.Length
    modifies data
    ensures forall n :: 0 <= n < data.Length && !(ti <= n < ti + FLOATS_PER_QUAD) ==> data[n] == old(data[n])
    ensures forall k :: 0 <= k < FLOATS_PER_QUAD ==> data[ti + k] == triangles[k]
  {
    var k := 0;
    while k < FLOATS_PER_QUAD
      invariant 0 <= k <= FLOATS_PER_QUAD
      invariant forall n :: 0 <= n < data.Length && !(ti <= n < ti + k) ==> data[n] == old(data[n])
      invariant forall m :: 0 <= m < k ==> data[ti + m] == triangles[m]
    {
      data[ti + k] := triangles[k];
      k := k + 1;
    }
  }

  /** One step of the inner loop of AssembleBuffer: once the floats of quad
      (i, j) are copied in at QuadStart(i, j), the buffer agrees with Slot on
      every slot up to the end of that quad. */
  lemma QuadCopied(lattice: array2<real>, data: array<real>, i: nat, j: nat)
    requires IsLattice(lattice)
    requires i < CELL_SIZE && j < CELL_SIZE && data.Length == BUFFER_LENGTH
    requires forall n :: 0 <= n < QuadStart(i, j) ==> data[n] == Slot(lattice, n)
    requires forall k :: 0 <= k < FLOATS_PER_QUAD ==> data[QuadStart(i, j) + k] == Quad(lattice, i, j)[k]
    ensures forall n :: 0 <= n < QuadStart(i, j) + FLOATS_PER_QUAD ==> data[n] == Slot(lattice, n)
  {
    var ti := QuadStart(i, j);
    forall n | ti <= n < ti + FLOATS_PER_QUAD
      ensures data[n] == Slot(lattice, n)
    {
      SlotOfQuad(i, j, n - ti);
    }
  }

  /** The second nested loop of the TerrainCell constructor: the floats of
      every quad, row by row, copied to the buffer at the running index `ti`,
      which advances by 48 per quad. */
  method AssembleBuffer(lattice: array2<real>) returns (data: array<real>)
    requires IsLattice(lattice)
    ensures fresh(data) && data.Length == BUFFER_LENGTH
    ensures forall n :: 0 <= n < BUFFER_LENGTH ==> data[n] == Slot(lattice, n)
  {
    data := new real[BUFFER_LENGTH];
    var ti := 0;
    var i := 0;
    while i < CELL_SIZE
      invariant 0 <= i <= CELL_SIZE
      invariant ti == 480 * i
      invariant forall n :: 0 <= n < ti ==> data[n] == Slot(lattice, n)
    {
      var j := 0;
      while j < CELL_SIZE
        invariant 0 <= j <= CELL_SIZE
        invariant ti == QuadStart(i, j)
        invariant forall n :: 0 <= n < ti ==> data[n] == Slot(lattice, n)
      {
        var triangles := QuadTriangles(lattice, i, j);
        CopyQuad(data, ti, triangles);
        QuadCopied(lattice, data, i, j);
        ti := ti + FLOATS_PER_QUAD;
        j := j + 1;
      }
      i := i + 1;
    }
  }

  // ---------------------------------------------------------------------
  // What each vertex of the buffer holds

  /** Vertex t of quad (i, j) sits at the local position of its lattice
      corner, with that corner's height as its y, and carries the corner
      offsets as its texture coordinate. */
  lemma QuadVertex(lattice: array2<real>, i: nat, j: nat, t: nat)
    requires IsLattice(lattice) && i < CELL_SIZE && j < CELL_SIZE && t < VERTICES_PER_QUAD
    ensures Quad(lattice, i, j)[8 * t] == (i + CornerI(t)) as real
    ensures Quad(lattice, i, j)[8 * t + 1] == lattice[i + CornerI(t), j + CornerJ(t)]
    ensures Quad(lattice, i, j)[8 * t + 2] == (j + CornerJ(t)) as real
    ensures Quad(lattice, i, j)[8 * t + 6] == CornerI(t) as real
    ensures Quad(lattice, i, j)[8 * t + 7] == CornerJ(t) as real
  {
    assert (8 * t) / 8 == t && (8 * t) % 8 == 0;
    assert (8 * t + 1) / 8 == t && (8 * t + 1) % 8 == 1;
    assert (8 * t + 2) / 8 == t && (8 * t + 2) % 8 == 2;
    assert (8 * t + 6) / 8 == t && (8 * t + 6) % 8 == 6;
    assert (8 * t + 7) / 8 == t && (8 * t + 7) % 8 == 7;
  }

  /** Vertex v of the whole buffer (0 <= v < 600) belongs to quad
      (v / 60, (v / 6) % 10) as its vertex v % 6, and its y is the height
      of that vertex's lattice corner. */
  lemma BufferVertexHeight(lattice: array2<real>, v: nat)
    requires IsLattice(lattice) && v < VERTEX_COUNT
    ensures 8 * v + 1 < BUFFER_LENGTH
    ensures Slot(lattice, 8 * v + 1)
            == lattice[v / 60 + CornerI(v % 6), (v / 6) % 10 + CornerJ(v % 6)]
  {
    var i, j, t := v / 60, (v / 6) % 10, v % 6;
    assert v == 60 * i + 6 * j + t;
    assert 8 * v + 1 == QuadStart(i, j) + (8 * t + 1);
    SlotOfQuad(i, j, 8 * t + 1);
    QuadVertex(lattice, i, j, t);
  }

  /** The position of vertex t of a quad, as the buffer holds it. */
  function VertexPosition(q: seq<real>, t: nat): Vec3
    requires |q| == FLOATS_PER_QUAD && t < VERTICES_PER_QUAD
  {
    var b := 8 * t;
    Vec3(q[b], q[b + 1], q[b + 2])
  }

  /** The normal of vertex t of a quad, as the buffer holds it. */
  function VertexNormal(q: seq<real>, t: nat): Vec3
    requires |q| == FLOATS_PER_QUAD && t < VERTICES_PER_QUAD
  {
    var b := 8 * t;
    Vec3(q[b + 3], q[b + 4], q[b + 5])
  }

  /** Each emitted normal is perpendicular to both edges of the triangle it is
      attached to, points up (y = 1), and is shared by that triangle's three
      vertices. */
  lemma QuadNormalsFitTriangles(lattice: array2<real>, i: nat, j: nat)
    requires IsLattice(lattice) && i < CELL_SIZE && j < CELL_SIZE
    ensures var q := Quad(lattice, i, j);
            && VertexNormal(q, 0) == VertexNormal(q, 1) == VertexNormal(q, 2)
            && VertexNormal(q, 3) == VertexNormal(q, 4) == VertexNormal(q, 5)
            && VertexNormal(q, 0).y == 1.0 && VertexNormal(q, 3).y == 1.0
            && Dot(VertexNormal(q, 0), Sub(VertexPosition(q, 1), VertexPosition(q, 0))) == 0.0
            && Dot(VertexNormal(q, 0), Sub(VertexPosition(q, 2), VertexPosition(q, 0))) == 0.0
            && Dot(VertexNormal(q, 3), Sub(VertexPosition(q, 4), VertexPosition(q, 3))) == 0.0
            && Dot(VertexNormal(q, 3), Sub(VertexPosition(q, 5), VertexPosition(q, 3))) == 0.0
  {
    var h00, h10 := lattice[i, j], lattice[i + 1, j];
    var h11, h01 := lattice[i + 1, j + 1], lattice[i, j + 1];
    var q := Quad(lattice, i, j);
    var fi, fj := i as real, j as real;
    assert VertexPosition(q, 0) == Vec3(fi, h00, fj);
    assert VertexPosition(q, 3) == Vec3(fi, h00, fj);
    assert Sub(VertexPosition(q, 1), VertexPosition(q, 0)) == Right(h00, h10);
    assert Sub(VertexPosition(q, 2), VertexPosition(q, 0)) == Diag(h00, h11);
    assert Sub(VertexPosition(q, 4), VertexPosition(q, 3)) == Up(h00, h01);
    assert Sub(VertexPosition(q, 5), VertexPosition(q, 3)) == Diag(h00, h11);
    assert VertexNormal(q, 0) == NormalA(h00, h10, h11);
    assert VertexNormal(q, 3) == NormalB(h00, h01, h11);
  }

  // ---------------------------------------------------------------------
  // The attribute layout the buffer is meant to be read with

  /** Position, normal and texture coordinate as 4-byte floats: the layout
      of the 8-float vertex above (the constructor's call passes none). */
  const TERRAIN_ATTRIBUTES: seq<VertexAttribute> :=
    [VertexAttribute(GL_FLOAT, 3, 4), VertexAttribute(GL_FLOAT, 3, 4), VertexAttribute(GL_FLOAT, 2, 4)]

  /** With that layout a vertex is 8 elements and 32 bytes, the attributes
      start at bytes 0, 12 and 24, and the upload of 600 vertices is exactly
      the 4800-float buffer. */
  lemma TerrainLayoutMatchesBuffer()
    ensures TotalElements(TERRAIN_ATTRIBUTES) == FLOATS_PER_VERTEX
    ensures VertexBytes(TERRAIN_ATTRIBUTES) == 4 * FLOATS_PER_VERTEX
    ensures Offset(TERRAIN_ATTRIBUTES, 0) == 0
    ensures Offset(TERRAIN_ATTRIBUTES, 1) == 12
    ensures Offset(TERRAIN_ATTRIBUTES, 2) == 24
    ensures VertexBytes(TERRAIN_ATTRIBUTES) * VERTEX_COUNT == 4 * BUFFER_LENGTH
  {
    var a := TERRAIN_ATTRIBUTES;
    assert a[..0] == [];
    assert a[..1] == [a[0]] && a[..1][..0] == [];
    assert a[..2] == [a[0], a[1]] && a[..2][..1] == a[..1];
    assert a[..3] == a && a[..3][..2] == a[..2];
    assert a[0].numElements * a[0].sizeOfType == 12;
    assert a[1].numElements * a[1].sizeOfType == 12;
    assert a[2].numElements * a[2].sizeOfType == 8;
    assert TotalElements(a[..1]) == 3;
    assert TotalElements(a[..2]) == 6;
    assert VertexBytes(a[..1]) == 12;
    assert VertexBytes(a[..2]) == 24;
    assert VertexBytes(a) == 32;
    UniformStrideIsVertexSize(a, 4);
  }
}
