/** The vertex-attribute layout a Mesh configures when it is built, and the
    draw call of its render(). The graphics calls are recorded as a trace of
    values instead of being issued. */
module MeshLayout {

  /** `GL_FLOAT` and `GL_TRIANGLES` from the OpenGL headers. */
  const GL_FLOAT: int := 0x1406
  const GL_TRIANGLES: int := 0x0004

  /** One attribute of a vertex: its element type, how many elements it has
      and the byte size of one element. */
  datatype VertexAttribute = VertexAttribute(glType: int, numElements: nat, sizeOfType: nat)

  /** The graphics calls the Mesh constructor and render() issue. */
  datatype GlCall =
    | VertexAttribPointer(index: nat, size: nat, glType: int, normalized: bool, stride: nat, offset: nat)
    | EnableVertexAttribArray(index: nat)
    | DrawArrays(mode: int, first: nat, count: int)

  /** The number of elements in one vertex: the sum of `numElements`. */
  function TotalElements(attribs: seq<VertexAttribute>): nat
  {
    if attribs == [] then 0
    else TotalElements(attribs[..|attribs| - 1]) + attribs[|attribs| - 1].numElements
  }

  /** The byte size of one vertex: the sum of `numElements * sizeOfType`. */
  function VertexBytes(attribs: seq<VertexAttribute>): nat
  {
    if attribs == [] then 0
    else VertexBytes(attribs[..|attribs| - 1]) + attribs[|attribs| - 1].numElements * attribs[|attribs| - 1].sizeOfType
  }

  /** The byte offset of attribute `i`: the bytes of the attributes before it. */
  function Offset(attribs: seq<VertexAttribute>, i: nat): nat
    requires i <= |attribs|
  {
    VertexBytes(attribs[..i])
  }

  /** The calls for the first `k` attributes, with `total` the element count
      used for the stride: a pointer call, then the enable call, for each. */
  function AttribCalls(attribs: seq<VertexAttribute>, total: nat, k: nat): seq<GlCall>
    requires k <= |attribs|
  {
    if k == 0 then []
    else
      var a := attribs[k - 1];
      AttribCalls(attribs, total, k - 1)
      + [VertexAttribPointer(k - 1, a.numElements, a.glType, false, total * a.sizeOfType, Offset(attribs, k - 1)),
         EnableVertexAttribArray(k - 1)]
  }

  /** The accumulating loops of the Mesh constructor: the element total, the
      pointer and enable calls for every attribute in order, and the final
      byte offset, which is the byte size of one vertex. */
  method ConfigureAttributes(attribs: seq<VertexAttribute>)
    returns (numElements: nat, calls: seq<GlCall>, byteOffset: nat)
    ensures numElements == TotalElements(attribs)
    ensures calls == AttribCalls(attribs, numElements, |attribs|)
    ensures byteOffset == VertexBytes(attribs)
  {
    numElements := 0;
    var k := 0;
    while k < |attribs|
      invariant k <= |attribs|
      invariant numElements == TotalElements(attribs[..k])
    {
      assert attribs[..k + 1][..k] == attribs[..k];
      numElements := numElements + attribs[k].numElements;
      k := k + 1;
    }
    assert attribs[..k] == attribs;
    byteOffset := 0;
    calls := [];
    var i := 0;
    while i < |attribs|
      invariant i <= |attribs|
      invariant byteOffset == Offset(attribs, i)
      invariant calls == AttribCalls(attribs, numElements, i)
    {
      assert attribs[..i + 1][..i] == attribs[..i];
      calls := calls + [VertexAttribPointer(i, attribs[i].numElements, attribs[i].glType, false,
                                            numElements * attribs[i].sizeOfType, byteOffset)];
      byteOffset := byteOffset + attribs[i].numElements * attribs[i].sizeOfType;
      calls := calls + [EnableVertexAttribArray(i)];
      i := i + 1;
    }
    assert attribs[..i] == attribs;
  }

  /** The first attribute starts at byte 0, and each next one starts where
      the previous one ends. */
  lemma OffsetStep(attribs: seq<VertexAttribute>, i: nat)
    requires i < |attribs|
    ensures Offset(attribs, 0) == 0
    ensures Offset(attribs, i + 1) == Offset(attribs, i) + attribs[i].numElements * attribs[i].sizeOfType
  {
    assert attribs[..i + 1][..i] == attribs[..i];
  }

  /** Offsets never decrease along the attribute list. */
  lemma {:induction false} OffsetsMonotone(attribs: seq<VertexAttribute>, i: nat, j: nat)
    requires i <= j <= |attribs|
    ensures Offset(attribs, i) <= Offset(attribs, j)
    decreases j - i
  {
    if i < j {
      OffsetStep(attribs, i);
      OffsetsMonotone(attribs, i + 1, j);
    }
  }

  /** The last offset is the byte size of a whole vertex. */
  lemma OffsetOfEnd(attribs: seq<VertexAttribute>)
    ensures Offset(attribs, |attribs|) == VertexBytes(attribs)
  {
    assert attribs[..|attribs|] == attribs;
  }

  /** The layout trace: two calls per attribute, the pointer call for
      attribute `i` at position 2i (its stride `total * sizeOfType`, its offset
      the bytes before it) and the enable call at position 2i + 1. */
  lemma {:induction false} AttribCallsAt(attribs: seq<VertexAttribute>, total: nat, k: nat, i: nat)
    requires k <= |attribs| && i < k
    ensures |AttribCalls(attribs, total, k)| == 2 * k
    ensures AttribCalls(attribs, total, k)[2 * i]
            == VertexAttribPointer(i, attribs[i].numElements, attribs[i].glType, false,
                                   total * attribs[i].sizeOfType, Offset(attribs, i))
    ensures AttribCalls(attribs, total, k)[2 * i + 1] == EnableVertexAttribArray(i)
  {
    AttribCallsLength(attribs, total, k - 1);
    if i < k - 1 {
      AttribCallsAt(attribs, total, k - 1, i);
    }
  }

  lemma {:induction false} AttribCallsLength(attribs: seq<VertexAttribute>, total: nat, k: nat)
    requires k <= |attribs|
    ensures |AttribCalls(attribs, total, k)| == 2 * k
  {
    if k > 0 {
      AttribCallsLength(attribs, total, k - 1);
    }
  }

  /** Each attribute index below the attribute count is enabled exactly once:
      the only enable call for index `i` is the one at position 2i + 1. */
  lemma EnabledExactlyOnce(attribs: seq<VertexAttribute>, total: nat, i: nat, m: nat)
    requires i < |attribs|
    requires m < |AttribCalls(attribs, total, |attribs|)|
    ensures AttribCalls(attribs, total, |attribs|)[m] == EnableVertexAttribArray(i) <==> m == 2 * i + 1
  {
    var n := |attribs|;
    AttribCallsLength(attribs, total, n);
    var j := m / 2;
    AttribCallsAt(attribs, total, n, j);
    AttribCallsAt(attribs, total, n, i);
  }

  /** When every attribute has the same element size `t`, the stride
      `total * t` the constructor passes is the byte size of a vertex. */
  lemma {:induction false} UniformStrideIsVertexSize(attribs: seq<VertexAttribute>, t: nat)
    requires forall k :: 0 <= k < |attribs| ==> attribs[k].sizeOfType == t
    ensures TotalElements(attribs) * t == VertexBytes(attribs)
  {
    if attribs != [] {
      var init := attribs[..|attribs| - 1];
      UniformStrideIsVertexSize(init, t);
    }
  }

  /** With element sizes that differ the strides cannot all be the vertex
      size: when a vertex has any elements and attributes i and j have
      element sizes that differ, the stride `total * sizeOfType` of one of
      them is not the byte size of a vertex. */
  lemma MixedSizesStrideDiffers(attribs: seq<VertexAttribute>, i: nat, j: nat)
    requires i < |attribs| && j < |attribs|
    requires attribs[i].sizeOfType != attribs[j].sizeOfType
    requires TotalElements(attribs) > 0
    ensures TotalElements(attribs) * attribs[i].sizeOfType != VertexBytes(attribs)
            || TotalElements(attribs) * attribs[j].sizeOfType != VertexBytes(attribs)
  {
    var t, si, sj := TotalElements(attribs), attribs[i].sizeOfType, attribs[j].sizeOfType;
    if si < sj {
      StrideLess(t, si, sj);
    } else {
      StrideLess(t, sj, si);
    }
  }

  lemma StrideLess(t: nat, a: nat, b: nat)
    requires t > 0 && a < b
    ensures t * a < t * b
  {
    assert t * b == t * a + t * (b - a);
  }

  /** For instance, one 4-byte and one 1-byte element give a stride of 8 for
      the first attribute while a vertex takes 5 bytes. */
  lemma MixedSizesExample()
    ensures var attribs := [VertexAttribute(GL_FLOAT, 1, 4), VertexAttribute(0x1401, 1, 1)];
            TotalElements(attribs) * attribs[0].sizeOfType == 8 && VertexBytes(attribs) == 5
  {
    var attribs := [VertexAttribute(GL_FLOAT, 1, 4), VertexAttribute(0x1401, 1, 1)];
    assert attribs[..1] == [attribs[0]];
    assert attribs[..1][..0] == [];
    assert TotalElements(attribs[..1]) == 1;
    assert VertexBytes(attribs[..1]) == 4;
    assert TotalElements(attribs) == 2;
  }

  /** A mesh: the vertex count it draws, the layout it configured and the
      byte count it uploaded (`byteOffset * numVertices`). `data` is the
      vertex data handed to the upload. */
  class Mesh {
    const numVertices: int
    const layout: seq<GlCall>
    const uploadBytes: int
    const data: seq<real>

    constructor (data: seq<real>, numVertices: int, attribSet: seq<VertexAttribute>)
      ensures this.numVertices == numVertices
      ensures this.data == data
      ensures layout == AttribCalls(attribSet, TotalElements(attribSet), |attribSet|)
      ensures uploadBytes == VertexBytes(attribSet) * numVertices
    {
      var numElements, calls, byteOffset := ConfigureAttributes(attribSet);
      this.layout := calls;
      this.uploadBytes := byteOffset * numVertices;
      this.numVertices := numVertices;
      this.data := data;
    }

    /** render(): draws the stored vertex count as triangles. */
    method Render() returns (call: GlCall)
      ensures call == DrawArrays(GL_TRIANGLES, 0, numVertices)
    {
      call := DrawArrays(GL_TRIANGLES, 0, numVertices);
    }
  }
}
