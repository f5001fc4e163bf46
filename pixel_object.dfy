/**
 * A renderable object (source/PixelObject.cpp): its vertex and index lists,
 * the two per-object transform blocks, the texture list and the indices
 * naming its texture and graphics pipeline.
 */
module Objects {
  import opened Glm
  import opened Layout

  /** One vertex as the initialisers in PixelObject.cpp build it. */
  datatype Vertex = Vertex(position: Vec4, normal: Vec4, color: Vec4, texCoord: Vec2)

  /** `uint32_t`, the element type of the index list. */
  type Index = bv32

  /** `sizeof(Vertex)`: three `glm::vec4` and one `glm::vec2`, 14 floats, no padding. */
  const VERTEX_SIZE: nat := 56

  /** `sizeof(uint32_t)`. */
  const INDEX_SIZE: nat := WORD_SIZE

  /** The per-object block packed into the dynamic uniform buffer. */
  datatype DynamicUBObj = DynamicUBObj(M: Mat4, MinvT: Mat4)

  /** The per-object block pushed as push constants. */
  datatype PObj = PObj(M: Mat4, MinvT: Mat4)

  /** `sizeof(DynamicUBObj)`. */
  const DYNAMIC_UBO_SIZE: nat := MAT4_PAIR_SIZE

  /** A texture attached to an object; its device image is not modelled. */
  datatype PixelImage = PixelImage(width: nat, height: nat, isSwapChainImage: bool, name: string)

  /** The floats of one vertex in declaration order. */
  function VertexWords(v: Vertex): (r: seq<bv32>)
    ensures |r| == 14
  {
    Vec4Words(v.position) + Vec4Words(v.normal) + Vec4Words(v.color) + Vec2Words(v.texCoord)
  }

  /** The bytes of `vertices.data()`: the vertices one after another. */
  function VerticesBytes(vertices: seq<Vertex>): (r: seq<byte>)
    ensures |r| == VERTEX_SIZE * |vertices|
  {
    if vertices == [] then [] else WordsBytes(VertexWords(vertices[0])) + VerticesBytes(vertices[1..])
  }

  /** The byte image of a `DynamicUBObj`, as `memcpy` copies it. */
  function DynamicUBObjBytes(u: DynamicUBObj): (r: seq<byte>)
    ensures |r| == DYNAMIC_UBO_SIZE
  {
    Mat4PairBytes(u.M, u.MinvT)
  }

  /** Reads a `DynamicUBObj` back from its bytes, as the vertex shader does. */
  function DynamicUBObjFromBytes(b: seq<byte>): DynamicUBObj
    requires |b| == DYNAMIC_UBO_SIZE
  {
    var (M, MinvT) := Mat4PairFromBytes(b);
    DynamicUBObj(M, MinvT)
  }

  /** Reading a block back from its bytes yields the block. */
  lemma DynamicUBObjRoundTrip(u: DynamicUBObj)
    ensures DynamicUBObjFromBytes(DynamicUBObjBytes(u)) == u
  {
    Mat4PairRoundTrip(u.M, u.MinvT);
  }

  /** The four corners of the unit square built by `Square()`, in index order 0..3. */
  function SquareVertices(): (r: seq<Vertex>)
    ensures |r| == 4
    ensures forall k :: 0 <= k < 4 ==> r[k].normal == Vec4(FLOAT_ZERO, FLOAT_ZERO, FLOAT_ONE, FLOAT_ZERO)
    ensures forall k :: 0 <= k < 4 ==> r[k].position.z == FLOAT_ZERO && r[k].position.w == FLOAT_ONE
  {
    var n := Vec4(FLOAT_ZERO, FLOAT_ZERO, FLOAT_ONE, FLOAT_ZERO);
    [ Vertex(Vec4(FLOAT_NEG_ONE, FLOAT_NEG_ONE, FLOAT_ZERO, FLOAT_ONE), n,
             Vec4(FLOAT_ONE, FLOAT_ONE, FLOAT_ZERO, FLOAT_ONE), Vec2(FLOAT_ZERO, FLOAT_ONE)),
      Vertex(Vec4(FLOAT_ONE, FLOAT_NEG_ONE, FLOAT_ZERO, FLOAT_ONE), n,
             Vec4(FLOAT_ZERO, FLOAT_ONE, FLOAT_ONE, FLOAT_ONE), Vec2(FLOAT_ONE, FLOAT_ONE)),
      Vertex(Vec4(FLOAT_ONE, FLOAT_ONE, FLOAT_ZERO, FLOAT_ONE), n,
             Vec4(FLOAT_ONE, FLOAT_ZERO, FLOAT_ONE, FLOAT_ONE), Vec2(FLOAT_ONE, FLOAT_ZERO)),
      Vertex(Vec4(FLOAT_NEG_ONE, FLOAT_ONE, FLOAT_ZERO, FLOAT_ONE), n,
             Vec4(FLOAT_ONE, FLOAT_ZERO, FLOAT_ZERO, FLOAT_ONE), Vec2(FLOAT_ZERO, FLOAT_ZERO)) ]
  }

  /** The two triangles (1, 2, 0) and (2, 3, 0) of the square. */
  function SquareIndices(): (r: seq<Index>)
    ensures |r| == 6
    ensures forall k :: 0 <= k < |r| ==> r[k] as int < |SquareVertices()|
    ensures forall v: Index :: v as int < |SquareVertices()| ==> v in r
  {
    [1, 2, 0, 2, 3, 0]
  }

  class PixelObject {
    var vertices: seq<Vertex>
    var indices: seq<Index>
    var texID: int
    var graphicsPipelineIndex: int
    var dynamicUBO: DynamicUBObj
    var pushObj: PObj
    var textures: seq<PixelImage>

    /** `PixelObject(vertices, indices)`; both transform blocks start as {identity, zero}. */
    constructor (vertices: seq<Vertex>, indices: seq<Index>)
      ensures this.vertices == vertices && this.indices == indices
      ensures VertexCount() == |vertices| && IndexCount() == |indices|
      ensures dynamicUBO == DynamicUBObj(Identity(), Zero())
      ensures pushObj == PObj(Identity(), Zero())
      ensures textures == []
    {
      this.vertices := vertices;
      this.indices := indices;
      dynamicUBO := DynamicUBObj(Identity(), Zero());
      pushObj := PObj(Identity(), Zero());
      textures := [];
    }

    /** The implicit copy constructor: `std::vector<PixelObject>` stores objects by value. */
    constructor Copy(other: PixelObject)
      ensures SameAs(other)
    {
      vertices := other.vertices;
      indices := other.indices;
      texID := other.texID;
      graphicsPipelineIndex := other.graphicsPipelineIndex;
      dynamicUBO := other.dynamicUBO;
      pushObj := other.pushObj;
      textures := other.textures;
    }

    /** Every field of this object equals the same field of `other`. */
    predicate SameAs(other: PixelObject)
      reads this, other
    {
      && vertices == other.vertices
      && indices == other.indices
      && texID == other.texID
      && graphicsPipelineIndex == other.graphicsPipelineIndex
      && dynamicUBO == other.dynamicUBO
      && pushObj == other.pushObj
      && textures == other.textures
    }

    /** The unit square: four vertices, two triangles, no texture (-1), pipeline 0. */
    static method Square() returns (o: PixelObject)
      ensures fresh(o)
      ensures o.vertices == SquareVertices() && o.indices == SquareIndices()
      ensures o.texID == -1 && o.graphicsPipelineIndex == 0
      ensures o.dynamicUBO == DynamicUBObj(Identity(), Zero()) && o.pushObj == PObj(Identity(), Zero())
      ensures o.textures == []
    {
      o := new PixelObject(SquareVertices(), SquareIndices());
      o.SetTexID(-1);
      o.SetGraphicsPipelineIndex(0);
    }

    /** `Cube()` currently builds exactly the same object as `Square()`. */
    static method Cube() returns (o: PixelObject)
      ensures fresh(o)
      ensures o.vertices == SquareVertices() && o.indices == SquareIndices()
      ensures o.texID == -1 && o.graphicsPipelineIndex == 0
      ensures o.dynamicUBO == DynamicUBObj(Identity(), Zero()) && o.pushObj == PObj(Identity(), Zero())
      ensures o.textures == []
    {
      o := new PixelObject(SquareVertices(), SquareIndices());
      o.SetTexID(-1);
      o.SetGraphicsPipelineIndex(0);
    }

    method SetTexID(id: int)
      modifies this`texID
      ensures texID == id
    {
      texID := id;
    }

    method SetGraphicsPipelineIndex(index: int)
      modifies this`graphicsPipelineIndex
      ensures graphicsPipelineIndex == index
    {
      graphicsPipelineIndex := index;
    }

    function VertexCount(): (r: nat)
      reads this
      ensures r == |vertices|
    {
      |vertices|
    }

    /** The vertex buffer holds exactly the byte image of the vertex list. */
    function VertexBufferSize(): (r: nat)
      reads this
      ensures r == |VerticesBytes(vertices)|
    {
      VERTEX_SIZE * |vertices|
    }

    function IndexCount(): (r: nat)
      reads this
      ensures r == |indices|
    {
      |indices|
    }

    /** The index buffer holds exactly the byte image of the index list. */
    function IndexBufferSize(): (r: nat)
      reads this
      ensures r == |WordsBytes(indices)|
    {
      INDEX_SIZE * |indices|
    }

    method SetDynamicUBObj(data: DynamicUBObj)
      modifies this`dynamicUBO
      ensures GetDynamicUBObj() == data
    {
      dynamicUBO := data;
    }

    function GetDynamicUBObj(): DynamicUBObj
      reads this
    {
      dynamicUBO
    }

    method SetPushObj(data: PObj)
      modifies this`pushObj
      ensures GetPushObj() == data
    {
      pushObj := data;
    }

    function GetPushObj(): PObj
      reads this
    {
      pushObj
    }

    /**
     * Replaces the model matrix. The inverse-transpose is recomputed with
     * floating-point arithmetic that is not modelled, so it is left unspecified.
     */
    method SetTransform(m: Mat4)
      modifies this`pushObj
      ensures pushObj.M == m
    {
      var inverseTranspose: Mat4 := *;
      pushObj := PObj(m, inverseTranspose);
    }

    /** Appends one texture and makes it the object's texture (index 0). */
    method AddTexture(image: PixelImage)
      modifies this`textures, this`texID
      ensures textures == old(textures) + [image]
      ensures texID == 0
    {
      SetTexID(0);
      textures := textures + [image];
    }
  }
}
