/** Mesh: a GPU vertex array object with its vertex and face counts and an
    append-only list of textures, and the fixed unit-square geometry. The GPU upload
    itself is reduced to the vertex array name the GL context hands out. */
module Meshes {
  import opened Glm
  import opened Gl

  /** One vertex as uploaded: position, normal, texture coordinates. */
  datatype Vertex3D = Vertex3D(x: real, y: real, z: real, nx: real, ny: real, nz: real, u: real, v: real)

  /** The eight scalars of a vertex in memory order, as glBufferData copies them. */
  function Scalars(w: Vertex3D): (s: seq<real>)
    ensures |s| == 8 && FromScalars(s) == w
  {
    [w.x, w.y, w.z, w.nx, w.ny, w.nz, w.u, w.v]
  }

  /** Reads a vertex back from eight consecutive scalars. */
  function FromScalars(s: seq<real>): Vertex3D
    requires |s| == 8
  {
    Vertex3D(s[0], s[1], s[2], s[3], s[4], s[5], s[6], s[7])
  }

  /** Eight scalars read as a vertex and written back are unchanged: the layout
      has no padding and no other fields. */
  lemma ScalarsRoundTrip(s: seq<real>)
    requires |s| == 8
    ensures Scalars(FromScalars(s)) == s
  {
  }

  /** A texture as the mesh uses it: its GPU name and the sampler uniform it feeds. */
  datatype Texture = Texture(textureId: u32, samplerName: string)

  /** The whole state of a Mesh. */
  datatype MeshData = MeshData(vao: u32, textures: seq<Texture>, vertexCount: u32, faceCount: u32)

  /** The constructor reads vertices[0] and faces[0] to upload the buffers, so
      both lists must be non-empty. */
  predicate UploadDefined(vertices: seq<Vertex3D>, faces: seq<u32>) {
    |vertices| > 0 && |faces| > 0
  }

  /** The state a Mesh has right after construction. */
  function Built(vertices: seq<Vertex3D>, faces: seq<u32>, textures: seq<Texture>, vao: u32): (m: MeshData)
    ensures m.vao == vao && m.textures == textures
    ensures |vertices| < U32Modulus ==> m.vertexCount as int == |vertices|
    ensures |faces| < U32Modulus ==> m.faceCount as int == |faces|
  {
    MeshData(vao, textures, ToU32(|vertices|), ToU32(|faces|))
  }

  /** The three steps that attach texture t to texture unit `unit`. */
  function BindUnit(t: Texture, unit: nat): seq<Event> {
    [SetIntUniform(t.samplerName, unit), ActiveTexture(unit), BindTexture2D(t.textureId)]
  }

  /** The binding steps for the first n textures, unit i for texture i. */
  function TextureBindings(ts: seq<Texture>, n: nat): seq<Event>
    requires n <= |ts|
  {
    if n == 0 then [] else TextureBindings(ts, n - 1) + BindUnit(ts[n - 1], n - 1)
  }

  /** What Mesh::render issues for a mesh in state m. */
  function RenderTrace(m: MeshData): seq<Event> {
    [BindVertexArray(m.vao)]
      + TextureBindings(m.textures, |m.textures|)
      + [DrawTriangles(m.faceCount), BindVertexArray(0), BindTexture2D(0)]
  }

  lemma {:induction false} TextureBindingsAt(ts: seq<Texture>, n: nat)
    requires n <= |ts|
    ensures |TextureBindings(ts, n)| == 3 * n
    ensures forall i | 0 <= i < n ::
      && TextureBindings(ts, n)[3 * i] == SetIntUniform(ts[i].samplerName, i)
      && TextureBindings(ts, n)[3 * i + 1] == ActiveTexture(i)
      && TextureBindings(ts, n)[3 * i + 2] == BindTexture2D(ts[i].textureId)
  {
    if n > 0 {
      TextureBindingsAt(ts, n - 1);
    }
  }

  /** Mesh::render binds the vertex array, then for every texture i in list order
      sets its sampler uniform to i and binds it to unit i, then draws exactly
      faceCount indices once, then unbinds the vertex array and the 2D texture. */
  lemma RenderTraceShape(m: MeshData)
    ensures var tr := RenderTrace(m); var n := |m.textures|;
      && |tr| == 3 * n + 4
      && tr[0] == BindVertexArray(m.vao)
      && (forall i | 0 <= i < n ::
            && tr[3 * i + 1] == SetIntUniform(m.textures[i].samplerName, i)
            && tr[3 * i + 2] == ActiveTexture(i)
            && tr[3 * i + 3] == BindTexture2D(m.textures[i].textureId))
      && tr[3 * n + 1] == DrawTriangles(m.faceCount)
      && tr[3 * n + 2] == BindVertexArray(0)
      && tr[3 * n + 3] == BindTexture2D(0)
      && (forall k | 0 <= k < |tr| :: tr[k].DrawTriangles? <==> k == 3 * n + 1)
  {
    var n := |m.textures|;
    var tb := TextureBindings(m.textures, n);
    var tr := RenderTrace(m);
    TextureBindingsAt(m.textures, n);
    assert tr == [BindVertexArray(m.vao)] + tb + [DrawTriangles(m.faceCount), BindVertexArray(0), BindTexture2D(0)];
    forall k | 1 <= k <= 3 * n ensures tr[k] == tb[k - 1] && !tr[k].DrawTriangles? {
      var i := (k - 1) / 3;
      assert 0 <= i < n;
      assert tb[3 * i].SetIntUniform? && tb[3 * i + 1].ActiveTexture? && tb[3 * i + 2].BindTexture2D?;
      assert k - 1 == 3 * i || k - 1 == 3 * i + 1 || k - 1 == 3 * i + 2;
      assert tr[k] == tb[k - 1];
    }
  }

  /** The unit square's vertices: top-right, bottom-right, bottom-left, top-left. */
  function SquareVertices(): (vs: seq<Vertex3D>)
    ensures |vs| == 4
    ensures forall w <- vs :: w.z == 0.0 && w.nx == 0.0 && w.ny == 0.0 && w.nz == 1.0
    ensures forall w <- vs :: (w.x == 0.5 || w.x == -0.5) && (w.y == 0.5 || w.y == -0.5)
  {
    [ Vertex3D(0.5, 0.5, 0.0, 0.0, 0.0, 1.0, 1.0, 0.0),
      Vertex3D(0.5, -0.5, 0.0, 0.0, 0.0, 1.0, 1.0, 1.0),
      Vertex3D(-0.5, -0.5, 0.0, 0.0, 0.0, 1.0, 0.0, 1.0),
      Vertex3D(-0.5, 0.5, 0.0, 0.0, 0.0, 1.0, 0.0, 0.0) ]
  }

  /** The unit square's two triangles. */
  function SquareFaces(): (fs: seq<u32>)
    ensures |fs| == 6
    ensures forall f <- fs :: f < 4
  {
    [2, 1, 3, 3, 1, 0]
  }

  /** Twice the signed area of triangle abc seen from +Z; positive when a, b, c
      run counter-clockwise. */
  function TwiceSignedArea(a: Vertex3D, b: Vertex3D, c: Vertex3D): real {
    (b.x - a.x) * (c.y - a.y) - (b.y - a.y) * (c.x - a.x)
  }

  /** Triangle t of the square, as its three vertices. */
  function SquareTriangleArea(t: nat): real
    requires t < 2
  {
    var vs, fs := SquareVertices(), SquareFaces();
    TwiceSignedArea(vs[fs[3 * t]], vs[fs[3 * t + 1]], vs[fs[3 * t + 2]])
  }

  /** Both triangles of the square wind counter-clockwise seen from +Z, the side
      its normals face, and each covers half of a 1x1 square (twice its signed
      area is 1). */
  lemma SquareTrianglesCounterClockwise()
    ensures SquareTriangleArea(0) == 1.0
    ensures SquareTriangleArea(1) == 1.0
  {
    var vs, fs := SquareVertices(), SquareFaces();
    assert vs[0] == Vertex3D(0.5, 0.5, 0.0, 0.0, 0.0, 1.0, 1.0, 0.0);
    assert vs[1] == Vertex3D(0.5, -0.5, 0.0, 0.0, 0.0, 1.0, 1.0, 1.0);
    assert vs[2] == Vertex3D(-0.5, -0.5, 0.0, 0.0, 0.0, 1.0, 0.0, 1.0);
    assert vs[3] == Vertex3D(-0.5, 0.5, 0.0, 0.0, 0.0, 1.0, 0.0, 0.0);
    // (2, 1, 3): bottom-left, bottom-right, top-left
    assert fs[0] == 2 && fs[1] == 1 && fs[2] == 3;
    assert SquareTriangleArea(0) == TwiceSignedArea(vs[2], vs[1], vs[3]);
    // (3, 1, 0): top-left, bottom-right, top-right
    assert fs[3] == 3 && fs[4] == 1 && fs[5] == 0;
    assert SquareTriangleArea(1) == TwiceSignedArea(vs[3], vs[1], vs[0]);
  }

  class Mesh {
    var vao: u32
    var textures: seq<Texture>
    var vertexCount: u32
    var faceCount: u32

    function Value(): MeshData
      reads this
    {
      MeshData(vao, textures, vertexCount, faceCount)
    }

    /** Uploads vertices and faces into the vertex array `vao`, which the GL
        context generated for this mesh, and records both counts. */
    constructor (vertices: seq<Vertex3D>, faces: seq<u32>, textures: seq<Texture>, vao: u32)
      requires UploadDefined(vertices, faces)
      ensures Value() == Built(vertices, faces, textures, vao)
    {
      this.vao := vao;
      this.textures := textures;
      this.vertexCount := ToU32(|vertices|);
      this.faceCount := ToU32(|faces|);
    }

    /** The overload without textures: the same as passing an empty list. */
    constructor WithoutTextures(vertices: seq<Vertex3D>, faces: seq<u32>, vao: u32)
      requires UploadDefined(vertices, faces)
      ensures Value() == Built(vertices, faces, [], vao)
    {
      this.vao := vao;
      this.textures := [];
      this.vertexCount := ToU32(|vertices|);
      this.faceCount := ToU32(|faces|);
    }

    method AddTexture(texture: Texture)
      modifies this
      ensures textures == old(textures) + [texture]
      ensures Value() == old(Value()).(textures := textures)
    {
      textures := textures + [texture];
    }

    method AddTextures(more: seq<Texture>)
      modifies this
      ensures textures == old(textures) + more
      ensures Value() == old(Value()).(textures := textures)
    {
      for i := 0 to |more|
        invariant textures == old(textures) + more[..i]
        invariant Value() == old(Value()).(textures := textures)
      {
        textures := textures + [more[i]];
      }
      assert more[..|more|] == more;
    }

    method Render() returns (trace: seq<Event>)
      ensures trace == RenderTrace(Value())
    {
      trace := [BindVertexArray(vao)];
      for i := 0 to |textures|
        invariant trace == [BindVertexArray(vao)] + TextureBindings(textures, i)
      {
        trace := trace + [SetIntUniform(textures[i].samplerName, i)];
        trace := trace + [ActiveTexture(i)];
        trace := trace + [BindTexture2D(textures[i].textureId)];
      }
      trace := trace + [DrawTriangles(faceCount)];
      trace := trace + [BindVertexArray(0)];
      trace := trace + [BindTexture2D(0)];
    }

    /** Mesh::square: the unit square in the XY plane with the given textures. */
    static method Square(textures: seq<Texture>, vao: u32) returns (m: Mesh)
      ensures fresh(m)
      ensures m.Value() == Built(SquareVertices(), SquareFaces(), textures, vao)
    {
      m := new Mesh(SquareVertices(), SquareFaces(), textures, vao);
    }
  }
}
