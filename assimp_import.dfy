/** The asset-import tree walk: an Assimp scene (a tree of nodes that index into
    the scene's mesh and material tables) becomes a mirror tree of Object3D
    nodes. A texture cache keyed by resolved file path is threaded through the
    whole walk, so each path is loaded at most once per import. The file system,
    image decoding, Assimp's reader and the GL name allocator are parameters. */
module AssimpImport {
  import opened Glm
  import opened Gl
  import opened Meshes
  import opened Objects

  // ---------------------------------------------------------------- the scene

  datatype TextureType = Diffuse | Specular | Height | Normals

  /** One face: the indices of the vertices it joins. */
  datatype AiFace = AiFace(indices: seq<u32>)

  /** For each texture type, the file names GetTexture(type, i) reports, i in order. */
  datatype AiMaterial = AiMaterial(diffuse: seq<string>, specular: seq<string>, height: seq<string>, normals: seq<string>)
  {
    function TextureNames(kind: TextureType): seq<string> {
      match kind
      case Diffuse => diffuse
      case Specular => specular
      case Height => height
      case Normals => normals
    }
  }

  datatype AiMesh = AiMesh(numVertices: nat, faces: seq<AiFace>, materialIndex: nat)

  /** transformation is row-major: transformation[r][c] is row r, column c. */
  datatype AiNode = AiNode(transformation: Mat4, meshes: seq<nat>, children: seq<AiNode>)

  datatype AiScene = AiScene(root: AiNode, meshes: seq<AiMesh>, materials: seq<AiMaterial>)

  /** What the walk reads of a mesh without checking: its material exists and
      every face has at least three indices. */
  predicate MeshReadable(mesh: AiMesh, scene: AiScene) {
    && mesh.materialIndex < |scene.materials|
    && forall f <- mesh.faces :: |f.indices| >= 3
  }

  predicate MeshIndicesReadable(indices: seq<nat>, scene: AiScene) {
    forall i | 0 <= i < |indices| :: indices[i] < |scene.meshes| && MeshReadable(scene.meshes[indices[i]], scene)
  }

  /** Every mesh index in the tree below a names a readable mesh. */
  predicate NodeReadable(a: AiNode, scene: AiScene)
    decreases a
  {
    && MeshIndicesReadable(a.meshes, scene)
    && forall c <- a.children :: NodeReadable(c, scene)
  }

  /** The meshes the tree below a refers to, counting repeats. */
  function MeshCount(a: AiNode): nat
    decreases a, 1
  {
    |a.meshes| + ChildrenMeshCount(a.children)
  }

  function ChildrenMeshCount(cs: seq<AiNode>): nat
    decreases cs, 0
  {
    if cs == [] then 0 else ChildrenMeshCount(cs[..|cs| - 1]) + MeshCount(cs[|cs| - 1])
  }

  // ------------------------------------------------------ external collaborators

  /** The post-processing steps requested from the reader. */
  datatype PostProcess = TargetRealtimeMaxQuality | FlipUVs

  datatype ReadResult = Read(scene: AiScene) | Failed(error: string)

  /** Everything the walk calls but this model does not define. */
  datatype Env = Env(
    /** std::filesystem::path::parent_path */
    parentPath: string -> string,
    /** operator/ on paths, then .string() */
    join: (string, string) -> string,
    /** StbImage::loadFromFile(path) then Texture::loadImage(image, typeName) */
    loadImage: (string, string) -> Texture,
    /** the name the k-th glGenVertexArrays call returns */
    vaoName: nat -> u32,
    /** Assimp::Importer::ReadFile(path, flags), with GetErrorString() on failure */
    readFile: (string, set<PostProcess>) -> ReadResult)

  datatype Result<T> = Ok(value: T) | Err(message: string)

  // -------------------------------------------------------------- import state

  /** The texture cache and the paths whose images were read, in order. */
  datatype Cache = Cache(entries: map<string, Texture>, loads: seq<string>)

  const EmptyCache := Cache(map[], [])

  /** Everything the walk changes besides the tree it returns. */
  datatype ImportState = ImportState(cache: Cache, arrays: nat)

  /** A value computed together with the state it leaves behind. */
  datatype Step<T, S> = Step(value: T, state: S)

  /** Entries are never removed or overwritten, and the load log only grows. */
  predicate Extends(c: Cache, c': Cache) {
    && (forall p | p in c.entries :: p in c'.entries && c'.entries[p] == c.entries[p])
    && c.loads <= c'.loads
  }

  /** The cached paths are exactly the loaded ones, and no path was loaded twice. */
  ghost predicate Consistent(c: Cache) {
    && (forall p :: p in c.entries <==> p in c.loads)
    && forall i, j | 0 <= i < j < |c.loads| :: c.loads[i] != c.loads[j]
  }

  // ------------------------------------------------------ the walk, as functions

  /** modelPath.parent_path() / name */
  function TexturePath(env: Env, modelPath: string, name: string): string {
    env.join(env.parentPath(modelPath), name)
  }

  /** One iteration of loadMaterialTextures: the cached texture on a hit; on a
      miss the image is read, converted and inserted. */
  function LoadTexture(path: string, typeName: string, env: Env, c: Cache): Step<Texture, Cache> {
    if path in c.entries then Step(c.entries[path], c)
    else
      var t := env.loadImage(path, typeName);
      Step(t, Cache(c.entries[path := t], c.loads + [path]))
  }

  /** loadMaterialTextures over the names, in order. */
  function LoadTextures(names: seq<string>, typeName: string, modelPath: string, env: Env, c: Cache): Step<seq<Texture>, Cache>
    decreases |names|
  {
    if names == [] then Step([], c)
    else
      var prev := LoadTextures(names[..|names| - 1], typeName, modelPath, env, c);
      var t := LoadTexture(TexturePath(env, modelPath, names[|names| - 1]), typeName, env, prev.state);
      Step(prev.value + [t.value], t.state)
  }

  /** The index list of fromAssimpMesh: indices 0, 1, 2 of every face, in face order. */
  function Flattened(faces: seq<AiFace>): (r: seq<u32>)
    requires forall f <- faces :: |f.indices| >= 3
    ensures |r| == 3 * |faces|
    ensures forall i, k | 0 <= i < |faces| && 0 <= k < 3 :: r[3 * i + k] == faces[i].indices[k]
  {
    if faces == [] then []
    else
      var last := faces[|faces| - 1];
      Flattened(faces[..|faces| - 1]) + [last.indices[0], last.indices[1], last.indices[2]]
  }

  /** The vertex list fromAssimpMesh builds: the copy loop's body is unfinished,
      so nothing is appended whatever mNumVertices is. */
  function CopiedVertices(mesh: AiMesh): seq<Vertex3D> {
    []
  }

  /** The texture list of fromAssimpMesh: diffuse ("baseTexture"), then specular
      ("specMap"), then height and normals (both "normalMap"), the cache threaded
      through all four loads. */
  function MaterialTextures(material: AiMaterial, modelPath: string, env: Env, c: Cache): Step<seq<Texture>, Cache> {
    var d := LoadTextures(material.diffuse, "baseTexture", modelPath, env, c);
    var s := LoadTextures(material.specular, "specMap", modelPath, env, d.state);
    var h := LoadTextures(material.height, "normalMap", modelPath, env, s.state);
    var n := LoadTextures(material.normals, "normalMap", modelPath, env, h.state);
    Step(d.value + s.value + h.value + n.value, n.state)
  }

  /** fromAssimpMesh: the faces flattened, the material's textures, and the
      vertex array the Mesh constructor generates. */
  function ImportMesh(mesh: AiMesh, scene: AiScene, modelPath: string, env: Env, st: ImportState): Step<MeshData, ImportState>
    requires MeshReadable(mesh, scene)
  {
    var ts := MaterialTextures(scene.materials[mesh.materialIndex], modelPath, env, st.cache);
    Step(Built(CopiedVertices(mesh), Flattened(mesh.faces), ts.value, env.vaoName(st.arrays)),
         ImportState(ts.state, st.arrays + 1))
  }

  /** The mesh loop of processAssimpNode over the given mesh indices. */
  function ImportMeshes(indices: seq<nat>, scene: AiScene, modelPath: string, env: Env, st: ImportState): Step<seq<MeshData>, ImportState>
    requires MeshIndicesReadable(indices, scene)
    decreases |indices|
  {
    if indices == [] then Step([], st)
    else
      var prev := ImportMeshes(indices[..|indices| - 1], scene, modelPath, env, st);
      var m := ImportMesh(scene.meshes[indices[|indices| - 1]], scene, modelPath, env, prev.state);
      Step(prev.value + [m.value], m.state)
  }

  /** processAssimpNode: the node's meshes, its transposed transformation as the
      base transform, default placement, then its children in order. */
  function ImportNode(a: AiNode, scene: AiScene, modelPath: string, env: Env, st: ImportState): Step<Node, ImportState>
    requires NodeReadable(a, scene)
    decreases a, 1
  {
    var ms := ImportMeshes(a.meshes, scene, modelPath, env, st);
    var cs := ImportChildren(a.children, scene, modelPath, env, ms.state);
    Step(Fresh(ms.value, Transposed(a.transformation)).(children := cs.value), cs.state)
  }

  /** The child loop of processAssimpNode over cs, in order. */
  function ImportChildren(cs: seq<AiNode>, scene: AiScene, modelPath: string, env: Env, st: ImportState): Step<seq<Node>, ImportState>
    requires forall c <- cs :: NodeReadable(c, scene)
    decreases cs, 0
  {
    if cs == [] then Step([], st)
    else
      var prev := ImportChildren(cs[..|cs| - 1], scene, modelPath, env, st);
      var c := ImportNode(cs[|cs| - 1], scene, modelPath, env, prev.state);
      Step(prev.value + [c.value], c.state)
  }

  /** The flags assimpLoad passes to the reader. */
  function ImportFlags(flipTextureCoords: bool): (flags: set<PostProcess>)
    ensures TargetRealtimeMaxQuality in flags
    ensures FlipUVs in flags <==> flipTextureCoords
  {
    if flipTextureCoords then {TargetRealtimeMaxQuality, FlipUVs} else {TargetRealtimeMaxQuality}
  }

  /** What assimpLoad reads: the scene, or the error it throws. */
  function ReadScene(path: string, flipTextureCoords: bool, env: Env): Result<AiScene> {
    match env.readFile(path, ImportFlags(flipTextureCoords))
    case Read(scene) => Ok(scene)
    case Failed(error) => Err("Error loading assimp file: " + error)
  }

  // ---------------------------------------------------------------- properties

  /** One lookup-or-load: afterwards the path is cached and the result is its
      entry; a hit returns the cached texture and changes nothing; a miss loads
      the image once, with this type name, and logs it. */
  lemma LoadTextureSpec(path: string, typeName: string, env: Env, c: Cache)
    ensures var r := LoadTexture(path, typeName, env, c);
      && path in r.state.entries && r.value == r.state.entries[path]
      && Extends(c, r.state)
      && r.state.entries.Keys == c.entries.Keys + {path}
      && (path in c.entries <==> r.state == c)
      && (path in c.entries ==> r.value == c.entries[path])
      && (path !in c.entries ==> r.value == env.loadImage(path, typeName) && r.state.loads == c.loads + [path])
      && (Consistent(c) ==> Consistent(r.state))
  {
    var r := LoadTexture(path, typeName, env, c);
    if path !in c.entries {
      assert r.state.loads == c.loads + [path];
      assert |r.state.loads| == |c.loads| + 1;
      assert r.state != c;
      if Consistent(c) {
        assert path !in c.loads;
      }
    }
  }

  /** loadMaterialTextures returns exactly one texture per name, in name order,
      each the cache's entry for its resolved path; the cache gains exactly those
      paths, keeps every old entry, and stores for each new path the image loaded
      with this type name; consistency is kept. */
  lemma {:induction false} LoadTexturesSpec(names: seq<string>, typeName: string, modelPath: string, env: Env, c: Cache)
    ensures var r := LoadTextures(names, typeName, modelPath, env, c);
      && AllCachedAs(r.value, names, modelPath, env, r.state)
      && Extends(c, r.state)
      && (forall p | p in r.state.entries && p !in c.entries :: r.state.entries[p] == env.loadImage(p, typeName))
      && (Consistent(c) ==> Consistent(r.state))
  {
    if names != [] {
      var init := names[..|names| - 1];
      var path := TexturePath(env, modelPath, names[|names| - 1]);
      var prev := LoadTextures(init, typeName, modelPath, env, c);
      LoadTexturesSpec(init, typeName, modelPath, env, c);
      LoadTextureSpec(path, typeName, env, prev.state);
      var r := LoadTextures(names, typeName, modelPath, env, c);
      forall i | 0 <= i < |names| ensures CachedAs(r.value[i], names[i], modelPath, env, r.state) {
        if i < |names| - 1 {
          assert names[i] == init[i] && r.value[i] == prev.value[i];
        }
      }
    }
  }

  /** The resolved paths of the names. */
  function TexturePaths(names: seq<string>, modelPath: string, env: Env): set<string> {
    set i | 0 <= i < |names| :: TexturePath(env, modelPath, names[i])
  }

  /** Every entry of c' that is not in c and whose path is among `paths` is the
      image loaded with this type name. */
  predicate LoadedWith(c: Cache, c': Cache, paths: set<string>, typeName: string, env: Env) {
    forall p | p in c'.entries && p !in c.entries && p in paths :: c'.entries[p] == env.loadImage(p, typeName)
  }

  /** The cache gains exactly the resolved paths of the names. */
  lemma {:induction false} LoadTexturesKeys(names: seq<string>, typeName: string, modelPath: string, env: Env, c: Cache)
    ensures LoadTextures(names, typeName, modelPath, env, c).state.entries.Keys
         == c.entries.Keys + TexturePaths(names, modelPath, env)
  {
    if names != [] {
      var init := names[..|names| - 1];
      var path := TexturePath(env, modelPath, names[|names| - 1]);
      var prev := LoadTextures(init, typeName, modelPath, env, c);
      LoadTexturesKeys(init, typeName, modelPath, env, c);
      LoadTextureSpec(path, typeName, env, prev.state);
      assert (set i | 0 <= i < |names| :: TexturePath(env, modelPath, names[i]))
          == (set i | 0 <= i < |init| :: TexturePath(env, modelPath, init[i])) + {path};
    }
  }

  /** m is the import of mesh: no vertex, 3 indices per face, and its material's
      textures in type order, each the entry of cache c for its resolved path. */
  predicate MeshMirrors(m: MeshData, mesh: AiMesh, scene: AiScene, modelPath: string, env: Env, c: Cache)
    requires MeshReadable(mesh, scene)
  {
    && m.vertexCount == 0
    && m.faceCount == ToU32(3 * |mesh.faces|)
    && TexturesInOrder(m.textures, scene.materials[mesh.materialIndex], modelPath, env, c)
  }

  /** t is the cache's entry for the resolved path of name. */
  predicate CachedAs(t: Texture, name: string, modelPath: string, env: Env, c: Cache) {
    var p := TexturePath(env, modelPath, name);
    p in c.entries && t == c.entries[p]
  }

  /** One texture per name, in order, each the cache's entry for its path. */
  predicate AllCachedAs(ts: seq<Texture>, names: seq<string>, modelPath: string, env: Env, c: Cache) {
    && |ts| == |names|
    && forall i | 0 <= i < |names| :: CachedAs(ts[i], names[i], modelPath, env, c)
  }

  /** The cache entry of each texture name of a material, type by type, in order. */
  predicate TexturesInOrder(ts: seq<Texture>, material: AiMaterial, modelPath: string, env: Env, c: Cache) {
    var d, s, h := |material.diffuse|, |material.specular|, |material.height|;
    && |ts| == d + s + h + |material.normals|
    && AllCachedAs(ts[..d], material.diffuse, modelPath, env, c)
    && AllCachedAs(ts[d..d + s], material.specular, modelPath, env, c)
    && AllCachedAs(ts[d + s..d + s + h], material.height, modelPath, env, c)
    && AllCachedAs(ts[d + s + h..], material.normals, modelPath, env, c)
  }

  /** Entries found in a cache are found in any extension of it. */
  lemma AllCachedAsKept(ts: seq<Texture>, names: seq<string>, modelPath: string, env: Env, c: Cache, c': Cache)
    requires Extends(c, c') && AllCachedAs(ts, names, modelPath, env, c)
    ensures AllCachedAs(ts, names, modelPath, env, c')
  {
    forall i | 0 <= i < |names| ensures CachedAs(ts[i], names[i], modelPath, env, c') {
      assert CachedAs(ts[i], names[i], modelPath, env, c);
    }
  }

  lemma TexturesInOrderKept(ts: seq<Texture>, material: AiMaterial, modelPath: string, env: Env, c: Cache, c': Cache)
    requires Extends(c, c') && TexturesInOrder(ts, material, modelPath, env, c)
    ensures TexturesInOrder(ts, material, modelPath, env, c')
  {
    var d, s, h := |material.diffuse|, |material.specular|, |material.height|;
    AllCachedAsKept(ts[..d], material.diffuse, modelPath, env, c, c');
    AllCachedAsKept(ts[d..d + s], material.specular, modelPath, env, c, c');
    AllCachedAsKept(ts[d + s..d + s + h], material.height, modelPath, env, c, c');
    AllCachedAsKept(ts[d + s + h..], material.normals, modelPath, env, c, c');
  }

  /** Four loads in a row, each extending the last cache, give the material's
      textures in type order, all found in the final cache. */
  lemma TexturesInOrderOfParts(material: AiMaterial, modelPath: string, env: Env,
                               dv: seq<Texture>, sv: seq<Texture>, hv: seq<Texture>, nv: seq<Texture>,
                               c: Cache, cd: Cache, cs: Cache, ch: Cache, cn: Cache)
    requires AllCachedAs(dv, material.diffuse, modelPath, env, cd)
    requires AllCachedAs(sv, material.specular, modelPath, env, cs)
    requires AllCachedAs(hv, material.height, modelPath, env, ch)
    requires AllCachedAs(nv, material.normals, modelPath, env, cn)
    requires Extends(c, cd) && Extends(cd, cs) && Extends(cs, ch) && Extends(ch, cn)
    requires Consistent(c) ==> Consistent(cd)
    requires Consistent(cd) ==> Consistent(cs)
    requires Consistent(cs) ==> Consistent(ch)
    requires Consistent(ch) ==> Consistent(cn)
    ensures TexturesInOrder(dv + sv + hv + nv, material, modelPath, env, cn)
    ensures Extends(c, cn)
    ensures Consistent(c) ==> Consistent(cn)
  {
    var ts := dv + sv + hv + nv;
    var d, s, h := |dv|, |sv|, |hv|;
    assert ts[..d] == dv;
    assert ts[d..d + s] == sv;
    assert ts[d + s..d + s + h] == hv;
    assert ts[d + s + h..] == nv;
    AllCachedAsKept(dv, material.diffuse, modelPath, env, cd, cs);
    AllCachedAsKept(dv, material.diffuse, modelPath, env, cs, ch);
    AllCachedAsKept(dv, material.diffuse, modelPath, env, ch, cn);
    AllCachedAsKept(sv, material.specular, modelPath, env, cs, ch);
    AllCachedAsKept(sv, material.specular, modelPath, env, ch, cn);
    AllCachedAsKept(hv, material.height, modelPath, env, ch, cn);
  }

  /** Four loads in a row, each adding exactly its own paths with its own type
      name: the final cache adds all four path sets; a new diffuse path holds the
      "baseTexture" image, a new specular path not also diffuse the "specMap"
      image, and any other new path the "normalMap" image. */
  lemma TypeNamesOfParts(material: AiMaterial, modelPath: string, env: Env,
                         c: Cache, cd: Cache, cs: Cache, ch: Cache, cn: Cache)
    requires Extends(cd, cs) && Extends(cs, ch) && Extends(ch, cn)
    requires cd.entries.Keys == c.entries.Keys + TexturePaths(material.diffuse, modelPath, env)
    requires cs.entries.Keys == cd.entries.Keys + TexturePaths(material.specular, modelPath, env)
    requires ch.entries.Keys == cs.entries.Keys + TexturePaths(material.height, modelPath, env)
    requires cn.entries.Keys == ch.entries.Keys + TexturePaths(material.normals, modelPath, env)
    requires forall p | p in cd.entries && p !in c.entries :: cd.entries[p] == env.loadImage(p, "baseTexture")
    requires forall p | p in cs.entries && p !in cd.entries :: cs.entries[p] == env.loadImage(p, "specMap")
    requires forall p | p in ch.entries && p !in cs.entries :: ch.entries[p] == env.loadImage(p, "normalMap")
    requires forall p | p in cn.entries && p !in ch.entries :: cn.entries[p] == env.loadImage(p, "normalMap")
    ensures var D, S := TexturePaths(material.diffuse, modelPath, env), TexturePaths(material.specular, modelPath, env);
      var H, N := TexturePaths(material.height, modelPath, env), TexturePaths(material.normals, modelPath, env);
      && cn.entries.Keys == c.entries.Keys + D + S + H + N
      && LoadedWith(c, cn, D, "baseTexture", env)
      && LoadedWith(c, cn, S - D, "specMap", env)
      && LoadedWith(c, cn, (H + N) - (D + S), "normalMap", env)
  {
    var D, S := TexturePaths(material.diffuse, modelPath, env), TexturePaths(material.specular, modelPath, env);
    var H, N := TexturePaths(material.height, modelPath, env), TexturePaths(material.normals, modelPath, env);
    forall p | p in cn.entries && p !in c.entries
      ensures p in D ==> cn.entries[p] == env.loadImage(p, "baseTexture")
      ensures p in S - D ==> cn.entries[p] == env.loadImage(p, "specMap")
      ensures p in (H + N) - (D + S) ==> cn.entries[p] == env.loadImage(p, "normalMap")
    {
      if p in cd.entries {
        assert cn.entries[p] == ch.entries[p] == cs.entries[p] == cd.entries[p];
      } else if p in cs.entries {
        assert cn.entries[p] == ch.entries[p] == cs.entries[p];
      } else if p in ch.entries {
        assert cn.entries[p] == ch.entries[p];
      }
    }
  }

  /** MaterialTextures is the four loads chained. */
  lemma MaterialTexturesOfSteps(material: AiMaterial, modelPath: string, env: Env, c: Cache,
                                d: Step<seq<Texture>, Cache>, s: Step<seq<Texture>, Cache>,
                                h: Step<seq<Texture>, Cache>, n: Step<seq<Texture>, Cache>)
    requires d == LoadTextures(material.TextureNames(Diffuse), "baseTexture", modelPath, env, c)
    requires s == LoadTextures(material.TextureNames(Specular), "specMap", modelPath, env, d.state)
    requires h == LoadTextures(material.TextureNames(Height), "normalMap", modelPath, env, s.state)
    requires n == LoadTextures(material.TextureNames(Normals), "normalMap", modelPath, env, h.state)
    ensures MaterialTextures(material, modelPath, env, c) == Step(d.value + s.value + h.value + n.value, n.state)
  {
  }

  /** The material's textures come in the order diffuse, specular, height,
      normals, each the cache entry of its resolved path; the cache only grows,
      gains exactly the material's paths and stays consistent; a path it gains is
      loaded with the type name of the first group that names it: "baseTexture"
      for diffuse, "specMap" for specular, "normalMap" for height and normals. */
  lemma MaterialTexturesSpec(material: AiMaterial, modelPath: string, env: Env, c: Cache)
    ensures var r := MaterialTextures(material, modelPath, env, c);
      var D, S := TexturePaths(material.diffuse, modelPath, env), TexturePaths(material.specular, modelPath, env);
      var H, N := TexturePaths(material.height, modelPath, env), TexturePaths(material.normals, modelPath, env);
      && TexturesInOrder(r.value, material, modelPath, env, r.state)
      && Extends(c, r.state)
      && (Consistent(c) ==> Consistent(r.state))
      && r.state.entries.Keys == c.entries.Keys + D + S + H + N
      && LoadedWith(c, r.state, D, "baseTexture", env)
      && LoadedWith(c, r.state, S - D, "specMap", env)
      && LoadedWith(c, r.state, (H + N) - (D + S), "normalMap", env)
  {
    var d := LoadTextures(material.diffuse, "baseTexture", modelPath, env, c);
    var s := LoadTextures(material.specular, "specMap", modelPath, env, d.state);
    var h := LoadTextures(material.height, "normalMap", modelPath, env, s.state);
    var n := LoadTextures(material.normals, "normalMap", modelPath, env, h.state);
    LoadTexturesSpec(material.diffuse, "baseTexture", modelPath, env, c);
    LoadTexturesSpec(material.specular, "specMap", modelPath, env, d.state);
    LoadTexturesSpec(material.height, "normalMap", modelPath, env, s.state);
    LoadTexturesSpec(material.normals, "normalMap", modelPath, env, h.state);
    assert MaterialTextures(material, modelPath, env, c) == Step(d.value + s.value + h.value + n.value, n.state);
    TexturesInOrderOfParts(material, modelPath, env, d.value, s.value, h.value, n.value, c, d.state, s.state, h.state, n.state);
    LoadTexturesKeys(material.diffuse, "baseTexture", modelPath, env, c);
    LoadTexturesKeys(material.specular, "specMap", modelPath, env, d.state);
    LoadTexturesKeys(material.height, "normalMap", modelPath, env, s.state);
    LoadTexturesKeys(material.normals, "normalMap", modelPath, env, h.state);
    TypeNamesOfParts(material, modelPath, env, c, d.state, s.state, h.state, n.state);
  }

  /** fromAssimpMesh builds no vertex, 3 indices per face, and the material's
      textures in type order; it takes the next vertex array name; the cache only
      grows and stays consistent. */
  lemma ImportMeshSpec(mesh: AiMesh, scene: AiScene, modelPath: string, env: Env, st: ImportState)
    requires MeshReadable(mesh, scene)
    ensures var r := ImportMesh(mesh, scene, modelPath, env, st);
      && MeshMirrors(r.value, mesh, scene, modelPath, env, r.state.cache)
      && r.value.vao == env.vaoName(st.arrays)
      && r.state.arrays == st.arrays + 1
      && Extends(st.cache, r.state.cache)
      && (Consistent(st.cache) ==> Consistent(r.state.cache))
  {
    MaterialTexturesSpec(scene.materials[mesh.materialIndex], modelPath, env, st.cache);
  }

  /** r is what the mesh loop yields for `indices` from state st: one mesh per
      index, in order, each mirroring the mesh it names and taking the next vertex
      array name; the cache only grows and stays consistent. */
  ghost predicate MeshesImported(indices: seq<nat>, scene: AiScene, modelPath: string, env: Env, st: ImportState,
                                 r: Step<seq<MeshData>, ImportState>)
    requires MeshIndicesReadable(indices, scene)
  {
    && |r.value| == |indices|
    && (forall i | 0 <= i < |indices| ::
          && MeshMirrors(r.value[i], scene.meshes[indices[i]], scene, modelPath, env, r.state.cache)
          && r.value[i].vao == env.vaoName(st.arrays + i))
    && r.state.arrays == st.arrays + |indices|
    && Extends(st.cache, r.state.cache)
    && (Consistent(st.cache) ==> Consistent(r.state.cache))
  }

  /** One more mesh after a prefix keeps MeshesImported. */
  lemma MeshesImportedSnoc(indices: seq<nat>, scene: AiScene, modelPath: string, env: Env, st: ImportState,
                           prev: Step<seq<MeshData>, ImportState>, m: Step<MeshData, ImportState>)
    requires MeshIndicesReadable(indices, scene) && indices != []
    requires MeshesImported(indices[..|indices| - 1], scene, modelPath, env, st, prev)
    requires var mesh := scene.meshes[indices[|indices| - 1]];
      && MeshMirrors(m.value, mesh, scene, modelPath, env, m.state.cache)
      && m.value.vao == env.vaoName(prev.state.arrays)
      && m.state.arrays == prev.state.arrays + 1
      && Extends(prev.state.cache, m.state.cache)
      && (Consistent(prev.state.cache) ==> Consistent(m.state.cache))
    ensures MeshesImported(indices, scene, modelPath, env, st, Step(prev.value + [m.value], m.state))
  {
    var init := indices[..|indices| - 1];
    var r := Step(prev.value + [m.value], m.state);
    forall i | 0 <= i < |indices| - 1
      ensures MeshMirrors(r.value[i], scene.meshes[indices[i]], scene, modelPath, env, m.state.cache)
      ensures r.value[i].vao == env.vaoName(st.arrays + i)
    {
      assert r.value[i] == prev.value[i] && indices[i] == init[i];
      var mesh := scene.meshes[indices[i]];
      assert MeshMirrors(prev.value[i], mesh, scene, modelPath, env, prev.state.cache);
      TexturesInOrderKept(r.value[i].textures, scene.materials[mesh.materialIndex], modelPath, env, prev.state.cache, m.state.cache);
    }
  }

  /** The mesh loop of processAssimpNode yields one mesh per index, in order, each
      mirroring the mesh it names and taking the next vertex array name. */
  lemma {:induction false} ImportMeshesSpec(indices: seq<nat>, scene: AiScene, modelPath: string, env: Env, st: ImportState)
    requires MeshIndicesReadable(indices, scene)
    ensures MeshesImported(indices, scene, modelPath, env, st, ImportMeshes(indices, scene, modelPath, env, st))
  {
    if indices != [] {
      var init := indices[..|indices| - 1];
      var prev := ImportMeshes(init, scene, modelPath, env, st);
      var m := ImportMesh(scene.meshes[indices[|indices| - 1]], scene, modelPath, env, prev.state);
      ImportMeshesSpec(init, scene, modelPath, env, st);
      ImportMeshSpec(scene.meshes[indices[|indices| - 1]], scene, modelPath, env, prev.state);
      assert ImportMeshes(indices, scene, modelPath, env, st) == Step(prev.value + [m.value], m.state);
      MeshesImportedSnoc(indices, scene, modelPath, env, st, prev, m);
    }
  }

  /** n is the import of a: one mesh per mesh index, in order, mirroring the mesh
      it names with the textures of cache c; base transform the transpose of a's
      transformation; default placement; one child per child of a, in order,
      recursively. */
  predicate Mirrors(n: Node, a: AiNode, scene: AiScene, modelPath: string, env: Env, c: Cache)
    requires NodeReadable(a, scene)
    decreases a
  {
    && |n.meshes| == |a.meshes|
    && (forall i | 0 <= i < |a.meshes| :: MeshMirrors(n.meshes[i], scene.meshes[a.meshes[i]], scene, modelPath, env, c))
    && n.baseTransform == Transposed(a.transformation)
    && n == Fresh(n.meshes, n.baseTransform).(children := n.children)
    && |n.children| == |a.children|
    && forall i | 0 <= i < |a.children| :: Mirrors(n.children[i], a.children[i], scene, modelPath, env, c)
  }

  /** Mesh mirrors whose textures are found in a cache are mirrors in any extension of it. */
  lemma MeshesMirrorKept(ms: seq<MeshData>, indices: seq<nat>, scene: AiScene, modelPath: string, env: Env, c: Cache, c': Cache)
    requires MeshIndicesReadable(indices, scene) && |ms| == |indices| && Extends(c, c')
    requires forall i | 0 <= i < |indices| :: MeshMirrors(ms[i], scene.meshes[indices[i]], scene, modelPath, env, c)
    ensures forall i | 0 <= i < |indices| :: MeshMirrors(ms[i], scene.meshes[indices[i]], scene, modelPath, env, c')
  {
    forall i | 0 <= i < |indices|
      ensures MeshMirrors(ms[i], scene.meshes[indices[i]], scene, modelPath, env, c')
    {
      var mesh := scene.meshes[indices[i]];
      assert MeshMirrors(ms[i], mesh, scene, modelPath, env, c);
      TexturesInOrderKept(ms[i].textures, scene.materials[mesh.materialIndex], modelPath, env, c, c');
    }
  }

  /** A mirror whose textures are found in a cache is one in any extension of it. */
  lemma {:induction false} MirrorsKept(n: Node, a: AiNode, scene: AiScene, modelPath: string, env: Env, c: Cache, c': Cache)
    requires NodeReadable(a, scene) && Extends(c, c') && Mirrors(n, a, scene, modelPath, env, c)
    ensures Mirrors(n, a, scene, modelPath, env, c')
    decreases a
  {
    MeshesMirrorKept(n.meshes, a.meshes, scene, modelPath, env, c, c');
    forall i | 0 <= i < |a.children|
      ensures Mirrors(n.children[i], a.children[i], scene, modelPath, env, c')
    {
      assert a.children[i] in a.children;
      MirrorsKept(n.children[i], a.children[i], scene, modelPath, env, c, c');
    }
  }

  /** r is what processAssimpNode yields for a from state st: a mirror of a whose
      meshes all hold the final cache's textures (so meshes naming one resolved
      path share one texture), one vertex array per mesh reference, and a cache
      that only grew and stayed consistent. */
  ghost predicate NodeImported(a: AiNode, scene: AiScene, modelPath: string, env: Env, st: ImportState,
                               r: Step<Node, ImportState>)
    requires NodeReadable(a, scene)
  {
    && Mirrors(r.value, a, scene, modelPath, env, r.state.cache)
    && r.state.arrays == st.arrays + MeshCount(a)
    && Extends(st.cache, r.state.cache)
    && (Consistent(st.cache) ==> Consistent(r.state.cache))
  }

  /** r is what the child loop yields for cs from state st: one mirror per child,
      in order, all holding the final cache's textures, one vertex array per mesh
      reference, and a cache that only grew and stayed consistent. */
  ghost predicate ChildrenImported(cs: seq<AiNode>, scene: AiScene, modelPath: string, env: Env, st: ImportState,
                                   r: Step<seq<Node>, ImportState>)
    requires forall c <- cs :: NodeReadable(c, scene)
  {
    && |r.value| == |cs|
    && (forall i | 0 <= i < |cs| :: Mirrors(r.value[i], cs[i], scene, modelPath, env, r.state.cache))
    && r.state.arrays == st.arrays + ChildrenMeshCount(cs)
    && Extends(st.cache, r.state.cache)
    && (Consistent(st.cache) ==> Consistent(r.state.cache))
  }

  /** processAssimpNode builds a tree of the same shape as the Assimp tree whose
      meshes all hold the final cache's textures, generates one vertex array per
      mesh reference, and only extends the cache, keeping it consistent. */
  lemma {:induction false} ImportNodeSpec(a: AiNode, scene: AiScene, modelPath: string, env: Env, st: ImportState)
    requires NodeReadable(a, scene)
    ensures NodeImported(a, scene, modelPath, env, st, ImportNode(a, scene, modelPath, env, st))
    decreases a, 1
  {
    var ms := ImportMeshes(a.meshes, scene, modelPath, env, st);
    ImportMeshesSpec(a.meshes, scene, modelPath, env, st);
    ImportChildrenSpec(a.children, scene, modelPath, env, ms.state);
    NodeImportedOfParts(a, scene, modelPath, env, st, ms, ImportChildren(a.children, scene, modelPath, env, ms.state));
  }

  /** The mesh loop's result, then the child loop's, make up an imported node. */
  lemma NodeImportedOfParts(a: AiNode, scene: AiScene, modelPath: string, env: Env, st: ImportState,
                            ms: Step<seq<MeshData>, ImportState>, cs: Step<seq<Node>, ImportState>)
    requires NodeReadable(a, scene)
    requires MeshesImported(a.meshes, scene, modelPath, env, st, ms)
    requires ChildrenImported(a.children, scene, modelPath, env, ms.state, cs)
    ensures NodeImported(a, scene, modelPath, env, st, Step(Fresh(ms.value, Transposed(a.transformation)).(children := cs.value), cs.state))
  {
    MeshesMirrorKept(ms.value, a.meshes, scene, modelPath, env, ms.state.cache, cs.state.cache);
  }

  lemma {:induction false} ImportChildrenSpec(cs: seq<AiNode>, scene: AiScene, modelPath: string, env: Env, st: ImportState)
    requires forall c <- cs :: NodeReadable(c, scene)
    ensures ChildrenImported(cs, scene, modelPath, env, st, ImportChildren(cs, scene, modelPath, env, st))
    decreases cs, 0
  {
    if cs != [] {
      var init := cs[..|cs| - 1];
      var prev := ImportChildren(init, scene, modelPath, env, st);
      ImportChildrenSpec(init, scene, modelPath, env, st);
      ImportNodeSpec(cs[|cs| - 1], scene, modelPath, env, prev.state);
      ChildrenImportedSnoc(cs, scene, modelPath, env, st, prev, ImportNode(cs[|cs| - 1], scene, modelPath, env, prev.state));
    }
  }

  /** One more imported child after a prefix keeps ChildrenImported. */
  lemma ChildrenImportedSnoc(cs: seq<AiNode>, scene: AiScene, modelPath: string, env: Env, st: ImportState,
                             prev: Step<seq<Node>, ImportState>, c: Step<Node, ImportState>)
    requires (forall c <- cs :: NodeReadable(c, scene)) && cs != []
    requires ChildrenImported(cs[..|cs| - 1], scene, modelPath, env, st, prev)
    requires NodeImported(cs[|cs| - 1], scene, modelPath, env, prev.state, c)
    ensures ChildrenImported(cs, scene, modelPath, env, st, Step(prev.value + [c.value], c.state))
  {
    var init := cs[..|cs| - 1];
    var r := Step(prev.value + [c.value], c.state);
    assert cs == init + [cs[|cs| - 1]];
    forall i | 0 <= i < |cs| - 1 ensures Mirrors(r.value[i], cs[i], scene, modelPath, env, r.state.cache) {
      assert r.value[i] == prev.value[i] && cs[i] == init[i];
      assert cs[i] in cs;
      MirrorsKept(r.value[i], cs[i], scene, modelPath, env, prev.state.cache, r.state.cache);
    }
  }

  /** An import starts from an empty cache, so afterwards every cached path was
      loaded exactly once and every loaded path is cached. */
  lemma ImportLoadsEachPathOnce(scene: AiScene, modelPath: string, env: Env, arrays: nat)
    requires NodeReadable(scene.root, scene)
    ensures var c := ImportNode(scene.root, scene, modelPath, env, ImportState(EmptyCache, arrays)).state.cache;
      && (forall p :: p in c.entries <==> p in c.loads)
      && forall i, j | 0 <= i < j < |c.loads| :: c.loads[i] != c.loads[j]
  {
    ImportNodeSpec(scene.root, scene, modelPath, env, ImportState(EmptyCache, arrays));
  }

  /** As written, every mesh the walk builds passes an empty vertex list to the
      Mesh constructor, which needs a non-empty one. */
  lemma ImportedMeshCannotUpload(mesh: AiMesh)
    requires forall f <- mesh.faces :: |f.indices| >= 3
    ensures !UploadDefined(CopiedVertices(mesh), Flattened(mesh.faces))
  {
  }

  // ------------------------------------------------------------- the methods

  /** The unordered_map<string, Texture> the walk shares by reference, and the
      log of image reads it causes. */
  class TextureCache {
    var entries: map<string, Texture>
    var loads: seq<string>

    function Value(): Cache
      reads this
    {
      Cache(entries, loads)
    }

    constructor ()
      ensures Value() == EmptyCache
    {
      entries := map[];
      loads := [];
    }
  }

  function State(cache: TextureCache, gl: Context): ImportState
    reads cache, gl
  {
    ImportState(cache.Value(), gl.arraysGenerated)
  }

  method LoadMaterialTextures(material: AiMaterial, kind: TextureType, typeName: string, modelPath: string, env: Env, cache: TextureCache)
    returns (textures: seq<Texture>)
    modifies cache
    ensures Step(textures, cache.Value()) == LoadTextures(material.TextureNames(kind), typeName, modelPath, env, old(cache.Value()))
  {
    var names := material.TextureNames(kind);
    textures := [];
    for i := 0 to |names|
      invariant Step(textures, cache.Value()) == LoadTextures(names[..i], typeName, modelPath, env, old(cache.Value()))
    {
      var texPath := TexturePath(env, modelPath, names[i]);
      if texPath in cache.entries {
        textures := textures + [cache.entries[texPath]];
      } else {
        cache.loads := cache.loads + [texPath];
        var tex := env.loadImage(texPath, typeName);
        textures := textures + [tex];
        cache.entries := cache.entries[texPath := tex];
      }
      assert names[..i + 1][..i] == names[..i];
    }
    assert names[..|names|] == names;
  }

  method FlattenFaces(faces: seq<AiFace>) returns (indices: seq<u32>)
    requires forall f <- faces :: |f.indices| >= 3
    ensures indices == Flattened(faces)
  {
    indices := [];
    for i := 0 to |faces|
      invariant indices == Flattened(faces[..i])
    {
      indices := indices + [faces[i].indices[0]];
      indices := indices + [faces[i].indices[1]];
      indices := indices + [faces[i].indices[2]];
      assert faces[..i + 1][..i] == faces[..i];
    }
    assert faces[..|faces|] == faces;
  }

  /** The texture part of fromAssimpMesh: the four loadMaterialTextures calls,
      each list appended in turn. */
  method LoadMeshTextures(material: AiMaterial, modelPath: string, env: Env, cache: TextureCache)
    returns (textures: seq<Texture>)
    modifies cache
    ensures Step(textures, cache.Value()) == MaterialTextures(material, modelPath, env, old(cache.Value()))
  {
    ghost var c0 := cache.Value();
    textures := [];
    var diffuseMaps := LoadMaterialTextures(material, Diffuse, "baseTexture", modelPath, env, cache);
    ghost var d := Step(diffuseMaps, cache.Value());
    textures := textures + diffuseMaps;
    assert textures == d.value;
    var specularMaps := LoadMaterialTextures(material, Specular, "specMap", modelPath, env, cache);
    ghost var s := Step(specularMaps, cache.Value());
    textures := textures + specularMaps;
    var normalMaps := LoadMaterialTextures(material, Height, "normalMap", modelPath, env, cache);
    ghost var h := Step(normalMaps, cache.Value());
    textures := textures + normalMaps;
    normalMaps := LoadMaterialTextures(material, Normals, "normalMap", modelPath, env, cache);
    ghost var n := Step(normalMaps, cache.Value());
    textures := textures + normalMaps;
    assert textures == d.value + s.value + h.value + n.value;
    MaterialTexturesOfSteps(material, modelPath, env, c0, d, s, h, n);
  }

  method FromAssimpMesh(mesh: AiMesh, scene: AiScene, modelPath: string, env: Env, cache: TextureCache, gl: Context)
    returns (m: MeshData)
    requires MeshReadable(mesh, scene)
    modifies cache, gl
    ensures Step(m, State(cache, gl)) == ImportMesh(mesh, scene, modelPath, env, old(State(cache, gl)))
  {
    var vertices := CopiedVertices(mesh);
    var faces := FlattenFaces(mesh.faces);
    var textures := LoadMeshTextures(scene.materials[mesh.materialIndex], modelPath, env, cache);
    var vao := gl.GenVertexArray(env.vaoName);
    m := Built(vertices, faces, textures, vao);
  }

  /** The nested copy loop: base[i][j] := transformation[j][i]. */
  method TransposedCopy(transformation: Mat4) returns (base: Mat4)
    ensures base == Transposed(transformation)
  {
    base := Identity();
    for i := 0 to 4
      invariant forall r, c | 0 <= r < i && 0 <= c < 4 :: base[r][c] == transformation[c][r]
    {
      for j := 0 to 4
        invariant forall r, c | 0 <= r < i && 0 <= c < 4 :: base[r][c] == transformation[c][r]
        invariant forall c | 0 <= c < j :: base[i][c] == transformation[c][i]
      {
        base := base[i := base[i][j := transformation[j][i]]];
      }
    }
    var t := Transposed(transformation);
    forall r | 0 <= r < 4 ensures base[r] == t[r] {
      assert base[r][0] == t[r][0] && base[r][1] == t[r][1] && base[r][2] == t[r][2] && base[r][3] == t[r][3];
    }
  }

  /** The mesh loop's spec function, one index further. */
  lemma ImportMeshesNext(indices: seq<nat>, i: nat, scene: AiScene, modelPath: string, env: Env, st: ImportState,
                         prev: Step<seq<MeshData>, ImportState>, m: Step<MeshData, ImportState>)
    requires MeshIndicesReadable(indices, scene) && i < |indices|
    requires prev == ImportMeshes(indices[..i], scene, modelPath, env, st)
    requires m == ImportMesh(scene.meshes[indices[i]], scene, modelPath, env, prev.state)
    ensures ImportMeshes(indices[..i + 1], scene, modelPath, env, st) == Step(prev.value + [m.value], m.state)
  {
    assert indices[..i + 1][..i] == indices[..i];
  }

  /** The child loop's spec function, one child further. */
  lemma ImportChildrenNext(cs: seq<AiNode>, i: nat, scene: AiScene, modelPath: string, env: Env, st: ImportState,
                           prev: Step<seq<Node>, ImportState>, c: Step<Node, ImportState>)
    requires (forall c <- cs :: NodeReadable(c, scene)) && i < |cs|
    requires prev == ImportChildren(cs[..i], scene, modelPath, env, st)
    requires c == ImportNode(cs[i], scene, modelPath, env, prev.state)
    ensures ImportChildren(cs[..i + 1], scene, modelPath, env, st) == Step(prev.value + [c.value], c.state)
  {
    assert cs[..i + 1][..i] == cs[..i];
  }

  /** ImportNode is the mesh loop, then the child loop. */
  lemma ImportNodeOfLoops(a: AiNode, scene: AiScene, modelPath: string, env: Env, st: ImportState,
                          ms: Step<seq<MeshData>, ImportState>, cs: Step<seq<Node>, ImportState>)
    requires NodeReadable(a, scene)
    requires ms == ImportMeshes(a.meshes[..|a.meshes|], scene, modelPath, env, st)
    requires cs == ImportChildren(a.children[..|a.children|], scene, modelPath, env, ms.state)
    ensures ImportNode(a, scene, modelPath, env, st)
         == Step(Fresh(ms.value, Transposed(a.transformation)).(children := cs.value), cs.state)
  {
    assert a.meshes[..|a.meshes|] == a.meshes;
    assert a.children[..|a.children|] == a.children;
  }

  /** The mesh loop of processAssimpNode: one fromAssimpMesh per mesh index, in
      order, sharing the cache and the GL context. */
  method ImportNodeMeshes(indices: seq<nat>, scene: AiScene, modelPath: string, env: Env, cache: TextureCache, gl: Context)
    returns (meshes: seq<MeshData>)
    requires MeshIndicesReadable(indices, scene)
    modifies cache, gl
    ensures Step(meshes, State(cache, gl)) == ImportMeshes(indices[..|indices|], scene, modelPath, env, old(State(cache, gl)))
  {
    ghost var st := State(cache, gl);
    meshes := [];
    for i := 0 to |indices|
      invariant Step(meshes, State(cache, gl)) == ImportMeshes(indices[..i], scene, modelPath, env, st)
    {
      ghost var prev := Step(meshes, State(cache, gl));
      var m := FromAssimpMesh(scene.meshes[indices[i]], scene, modelPath, env, cache, gl);
      meshes := meshes + [m];
      ImportMeshesNext(indices, i, scene, modelPath, env, st, prev, Step(m, State(cache, gl)));
    }
  }

  method ProcessAssimpNode(node: AiNode, scene: AiScene, modelPath: string, env: Env, cache: TextureCache, gl: Context)
    returns (obj: Object3D)
    requires NodeReadable(node, scene)
    modifies cache, gl
    ensures fresh(obj)
    ensures Step(obj.Value(), State(cache, gl)) == ImportNode(node, scene, modelPath, env, old(State(cache, gl)))
    decreases node, 1
  {
    ghost var st := State(cache, gl);
    var meshes := ImportNodeMeshes(node.meshes, scene, modelPath, env, cache, gl);
    ghost var ms := Step(meshes, State(cache, gl));
    var baseTransform := TransposedCopy(node.transformation);
    obj := new Object3D.WithBase(meshes, baseTransform);
    ProcessAssimpChildren(node, scene, modelPath, env, cache, gl, obj);
    ImportNodeOfLoops(node, scene, modelPath, env, st, ms, Step(obj.children, State(cache, gl)));
  }

  /** The child loop of processAssimpNode: each child of node is processed in
      turn, sharing the cache and the GL context, and added to obj. */
  method ProcessAssimpChildren(node: AiNode, scene: AiScene, modelPath: string, env: Env, cache: TextureCache, gl: Context,
                               obj: Object3D)
    requires forall c <- node.children :: NodeReadable(c, scene)
    requires obj.children == []
    modifies cache, gl, obj
    ensures obj.Value() == old(obj.Value()).(children := obj.children)
    ensures Step(obj.children, State(cache, gl))
         == ImportChildren(node.children[..|node.children|], scene, modelPath, env, old(State(cache, gl)))
    decreases node, 0
  {
    ghost var st := State(cache, gl);
    for i := 0 to |node.children|
      invariant obj.Value() == old(obj.Value()).(children := obj.children)
      invariant Step(obj.children, State(cache, gl)) == ImportChildren(node.children[..i], scene, modelPath, env, st)
    {
      ghost var prev := Step(obj.children, State(cache, gl));
      var child := ProcessAssimpNode(node.children[i], scene, modelPath, env, cache, gl);
      ghost var c := Step(child.Value(), State(cache, gl));
      obj.AddChild(child);
      ImportChildrenNext(node.children, i, scene, modelPath, env, st, prev, c);
    }
  }

  /** assimpLoad: reads the file with the realtime preset (plus FlipUVs when asked);
      on failure, the error; otherwise the walk from the root with a fresh cache. */
  method AssimpLoad(path: string, flipTextureCoords: bool, env: Env, gl: Context) returns (r: Result<Object3D>)
    requires ReadScene(path, flipTextureCoords, env).Ok? ==> NodeReadable(ReadScene(path, flipTextureCoords, env).value.root, ReadScene(path, flipTextureCoords, env).value)
    modifies gl
    ensures ReadScene(path, flipTextureCoords, env).Err? ==>
      r == Err(ReadScene(path, flipTextureCoords, env).message) && gl.arraysGenerated == old(gl.arraysGenerated)
    ensures ReadScene(path, flipTextureCoords, env).Ok? ==>
      var scene := ReadScene(path, flipTextureCoords, env).value;
      var s := ImportNode(scene.root, scene, path, env, ImportState(EmptyCache, old(gl.arraysGenerated)));
      r.Ok? && fresh(r.value) && r.value.Value() == s.value && gl.arraysGenerated == s.state.arrays
  {
    var options := ImportFlags(flipTextureCoords);
    var read := env.readFile(path, options);
    if read.Failed? {
      return Err("Error loading assimp file: " + read.error);
    }
    var scene := read.scene;
    var loadedTextures := new TextureCache();
    var root := ProcessAssimpNode(scene.root, scene, path, env, loadedTextures, gl);
    r := Ok(root);
  }
}
