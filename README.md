# Scene graph, meshes and asset import — a verified Dafny model

This project models the core of a small OpenGL scene-graph framework:

- **Glm** (`glm.dfy`): 3- and 4-vectors and 4x4 matrices over the reals, stored
  column-major as glm stores them (`m[column][row]`). It has the translate, scale
  and axis-rotation factors that `glm::translate/scale/rotate` post-multiply, and
  matrix product, application and transpose, with associativity and identity laws.
  Cosine and sine come in as a `Trig` parameter. `ExactAtZero(trig)` (cos 0 = 1,
  sin 0 = 0) is the only trigonometric fact used.
- **Gl** (`gl.dfy`): unsigned 32-bit GPU names. Rendering is modelled as a
  *trace*: the sequence of state changes and draw calls a render issues. It also
  has the allocator that hands out vertex-array names.
- **Meshes** (`meshes.dfy`): the `Vertex3D` layout and the `Mesh` class. A mesh
  holds a vertex-array name, an append-only texture list, and vertex and face
  counts fixed at construction. `Mesh::render` is modelled as a trace, and
  `Mesh::square` as fixed geometry whose winding is checked over the reals.
- **Objects** (`objects.dfy`): `Object3D`, a class whose value is the `Node`
  datatype. Children and meshes are held by value, so the hierarchy is a tree.
  The module has the model matrix built by `buildModelMatrix`, the setters, the
  relative mutators, `addChild`, and rendering as a trace.
- **AssimpImport** (`assimp_import.dfy`): the Assimp scene as datatypes. The tree
  walk is written twice: as methods that follow the code (a shared `TextureCache`
  object updated in place, loops that append), and as functions that thread an
  `ImportState`. The methods are proved equal to the functions, and the
  properties are proved about the functions. Those properties are: a mirror tree
  of the same shape; transposed base transforms; three indices per face; textures
  in type order; and each resolved texture path loaded at most once per
  `assimpLoad`.

Where the code's TODO comments describe behaviour the code does not have yet, the model follows the code:

- `Object3D::renderRecursive` sets the node's *local* model matrix and never
  visits the children (src/Object3D.cpp:127, 139-141).
  - `RenderAsWritten` is the code.
  - `IntendedRender` is the parent-times-local rendering the comments ask for. It is
    a separate specification, and lemmas relate the two.
- The vertex-copy loop of `fromAssimpMesh` has no body yet, so the imported
  vertex list is empty (src/AssimpImport.cpp:42-54).
- Textures of type HEIGHT are loaded as `"normalMap"` as well as NORMALS, and
  textures are copied by value into the cache and into each mesh.

## Model

| member | source | states |
|---|---|---|
| Glm.Translate | src/Object3D.cpp:6-7 | the factor moves every point by v, and is the identity when v is zero |
| Glm.Scale | src/Object3D.cpp:11 | the factor multiplies every point component-wise by v, and is the identity when v is (1,1,1) |
| Glm.Rotate | src/Object3D.cpp:8-10 | an axis rotation fixes the origin, and is the identity at angle 0 |
| Glm.RotateIsAboutAxis | src/Object3D.cpp:8-10 | the rotation about an axis fixes every point of that axis and turns the next axis's unit point by the angle towards the axis after it (X to Y about Z, Y to Z about X, Z to X about Y), i.e. it is right-handed |
| Glm.MulAssociative | src/Object3D.cpp:5-15 | matrix product is associative, so the left-to-right chain of post-multiplications has a single meaning |
| Glm.ApplyMul | src/Object3D.cpp:5-15 | applying a product applies the right factor first |
| Glm.Transposed | src/AssimpImport.cpp:132-137 | entry (i, j) of the result is entry (j, i) of the input |
| Glm.TransposeTwice | src/AssimpImport.cpp:132-137 | transposing twice gives back the original matrix |
| Gl.ToU32 | src/Mesh.cpp:10-11 | static_cast to uint32_t keeps every count below 2^32 and never exceeds the count |
| Gl.Context.GenVertexArray | src/Mesh.cpp:15 | hands out the next vertex-array name and advances the allocator by one |
| Meshes.Scalars | include/Mesh.h:8-19 | a vertex is exactly 8 scalars: position xyz, normal xyz, then uv |
| Meshes.ScalarsRoundTrip | include/Mesh.h:8-19 | reading 8 scalars as a vertex and writing it back is the identity, so there are no hidden fields |
| Meshes.Built | src/Mesh.cpp:8-12 | the constructed state has the given textures and name, vertexCount = number of vertices and faceCount = number of indices |
| Meshes.Mesh.constructor | src/Mesh.cpp:8-47 | needs non-empty vertices and faces (it reads element 0 of both) and yields the Built state |
| Meshes.Mesh.WithoutTextures | src/Mesh.cpp:4-6 | is the three-argument constructor with an empty texture list |
| Meshes.Mesh.AddTexture | src/Mesh.cpp:49-51 | appends one texture at the end and changes nothing else |
| Meshes.Mesh.AddTextures | src/Mesh.cpp:53-57 | appends all given textures in their order and changes nothing else |
| Meshes.Mesh.Render | src/Mesh.cpp:59-72 | the loop emits exactly RenderTrace of the mesh state |
| Meshes.TextureBindingsAt | src/Mesh.cpp:61-65 | texture i sets its sampler uniform to i, activates unit i and binds its texture id, in list order |
| Meshes.RenderTraceShape | src/Mesh.cpp:59-72 | binds the vertex array, binds every texture, draws faceCount indices exactly once, then unbinds the vertex array and the 2D texture |
| Meshes.SquareVertices | src/Mesh.cpp:74-89 | 4 vertices, each with z = 0, normal (0,0,1) and corners at plus or minus 0.5 |
| Meshes.SquareFaces | src/Mesh.cpp:82-85 | 6 indices, all below 4 |
| Meshes.SquareTrianglesCounterClockwise | src/Mesh.cpp:83-84 | both triangles (2,1,3) and (3,1,0) wind counter-clockwise seen from +Z, each covering half the 1x1 square |
| Meshes.Mesh.Square | src/Mesh.cpp:74-89 | builds the mesh from the square's vertices and faces with the given textures |
| Objects.RelativeMutatorsAdd | src/Object3D.cpp:94-100 | two moves (rotates) add both offsets to position (orientation) and change nothing else |
| Objects.GrowMultiplies | src/Object3D.cpp:102-104 | two grows multiply scale by both factors component-wise and change nothing else |
| Objects.ModelMatrix | src/Object3D.cpp:5-15 | buildModelMatrix: starting from the identity, post-multiplies in call order T(position), T(center*scale), Rz, Rx, Ry, S(scale), T(-center), then the base transform; its properties are ModelMatrixOrder, DefaultModelIsIdentity and CentreIsPivot |
| Objects.ModelMatrixOrder | src/Object3D.cpp:5-15 | the model matrix is T(position) T(center*scale) Rz Rx Ry S(scale) T(-center) B in that order |
| Objects.DefaultModelIsIdentity | src/Object3D.cpp:5-19 | a node at default placement with identity base transform has the identity model matrix |
| Objects.CentreIsPivot | src/Object3D.cpp:5-15 | with an identity base transform, the centre lands on position + center*scale whatever the orientation, so rotation happens about it (scaling stays about the local origin) |
| Objects.MeshRenderDraws | src/Mesh.cpp:59-72 | one mesh render is one draw call of faceCount indices and sets no model matrix |
| Objects.FaceCounts | src/Object3D.cpp:135-137 | the face counts of the meshes, one per mesh, in list order |
| Objects.MeshesTraceDraws | src/Object3D.cpp:135-137 | rendering the meshes draws each once in list order and sets no model matrix |
| Objects.RenderAsWrittenDraws | src/Object3D.cpp:118-141 | as written: one model uniform, buildModelMatrix(), whatever the parent, first; every mesh drawn under it in order; nothing for the children |
| Objects.RenderAsWritten | src/Object3D.cpp:118-141 | renderRecursive as written: the node's own model matrix as the model uniform whatever the parent matrix, then every mesh's render in list order, and no child visited; RenderAsWrittenDraws states its shape |
| Objects.IntendedRender | src/Object3D.cpp:118-141 | specification of the rendering the TODO comments ask for, not the code's: parent times local as the model uniform, the meshes under it, then every child with that product as its parent; IntendedRenderModels states its matrices |
| Objects.AsWrittenIsIntendedAtChildlessRoot | src/Object3D.cpp:122-127 | at a root, the code's trueModel = localModel rendering equals the parent-times-local rendering if and only if the root has no children |
| Objects.IntendedRenderModels | src/Object3D.cpp:128-141 | intended rendering sets parent-times-local first, then the matrices the children set under it |
| Objects.IntendedWithChildrenSetsTwo | src/Object3D.cpp:124-141 | a node with a child sets at least two model matrices when rendered as intended (the code sets one: RenderAsWrittenDraws) |
| Objects.IntendedLeaf | src/Object3D.cpp:128-137 | a leaf rendered as intended sets exactly one model matrix, parent times local |
| Objects.IntendedSingleChild | src/Object3D.cpp:128-141 | a node with one child sets parent times local, then the child's matrices rendered under that product |
| Objects.IntendedTwoLevels | src/Object3D.cpp:128-141 | intended rendering of a node with one leaf child sets P L(C), then P L(C) L(G) |
| Objects.IntendedComposesThreeLevels | src/Object3D.cpp:128-141 | intended rendering of a three-level chain sets L(R), L(R) L(C), L(R) L(C) L(G) in that order |
| Objects.Object3D.constructor | src/Object3D.cpp:17-19 | takes a mesh list, identity base transform, and the header defaults for every other field |
| Objects.Object3D.WithBase | src/Object3D.cpp:21-24 | takes a mesh list and base transform: position and orientation (0,0,0), scale (1,1,1), centre (0,0,0), material (0.1,1,0.3,4), empty name, no children |
| Objects.Object3D.GetPosition | src/Object3D.cpp:26-28 | returns the position field |
| Objects.Object3D.GetOrientation | src/Object3D.cpp:30-32 | returns the orientation field |
| Objects.Object3D.GetScale | src/Object3D.cpp:34-36 | returns the scale field |
| Objects.Object3D.GetCenter | src/Object3D.cpp:38-43 | returns the rotation centre field |
| Objects.Object3D.GetName | src/Object3D.cpp:45-47 | returns the name field |
| Objects.Object3D.GetMaterial | src/Object3D.cpp:49-51 | returns the material field |
| Objects.Object3D.NumberOfChildren | src/Object3D.cpp:53-55 | the length of the child list |
| Objects.Object3D.GetChild | src/Object3D.cpp:57-63 | the child at index; requires index < NumberOfChildren(), because getChild indexes the list without a bounds check |
| Objects.Object3D.SetPosition | src/Object3D.cpp:65-67 | replaces exactly the position, and GetPosition then returns it |
| Objects.Object3D.SetOrientation | src/Object3D.cpp:69-71 | replaces exactly the orientation, and GetOrientation then returns it |
| Objects.Object3D.SetScale | src/Object3D.cpp:73-75 | replaces exactly the scale, and GetScale then returns it |
| Objects.Object3D.SetCenter | src/Object3D.cpp:81-84 | replaces exactly the centre, and GetCenter then returns it |
| Objects.Object3D.SetName | src/Object3D.cpp:86-88 | replaces exactly the name, and GetName then returns it |
| Objects.Object3D.SetMaterial | src/Object3D.cpp:90-92 | replaces exactly the material, and GetMaterial then returns it |
| Objects.Object3D.Move | src/Object3D.cpp:94-96 | adds the offset to the position and changes nothing else |
| Objects.Object3D.Rotate | src/Object3D.cpp:98-100 | adds the rotation to the orientation and changes nothing else |
| Objects.Object3D.Grow | src/Object3D.cpp:102-104 | multiplies the scale component-wise and changes nothing else |
| Objects.Object3D.AddChild | src/Object3D.cpp:106-108 | appends a copy of the child: count + 1, the last child is the new one, earlier children unchanged |
| Objects.Object3D.Render | src/Object3D.cpp:110-112 | is the recursive render with the identity parent |
| Objects.Object3D.RenderRecursive | src/Object3D.cpp:118-141 | emits the as-written trace: the local model uniform, then each mesh's render in list order |
| AssimpImport.ImportFlags | src/AssimpImport.cpp:93-96 | the realtime preset always, and FlipUVs exactly when flipping is asked for |
| AssimpImport.Flattened | src/AssimpImport.cpp:56-62 | 3 indices per face: indices 0, 1, 2 of each face, in face order |
| AssimpImport.FlattenFaces | src/AssimpImport.cpp:56-62 | the face loop builds exactly Flattened of the faces |
| AssimpImport.LoadTextureSpec | src/AssimpImport.cpp:23-33 | a cache hit returns the cached texture and changes nothing; a miss loads the image once with this type name, inserts it and logs the load |
| AssimpImport.LoadTexturesSpec | src/AssimpImport.cpp:16-35 | one texture per name in index order, each the cache entry of its resolved path; old entries kept; new entries loaded with this type name; consistency kept |
| AssimpImport.LoadTexturesKeys | src/AssimpImport.cpp:20-32 | the cache gains exactly the resolved paths of the names |
| AssimpImport.LoadMaterialTextures | src/AssimpImport.cpp:9-36 | the loop updates the shared cache and returns exactly LoadTextures of the material's names of that type |
| AssimpImport.MaterialTexturesSpec | src/AssimpImport.cpp:64-84 | mesh textures come diffuse, then specular, then height, then normals, each the cache entry of its path; the cache gains exactly the material's paths; a gained path holds the image loaded with "baseTexture" if a diffuse name resolves to it, else "specMap" if a specular name does, else "normalMap" |
| AssimpImport.LoadMeshTextures | src/AssimpImport.cpp:65-84 | the four calls append their lists in that order, threading the cache |
| AssimpImport.ImportMeshSpec | src/AssimpImport.cpp:38-88 | an imported mesh has no vertices, 3 indices per face, its material's textures in type order, and the next vertex-array name |
| AssimpImport.ImportedMeshCannotUpload | src/AssimpImport.cpp:42-54 | as written, the vertex list passed to the Mesh constructor is empty, which violates its precondition |
| AssimpImport.FromAssimpMesh | src/AssimpImport.cpp:38-88 | returns exactly ImportMesh and leaves the cache and allocator in its state |
| AssimpImport.ImportMeshesSpec | src/AssimpImport.cpp:119-123 | one mesh per mesh index, in order, each mirroring the mesh it names and taking consecutive vertex-array names |
| AssimpImport.TransposedCopy | src/AssimpImport.cpp:132-137 | the nested loop leaves base[i][j] = transformation[j][i] for all i, j < 4 |
| AssimpImport.ImportNodeSpec | src/AssimpImport.cpp:112-149 | the Object3D tree has the same shape as the Assimp tree, transposed base transforms, default placement and one vertex array per mesh reference; every mesh anywhere in the tree holds the final cache's entries for its material's paths, so meshes naming one resolved path share one texture; the cache only grows and stays consistent |
| AssimpImport.ImportChildrenSpec | src/AssimpImport.cpp:143-146 | one child per Assimp child, in order, each mirroring it with the final cache's textures |
| AssimpImport.MirrorsKept | src/AssimpImport.cpp:23-32 | a cache entry is never replaced, so a subtree whose textures are a cache's entries keeps them as the cache grows |
| AssimpImport.ImportNodeMeshes | src/AssimpImport.cpp:118-123 | the mesh loop returns exactly ImportMeshes of the node's mesh indices, threading the cache and allocator |
| AssimpImport.ProcessAssimpChildren | src/AssimpImport.cpp:142-146 | the child loop appends exactly ImportChildren of the node's children to the object, changing nothing else in it |
| AssimpImport.ProcessAssimpNode | src/AssimpImport.cpp:112-149 | returns a fresh Object3D whose value is ImportNode, and leaves the cache and allocator in its state |
| AssimpImport.ImportLoadsEachPathOnce | src/AssimpImport.cpp:106-107 | starting from the empty cache, every cached path was loaded exactly once and every loaded path is cached |
| AssimpImport.TextureCache.constructor | src/AssimpImport.cpp:106 | the cache starts empty |
| AssimpImport.ReadScene | src/AssimpImport.cpp:93-104 | reads the file with ImportFlags; a failed read becomes the error "Error loading assimp file: " + the reader's message, otherwise the scene |
| AssimpImport.AssimpLoad | src/AssimpImport.cpp:90-108 | on a failed read, the error "Error loading assimp file: " + message; otherwise the walk from the root with a fresh empty cache |

## Left out

- src/main.cpp is not part of this model: the window, event loop, GL context setup, shader loading, camera and per-frame timing.
- The animator classes are outside the modelled core (scene graph, meshes, import).
- ShaderProgram, Texture, StbImage and Assimp's reader are not part of this model. They are the `Env` functions and the `Event` trace.
- Texture.h is not part of this model. A texture is taken to be its GL name and sampler name, the two fields `Mesh::render` reads.
- The GL calls inside the Mesh constructor (buffer generation and upload, and the unfinished vertex-attribute setup) are left out. Only the vertex-array name and the two counts are kept.
- Floating point: every float is a real, so IEEE rounding is not modelled.
- Trigonometry: cosine and sine are not computed. `glm::rotate` is modelled only for the three unit coordinate axes the code uses.
- Console output (`std::cout` "loading", `std::cerr`) is left out. The thrown `std::runtime_error` is modelled as an `Err` result.
- Move semantics and GPU-handle ownership are not modelled. Meshes are held by value as `MeshData`.
- AssimpImport.ImportMeshSpec: states the as-written empty vertex list (vertexCount 0), not the per-vertex copy the comments describe. That loop body is unfinished, so `mNumVertices` is not used. The walk builds mesh values without calling the Mesh constructor, whose precondition such a list would violate.
- Objects.Object3D.GetChild: returns the child's value. The non-const overload's mutable reference, and edits made through it, are not modelled.
- Meshes.Mesh.Render: the texture unit is a natural number. The `int32_t` loop index and its overflow past 2^31 textures are not modelled.
- AssimpImport.ImportFlags: the post-processing flags are named steps. Their bit values and the contents of the realtime preset are not stated.
- Dead code with no effect on results is left out: the unused `meshes` (src/AssimpImport.cpp:105), the unused `textures` (src/AssimpImport.cpp:126-129), and the always-true unsigned test `mMaterialIndex >= 0` (src/AssimpImport.cpp:66).
- The `render` doc comment in include/Mesh.h:44-49 names parameters that do not exist, so it is not modelled.
- Which names the GL driver hands out is not modelled: the k-th vertex-array name is `vaoName(k)`.
- The `glGenVertexArrays` call inside the Mesh constructor (src/Mesh.cpp:15) is done by the caller: `Meshes.Mesh.constructor` and `Meshes.Mesh.Square` take the generated name as a parameter, and the import walk takes it from `Gl.Context.GenVertexArray`.
- Malformed Assimp scenes are excluded by `NodeReadable`/`MeshReadable`: a material index or mesh index out of range, or a face with fewer than 3 indices (points, lines). The code indexes these without checks (src/AssimpImport.cpp:59-61, 66-67, 121), so its behaviour on them is undefined and not modelled.
