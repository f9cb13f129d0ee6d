/** Object3D, the scene node: placement parameters, a base transform fixed at
    construction, and exclusively owned lists of meshes and child nodes. Children
    and meshes are held by value, so the hierarchy is a tree without sharing or
    back-references; a node's value is the `Node` datatype. */
module Objects {
  import opened Glm
  import opened Gl
  import opened Meshes

  /** The whole state of an Object3D, children included. */
  datatype Node = Node(
    meshes: seq<MeshData>,
    children: seq<Node>,
    position: Vec3,
    orientation: Vec3,
    scale: Vec3,
    center: Vec3,
    material: Vec4,
    baseTransform: Mat4,
    name: string)

  /** Ambient, diffuse, specular, shininess. */
  const DefaultMaterial: Vec4 := Vec4(0.1, 1.0, 0.3, 4.0)

  /** The node both constructors build: every field at its declared default. */
  function Fresh(meshes: seq<MeshData>, baseTransform: Mat4): Node {
    Node(meshes, [], Zero3, Zero3, One3, Zero3, DefaultMaterial, baseTransform, "")
  }

  /** The node after move(offset). */
  function Moved(n: Node, offset: Vec3): Node {
    n.(position := n.position.Plus(offset))
  }

  /** The node after rotate(rotation). */
  function Rotated(n: Node, rotation: Vec3): Node {
    n.(orientation := n.orientation.Plus(rotation))
  }

  /** The node after grow(growth). */
  function Grown(n: Node, growth: Vec3): Node {
    n.(scale := n.scale.Times(growth))
  }

  /** move and rotate are relative: two calls add both offsets, and nothing but
      position (respectively orientation) changes. */
  lemma RelativeMutatorsAdd(n: Node, a: Vec3, b: Vec3)
    ensures Moved(Moved(n, a), b) == n.(position := Vec3(n.position.x + a.x + b.x, n.position.y + a.y + b.y, n.position.z + a.z + b.z))
    ensures Rotated(Rotated(n, a), b) == n.(orientation := Vec3(n.orientation.x + a.x + b.x, n.orientation.y + a.y + b.y, n.orientation.z + a.z + b.z))
  {
  }

  /** grow is relative: two calls multiply the scale by both factors, and nothing
      else changes. */
  lemma GrowMultiplies(n: Node, a: Vec3, b: Vec3)
    ensures Grown(Grown(n, a), b) == n.(scale := Vec3(n.scale.x * a.x * b.x, n.scale.y * a.y * b.y, n.scale.z * a.z * b.z))
  {
  }

  /** Object3D::buildModelMatrix: post-multiply, in call order, translate by position,
      translate by center*scale, rotate by orientation.z about Z, by orientation.x about
      X, by orientation.y about Y, scale, translate by -center, then the base transform. */
  function ModelMatrix(n: Node, trig: Trig): Mat4 {
    var m := Mul(Identity(), Translate(n.position));
    var m := Mul(m, Translate(n.center.Times(n.scale)));
    var m := Mul(m, Rotate(ZAxis, n.orientation.z, trig));
    var m := Mul(m, Rotate(XAxis, n.orientation.x, trig));
    var m := Mul(m, Rotate(YAxis, n.orientation.y, trig));
    var m := Mul(m, Scale(n.scale));
    var m := Mul(m, Translate(n.center.Neg()));
    Mul(m, n.baseTransform)
  }

  /** The model matrix is the product T(position) T(center*scale) Rz Rx Ry S(scale)
      T(-center) B, whatever the grouping: applied to a vertex, the base transform
      acts first and the translation by position last. */
  lemma ModelMatrixOrder(n: Node, trig: Trig)
    ensures ModelMatrix(n, trig)
         == Mul(Translate(n.position),
            Mul(Translate(n.center.Times(n.scale)),
            Mul(Rotate(ZAxis, n.orientation.z, trig),
            Mul(Rotate(XAxis, n.orientation.x, trig),
            Mul(Rotate(YAxis, n.orientation.y, trig),
            Mul(Scale(n.scale),
            Mul(Translate(n.center.Neg()), n.baseTransform)))))))
  {
    var t1, t2 := Translate(n.position), Translate(n.center.Times(n.scale));
    var rz, rx, ry := Rotate(ZAxis, n.orientation.z, trig), Rotate(XAxis, n.orientation.x, trig), Rotate(YAxis, n.orientation.y, trig);
    var s, t3, b := Scale(n.scale), Translate(n.center.Neg()), n.baseTransform;
    MulIdentityLeft(t1);
    MulAssociative(Mul(Mul(Mul(Mul(Mul(t1, t2), rz), rx), ry), s), t3, b);
    MulAssociative(Mul(Mul(Mul(Mul(t1, t2), rz), rx), ry), s, Mul(t3, b));
    MulAssociative(Mul(Mul(Mul(t1, t2), rz), rx), ry, Mul(s, Mul(t3, b)));
    MulAssociative(Mul(Mul(t1, t2), rz), rx, Mul(ry, Mul(s, Mul(t3, b))));
    MulAssociative(Mul(t1, t2), rz, Mul(rx, Mul(ry, Mul(s, Mul(t3, b)))));
    MulAssociative(t1, t2, Mul(rz, Mul(rx, Mul(ry, Mul(s, Mul(t3, b))))));
  }

  /** A node at the default placement (as both constructors leave it) with an
      identity base transform (as the one-argument constructor gives it) has the
      identity model matrix. */
  lemma DefaultModelIsIdentity(n: Node, trig: Trig)
    requires ExactAtZero(trig)
    requires n.position == Zero3 && n.orientation == Zero3 && n.scale == One3 && n.center == Zero3
    requires n.baseTransform == Identity()
    ensures ModelMatrix(n, trig) == Identity()
  {
    assert n.center.Times(n.scale) == Zero3 && n.center.Neg() == Zero3;
    IdentityFactors(n, trig);
  }

  lemma IdentityFactors(n: Node, trig: Trig)
    requires Translate(n.position) == Identity() && Translate(n.center.Times(n.scale)) == Identity()
    requires Rotate(ZAxis, n.orientation.z, trig) == Identity()
    requires Rotate(XAxis, n.orientation.x, trig) == Identity()
    requires Rotate(YAxis, n.orientation.y, trig) == Identity()
    requires Scale(n.scale) == Identity() && Translate(n.center.Neg()) == Identity()
    requires n.baseTransform == Identity()
    ensures ModelMatrix(n, trig) == Identity()
  {
    MulIdentityLeft(Identity());
  }

  /** With an identity base transform, the centre lands on position + center*scale
      whatever the orientation, so rotation happens about it. Scaling does not: the
      factors T(center*scale) S(scale) T(-center) reduce to S(scale), which scales
      about the local origin. */
  lemma CentreIsPivot(n: Node, trig: Trig)
    requires n.baseTransform == Identity()
    ensures Apply(ModelMatrix(n, trig), Point(n.center)) == Point(n.position.Plus(n.center.Times(n.scale)))
  {
    var t1, t2 := Translate(n.position), Translate(n.center.Times(n.scale));
    var rz, rx, ry := Rotate(ZAxis, n.orientation.z, trig), Rotate(XAxis, n.orientation.x, trig), Rotate(YAxis, n.orientation.y, trig);
    var s, t3 := Scale(n.scale), Translate(n.center.Neg());
    var c := Point(n.center);
    var m1 := Mul(Identity(), t1);
    var m2 := Mul(m1, t2);
    var m3 := Mul(m2, rz);
    var m4 := Mul(m3, rx);
    var m5 := Mul(m4, ry);
    var m6 := Mul(m5, s);
    var m7 := Mul(m6, t3);
    var origin := Point(Zero3);
    assert n.center.Plus(n.center.Neg()) == Zero3;
    assert Zero3.Times(n.scale) == Zero3;
    assert Zero3.Plus(n.center.Times(n.scale)) == n.center.Times(n.scale);
    calc {
      Apply(ModelMatrix(n, trig), c);
      { MulIdentityRight(m7); }
      Apply(m7, c);
      { ApplyMul(m6, t3, c); }
      Apply(m6, origin);
      { ApplyMul(m5, s, origin); }
      Apply(m5, origin);
      { ApplyMul(m4, ry, origin); }
      Apply(m4, origin);
      { ApplyMul(m3, rx, origin); }
      Apply(m3, origin);
      { ApplyMul(m2, rz, origin); }
      Apply(m2, origin);
      { ApplyMul(m1, t2, origin); }
      Apply(m1, Point(n.center.Times(n.scale)));
      { MulIdentityLeft(t1); }
      Apply(t1, Point(n.center.Times(n.scale)));
    }
  }

  /** The draw calls of the meshes n[..k], in list order. */
  function MeshesTrace(ms: seq<MeshData>, k: nat): seq<Event>
    requires k <= |ms|
  {
    if k == 0 then [] else MeshesTrace(ms, k - 1) + RenderTrace(ms[k - 1])
  }

  /** Object3D::renderRecursive as written: the model uniform is the node's own
      model matrix whatever the parent matrix, then every mesh renders, and the
      children are not visited. */
  function RenderAsWritten(n: Node, parentModel: Mat4, trig: Trig): seq<Event> {
    [SetMatUniform("model", ModelMatrix(n, trig))] + MeshesTrace(n.meshes, |n.meshes|)
  }

  /** The index count of e if it is a draw call. */
  function DrawOf(e: Event): seq<u32> {
    if e.DrawTriangles? then [e.count] else []
  }

  /** The matrix e sets if it sets the model uniform. */
  function ModelOf(e: Event): seq<Mat4> {
    if e.SetMatUniform? && e.name == "model" then [e.matValue] else []
  }

  /** The index counts of the draw calls in a trace, in order. */
  function Draws(tr: seq<Event>): seq<u32> {
    if tr == [] then [] else DrawOf(tr[0]) + Draws(tr[1..])
  }

  /** The model matrices a trace sets, in order. */
  function Models(tr: seq<Event>): seq<Mat4> {
    if tr == [] then [] else ModelOf(tr[0]) + Models(tr[1..])
  }

  lemma {:induction false} DrawsAppend(a: seq<Event>, b: seq<Event>)
    ensures Draws(a + b) == Draws(a) + Draws(b)
  {
    if a == [] {
      assert a + b == b;
    } else {
      assert (a + b)[0] == a[0];
      assert (a + b)[1..] == a[1..] + b;
      DrawsAppend(a[1..], b);
    }
  }

  lemma {:induction false} ModelsAppend(a: seq<Event>, b: seq<Event>)
    ensures Models(a + b) == Models(a) + Models(b)
  {
    if a == [] {
      assert a + b == b;
    } else {
      assert (a + b)[0] == a[0];
      assert (a + b)[1..] == a[1..] + b;
      ModelsAppend(a[1..], b);
    }
  }

  /** A trace with neither draw calls nor model uniforms. */
  predicate Quiet(tr: seq<Event>) {
    forall k | 0 <= k < |tr| :: !tr[k].DrawTriangles? && !tr[k].SetMatUniform?
  }

  lemma {:induction false} QuietHasNoDrawsOrModels(tr: seq<Event>)
    requires Quiet(tr)
    ensures Draws(tr) == [] && Models(tr) == []
  {
    if tr != [] {
      QuietHasNoDrawsOrModels(tr[1..]);
    }
  }

  lemma {:induction false} TextureBindingsQuiet(ts: seq<Texture>, k: nat)
    requires k <= |ts|
    ensures Quiet(TextureBindings(ts, k))
  {
    if k > 0 {
      TextureBindingsQuiet(ts, k - 1);
    }
  }

  /** One mesh render is one draw call of faceCount indices and sets no model matrix. */
  lemma MeshRenderDraws(m: MeshData)
    ensures Draws(RenderTrace(m)) == [m.faceCount] && Models(RenderTrace(m)) == []
  {
    var tb := TextureBindings(m.textures, |m.textures|);
    var head := [BindVertexArray(m.vao)] + tb;
    var draw := [DrawTriangles(m.faceCount)];
    var unbind := [BindVertexArray(0), BindTexture2D(0)];
    assert RenderTrace(m) == head + draw + unbind;
    TextureBindingsQuiet(m.textures, |m.textures|);
    assert Quiet(head);
    QuietHasNoDrawsOrModels(head);
    QuietHasNoDrawsOrModels(unbind);
    assert Draws(draw) == [m.faceCount] && Models(draw) == [];
    DrawsAppend(head, draw); DrawsAppend(head + draw, unbind);
    ModelsAppend(head, draw); ModelsAppend(head + draw, unbind);
  }

  /** The face counts of ms[..k], in order. */
  function FaceCounts(ms: seq<MeshData>, k: nat): (counts: seq<u32>)
    requires k <= |ms|
    ensures |counts| == k && forall i | 0 <= i < k :: counts[i] == ms[i].faceCount
  {
    if k == 0 then [] else FaceCounts(ms, k - 1) + [ms[k - 1].faceCount]
  }

  lemma {:induction false} MeshesTraceDraws(ms: seq<MeshData>, k: nat)
    requires k <= |ms|
    ensures Draws(MeshesTrace(ms, k)) == FaceCounts(ms, k)
    ensures Models(MeshesTrace(ms, k)) == []
  {
    if k > 0 {
      MeshesTraceDraws(ms, k - 1);
      MeshRenderDraws(ms[k - 1]);
      DrawsAppend(MeshesTrace(ms, k - 1), RenderTrace(ms[k - 1]));
      ModelsAppend(MeshesTrace(ms, k - 1), RenderTrace(ms[k - 1]));
    }
  }

  /** As written, rendering a node sets exactly one model matrix, buildModelMatrix(),
      whatever the parent matrix, before any draw; then draws every mesh once, in
      list order, with its face count, all under that one matrix; and emits nothing
      for the children. */
  lemma RenderAsWrittenDraws(n: Node, parentModel: Mat4, trig: Trig)
    ensures var tr := RenderAsWritten(n, parentModel, trig);
      && Models(tr) == [ModelMatrix(n, trig)]
      && tr[0] == SetMatUniform("model", ModelMatrix(n, trig))
      && Draws(tr) == FaceCounts(n.meshes, |n.meshes|)
      && tr == RenderAsWritten(n.(children := []), Identity(), trig)
  {
    var head := [SetMatUniform("model", ModelMatrix(n, trig))];
    MeshesTraceDraws(n.meshes, |n.meshes|);
    DrawsAppend(head, MeshesTrace(n.meshes, |n.meshes|));
    ModelsAppend(head, MeshesTrace(n.meshes, |n.meshes|));
  }

  /** NOT the behaviour of the code: the hierarchical rendering its comments ask
      for. The true model matrix is parent * local; meshes render under it; then
      every child renders with this node's true matrix as its parent. */
  function IntendedRender(n: Node, parentModel: Mat4, trig: Trig): seq<Event>
    decreases n, 1
  {
    var trueModel := Mul(parentModel, ModelMatrix(n, trig));
    [SetMatUniform("model", trueModel)]
      + MeshesTrace(n.meshes, |n.meshes|)
      + IntendedChildren(n.children, trueModel, trig)
  }

  /** The intended renders of cs, in list order, each with the given parent matrix. */
  function IntendedChildren(cs: seq<Node>, parentModel: Mat4, trig: Trig): seq<Event>
    decreases cs, 0
  {
    if cs == [] then []
    else IntendedChildren(cs[..|cs| - 1], parentModel, trig) + IntendedRender(cs[|cs| - 1], parentModel, trig)
  }

  /** The matrices an intended rendering sets: parent times local first, then
      those the children set under it. */
  lemma IntendedRenderModels(n: Node, parentModel: Mat4, trig: Trig)
    ensures var t := Mul(parentModel, ModelMatrix(n, trig));
      Models(IntendedRender(n, parentModel, trig)) == [t] + Models(IntendedChildren(n.children, t, trig))
  {
    var t := Mul(parentModel, ModelMatrix(n, trig));
    var ms := MeshesTrace(n.meshes, |n.meshes|);
    var kids := IntendedChildren(n.children, t, trig);
    assert IntendedRender(n, parentModel, trig) == [SetMatUniform("model", t)] + ms + kids;
    MeshesTraceDraws(n.meshes, |n.meshes|);
    ModelsOfSegment(t, ms, kids);
  }

  /** The code's shortcut trueModel = localModel agrees with the intended rendering
      of a root (identity parent) exactly when the root has no children: with a
      child, the intended rendering sets at least two model matrices, the code one. */
  lemma AsWrittenIsIntendedAtChildlessRoot(n: Node, trig: Trig)
    ensures RenderAsWritten(n, Identity(), trig) == IntendedRender(n, Identity(), trig) <==> n.children == []
  {
    if n.children == [] {
      MulIdentityLeft(ModelMatrix(n, trig));
    } else {
      IntendedWithChildrenSetsTwo(n, Identity(), trig);
      RenderAsWrittenDraws(n, Identity(), trig);
    }
  }

  /** A node with a child sets at least two model matrices when rendered as
      intended: its own, and its last child's. */
  lemma IntendedWithChildrenSetsTwo(n: Node, parentModel: Mat4, trig: Trig)
    requires n.children != []
    ensures |Models(IntendedRender(n, parentModel, trig))| >= 2
  {
    var t := Mul(parentModel, ModelMatrix(n, trig));
    var cs := n.children;
    var init := IntendedChildren(cs[..|cs| - 1], t, trig);
    var last := IntendedRender(cs[|cs| - 1], t, trig);
    IntendedRenderModels(n, parentModel, trig);
    IntendedRenderModels(cs[|cs| - 1], t, trig);
    assert IntendedChildren(cs, t, trig) == init + last;
    ModelsAppend(init, last);
  }

  /** The intended rendering of a single child is that child's intended rendering. */
  lemma IntendedOneChild(c: Node, parentModel: Mat4, trig: Trig)
    ensures IntendedChildren([c], parentModel, trig) == IntendedRender(c, parentModel, trig)
  {
    assert [c][..0] == [];
    assert IntendedChildren([], parentModel, trig) == [];
  }

  /** Intended rendering of a root R with one child C that has one child G sets the
      model matrices L(R), L(R) L(C) and L(R) L(C) L(G) in that order, where L is the
      local model matrix. */
  lemma IntendedComposesThreeLevels(r: Node, c: Node, g: Node, trig: Trig)
    requires r.children == [c] && c.children == [g] && g.children == []
    ensures var lr, lc, lg := ModelMatrix(r, trig), ModelMatrix(c, trig), ModelMatrix(g, trig);
      Models(IntendedRender(r, Identity(), trig)) == [lr, Mul(lr, lc), Mul(lr, Mul(lc, lg))]
  {
    var lr, lc, lg := ModelMatrix(r, trig), ModelMatrix(c, trig), ModelMatrix(g, trig);
    IntendedTwoLevels(c, g, lr, trig);
    MulIdentityLeft(lr);
    IntendedSingleChild(r, c, Identity(), trig);
    MulAssociative(lr, lc, lg);
  }

  /** A node C with one leaf child G, rendered under parent matrix P, sets P L(C)
      and then P L(C) L(G). */
  lemma IntendedTwoLevels(c: Node, g: Node, parentModel: Mat4, trig: Trig)
    requires c.children == [g] && g.children == []
    ensures var t := Mul(parentModel, ModelMatrix(c, trig));
      Models(IntendedRender(c, parentModel, trig)) == [t, Mul(t, ModelMatrix(g, trig))]
  {
    var t := Mul(parentModel, ModelMatrix(c, trig));
    IntendedLeaf(g, t, trig);
    IntendedSingleChild(c, g, parentModel, trig);
  }

  /** A model-uniform step, then steps that set no model matrix, then more steps:
      the matrices set are the first one and those of the rest. */
  lemma ModelsOfSegment(t: Mat4, ms: seq<Event>, rest: seq<Event>)
    requires Models(ms) == []
    ensures Models([SetMatUniform("model", t)] + ms + rest) == [t] + Models(rest)
  {
    var head := [SetMatUniform("model", t)];
    assert Models(head) == [t];
    ModelsAppend(head, ms);
    ModelsAppend(head + ms, rest);
  }

  /** A leaf rendered as intended sets one model matrix: parent times local. */
  lemma IntendedLeaf(n: Node, parentModel: Mat4, trig: Trig)
    requires n.children == []
    ensures Models(IntendedRender(n, parentModel, trig)) == [Mul(parentModel, ModelMatrix(n, trig))]
  {
    IntendedRenderModels(n, parentModel, trig);
  }

  /** A node with one child, rendered as intended, sets parent times local, then
      the matrices of the child rendered under that product. */
  lemma IntendedSingleChild(n: Node, c: Node, parentModel: Mat4, trig: Trig)
    requires n.children == [c]
    ensures var t := Mul(parentModel, ModelMatrix(n, trig));
      Models(IntendedRender(n, parentModel, trig)) == [t] + Models(IntendedRender(c, t, trig))
  {
    IntendedRenderModels(n, parentModel, trig);
    IntendedOneChild(c, Mul(parentModel, ModelMatrix(n, trig)), trig);
  }

  class Object3D {
    var meshes: seq<MeshData>
    var children: seq<Node>
    var position: Vec3
    var orientation: Vec3
    var scale: Vec3
    var center: Vec3
    var material: Vec4
    const baseTransform: Mat4
    var name: string

    function Value(): Node
      reads this
    {
      Node(meshes, children, position, orientation, scale, center, material, baseTransform, name)
    }

    /** The one-argument constructor: identity base transform. There is no
        constructor without a mesh list. */
    constructor (meshes: seq<MeshData>)
      ensures Value() == Fresh(meshes, Identity())
      ensures position == Zero3 && orientation == Zero3 && scale == One3 && center == Zero3
      ensures material == DefaultMaterial && name == "" && children == []
    {
      this.meshes := meshes;
      this.children := [];
      this.position := Zero3;
      this.orientation := Zero3;
      this.scale := One3;
      this.center := Zero3;
      this.material := DefaultMaterial;
      this.baseTransform := Identity();
      this.name := "";
    }

    constructor WithBase(meshes: seq<MeshData>, baseTransform: Mat4)
      ensures Value() == Fresh(meshes, baseTransform)
      ensures position == Zero3 && orientation == Zero3 && scale == One3 && center == Zero3
      ensures material == DefaultMaterial && name == "" && children == []
    {
      this.meshes := meshes;
      this.children := [];
      this.position := Zero3;
      this.orientation := Zero3;
      this.scale := One3;
      this.center := Zero3;
      this.material := DefaultMaterial;
      this.baseTransform := baseTransform;
      this.name := "";
    }

    function GetPosition(): Vec3 reads this { position }
    function GetOrientation(): Vec3 reads this { orientation }
    function GetScale(): Vec3 reads this { scale }
    function GetCenter(): Vec3 reads this { center }
    function GetName(): string reads this { name }
    function GetMaterial(): Vec4 reads this { material }

    function NumberOfChildren(): nat reads this { |children| }

    /** The child at index; getChild indexes m_children without a bounds check. */
    function GetChild(index: nat): Node
      reads this
      requires index < NumberOfChildren()
    {
      children[index]
    }

    method SetPosition(position: Vec3)
      modifies this
      ensures Value() == old(Value()).(position := position) && GetPosition() == position
    {
      this.position := position;
    }

    method SetOrientation(orientation: Vec3)
      modifies this
      ensures Value() == old(Value()).(orientation := orientation) && GetOrientation() == orientation
    {
      this.orientation := orientation;
    }

    method SetScale(scale: Vec3)
      modifies this
      ensures Value() == old(Value()).(scale := scale) && GetScale() == scale
    {
      this.scale := scale;
    }

    method SetCenter(center: Vec3)
      modifies this
      ensures Value() == old(Value()).(center := center) && GetCenter() == center
    {
      this.center := center;
    }

    method SetName(name: string)
      modifies this
      ensures Value() == old(Value()).(name := name) && GetName() == name
    {
      this.name := name;
    }

    method SetMaterial(material: Vec4)
      modifies this
      ensures Value() == old(Value()).(material := material) && GetMaterial() == material
    {
      this.material := material;
    }

    method Move(offset: Vec3)
      modifies this
      ensures Value() == Moved(old(Value()), offset)
    {
      position := position.Plus(offset);
    }

    method Rotate(rotation: Vec3)
      modifies this
      ensures Value() == Rotated(old(Value()), rotation)
    {
      orientation := orientation.Plus(rotation);
    }

    method Grow(growth: Vec3)
      modifies this
      ensures Value() == Grown(old(Value()), growth)
    {
      scale := scale.Times(growth);
    }

    /** Appends a copy of child (its value at the time of the call); earlier
        children and every other field are unchanged. */
    method AddChild(child: Object3D)
      modifies this
      ensures Value() == old(Value()).(children := old(children) + [old(child.Value())])
      ensures NumberOfChildren() == old(NumberOfChildren()) + 1
      ensures GetChild(NumberOfChildren() - 1) == old(child.Value())
      ensures forall i | 0 <= i < old(NumberOfChildren()) :: GetChild(i) == old(GetChild(i))
    {
      children := children + [child.Value()];
    }

    method Render(trig: Trig) returns (trace: seq<Event>)
      ensures trace == RenderAsWritten(Value(), Identity(), trig)
    {
      trace := RenderRecursive(trig, Identity());
    }

    method RenderRecursive(trig: Trig, parentModel: Mat4) returns (trace: seq<Event>)
      ensures trace == RenderAsWritten(Value(), parentModel, trig)
    {
      var localModel := ModelMatrix(Value(), trig);
      var trueModel := localModel;
      trace := [SetMatUniform("model", trueModel)];
      for i := 0 to |meshes|
        invariant trace == [SetMatUniform("model", trueModel)] + MeshesTrace(meshes, i)
      {
        trace := trace + RenderTrace(meshes[i]);
      }
    }
  }
}
