/**
 * What the cuboid's output promises: the face tables describe a closed unit
 * cube, and every transform the builder reaches keeps the triangles flat,
 * consistently wound and lit by normals that point away from the centre.
 */
module CuboidProperties {
  import opened LinAlg
  import opened Cuboid

  /** One of the two triangles of a face: slots 0..2 or slots 3..5. */
  type Triangle = t: int | 0 <= t < 2

  /** The corner code that slot `vert` of face `side` takes from the tables. */
  function CornerCodeAt(side: Side, vert: Slot): CornerCode {
    IndexLut[PolyLut[vert] + side * 4]
  }

  /** The local (untransformed) position of slot `vert` of face `side`. */
  function LocalCorner(side: Side, vert: Slot): Vec3 {
    Corner(CornerCodeAt(side, vert))
  }

  /** -1 for the faces facing down an axis, +1 for those facing up it. */
  function Sign(side: Side): real {
    if side % 2 == 0 then -1.0 else 1.0
  }

  /** A local point lies in the plane of face `side`: half a unit out along its normal. */
  predicate OnFace(side: Side, p: Vec3) {
    Dot(FaceNormal(side), p) == 0.5
  }

  // ---------------------------------------------------------------------------
  // The tables
  // ---------------------------------------------------------------------------

  /** The dot product with a face normal picks the face's own coordinate, signed. */
  lemma DotFaceNormal(side: Side, p: Vec3)
    ensures Dot(FaceNormal(side), p) == Sign(side) * Component(p, Axis(side))
  {
    if side == 0 {
      assert FaceNormal(side) == Vec3(-1.0, 0.0, 0.0);
    } else if side == 1 {
      assert FaceNormal(side) == Vec3(1.0, 0.0, 0.0);
    } else if side == 2 {
      assert FaceNormal(side) == Vec3(0.0, -1.0, 0.0);
    } else if side == 3 {
      assert FaceNormal(side) == Vec3(0.0, 1.0, 0.0);
    } else if side == 4 {
      assert FaceNormal(side) == Vec3(0.0, 0.0, -1.0);
    } else {
      assert FaceNormal(side) == Vec3(0.0, 0.0, 1.0);
    }
  }

  /** Every face normal has unit length. */
  lemma UnitNormal(side: Side)
    ensures Dot(FaceNormal(side), FaceNormal(side)) == 1.0
  {
    DotFaceNormal(side, FaceNormal(side));
  }

  /** Bit `axis` of a corner code in the decoding's order: bit 1 for x, bit 0 for y, bit 2 for z. */
  function CornerBit(c: CornerCode, axis: nat): int
    requires axis < 3
  {
    if axis == 0 then c / 2 % 2 else if axis == 1 then c % 2 else c / 4
  }

  /** A corner code lies on face `side` when its bit for the face's axis matches the face's sign. */
  predicate CodeOnFace(side: Side, c: CornerCode) {
    CornerBit(c, Axis(side)) == side % 2
  }

  /** The decoded corner lies on a face exactly when its code does. */
  lemma CodeOnFaceMeaning(side: Side, c: CornerCode)
    ensures OnFace(side, Corner(c)) <==> CodeOnFace(side, c)
  {
    var axis := Axis(side);
    DotFaceNormal(side, Corner(c));
    CornerComponent(c, axis);
    SignHalf(side, CornerBit(c, axis));
  }

  /** Each coordinate of a corner is ±0.5 as the code's bit for that axis is set or clear. */
  lemma CornerComponent(c: CornerCode, axis: nat)
    requires axis < 3
    ensures 0 <= CornerBit(c, axis) <= 1
    ensures Component(Corner(c), axis) == Half(CornerBit(c, axis))
  {
    var p := DecodeCorner(c);
  }

  /** Half a unit along a face's sign is +0.5 exactly when the bit matches the face. */
  lemma SignHalf(side: Side, bit: int)
    requires 0 <= bit <= 1
    ensures Sign(side) * Half(bit) == 0.5 <==> bit == side % 2
  {
  }

  /** The four corner codes the table lists for face `side`. */
  function FaceCodeList(side: Side): (r: seq<CornerCode>)
    ensures |r| == 4
    ensures forall vert: Slot :: CornerCodeAt(side, vert) == r[PolyLut[vert]]
  {
    [IndexLut[side * 4], IndexLut[side * 4 + 1], IndexLut[side * 4 + 2], IndexLut[side * 4 + 3]]
  }

  /**
   * The corner table lists, for each face, four different corners, and these
   * are exactly the corners of the cube that lie on that face.
   */
  lemma FaceCorners(side: Side)
    ensures forall q1, q2 :: 0 <= q1 < 4 && 0 <= q2 < 4 && FaceCodeList(side)[q1] == FaceCodeList(side)[q2] ==> q1 == q2
    ensures forall c: CornerCode :: OnFace(side, Corner(c)) <==> c in FaceCodeList(side)
  {
    FaceCodes(side);
    forall c: CornerCode
      ensures OnFace(side, Corner(c)) <==> c in FaceCodeList(side)
    {
      CodeOnFaceMeaning(side, c);
    }
  }

  /** `FaceCorners` on the codes alone. */
  lemma FaceCodes(side: Side)
    ensures forall q1, q2 :: 0 <= q1 < 4 && 0 <= q2 < 4 && FaceCodeList(side)[q1] == FaceCodeList(side)[q2] ==> q1 == q2
    ensures forall c: CornerCode :: CodeOnFace(side, c) <==> c in FaceCodeList(side)
  {
    FaceCodeListValue(side);
    FaceCodeFacts(side, FaceCodeList(side));
  }

  /** The table rows, written out. */
  lemma FaceCodeListValue(side: Side)
    ensures FaceCodeList(side) == [[0, 4, 1, 5], [6, 2, 7, 3], [0, 2, 4, 6], [5, 7, 1, 3], [2, 0, 3, 1], [4, 6, 5, 7]][side]
  {
    if side == 0 {} else if side == 1 {} else if side == 2 {} else if side == 3 {} else if side == 4 {} else {}
  }

  lemma FaceCodeFacts(side: Side, face: seq<CornerCode>)
    requires face == [[0, 4, 1, 5], [6, 2, 7, 3], [0, 2, 4, 6], [5, 7, 1, 3], [2, 0, 3, 1], [4, 6, 5, 7]][side]
    ensures forall q1, q2 :: 0 <= q1 < 4 && 0 <= q2 < 4 && face[q1] == face[q2] ==> q1 == q2
    ensures forall c: CornerCode :: CodeOnFace(side, c) <==> c in face
  {
  }

  // ---------------------------------------------------------------------------
  // Local geometry of the triangles
  // ---------------------------------------------------------------------------

  /**
   * The four corners of each face of the unit cube centred at the origin,
   * written out in the order the corner table lists them.
   */
  function FaceQuads(side: Side): (r: seq<Vec3>)
    ensures |r| == 4
  {
    [[Vec3(-0.5, -0.5, -0.5), Vec3(-0.5, -0.5, 0.5), Vec3(-0.5, 0.5, -0.5), Vec3(-0.5, 0.5, 0.5)],
     [Vec3(0.5, -0.5, 0.5), Vec3(0.5, -0.5, -0.5), Vec3(0.5, 0.5, 0.5), Vec3(0.5, 0.5, -0.5)],
     [Vec3(-0.5, -0.5, -0.5), Vec3(0.5, -0.5, -0.5), Vec3(-0.5, -0.5, 0.5), Vec3(0.5, -0.5, 0.5)],
     [Vec3(-0.5, 0.5, 0.5), Vec3(0.5, 0.5, 0.5), Vec3(-0.5, 0.5, -0.5), Vec3(0.5, 0.5, -0.5)],
     [Vec3(0.5, -0.5, -0.5), Vec3(-0.5, -0.5, -0.5), Vec3(0.5, 0.5, -0.5), Vec3(-0.5, 0.5, -0.5)],
     [Vec3(-0.5, -0.5, 0.5), Vec3(0.5, -0.5, 0.5), Vec3(-0.5, 0.5, 0.5), Vec3(0.5, 0.5, 0.5)]][side]
  }

  /** The six face normals, written out. */
  function FaceNormals(side: Side): Vec3 {
    [Vec3(-1.0, 0.0, 0.0), Vec3(1.0, 0.0, 0.0), Vec3(0.0, -1.0, 0.0),
     Vec3(0.0, 1.0, 0.0), Vec3(0.0, 0.0, -1.0), Vec3(0.0, 0.0, 1.0)][side]
  }

  /** The corner table and the bit decoding give the corners written out above. */
  lemma LocalCornerTable(side: Side, vert: Slot)
    ensures LocalCorner(side, vert) == FaceQuads(side)[PolyLut[vert]]
  {
    var f := FaceCodeList(side);
    var q := PolyLut[vert];
    assert LocalCorner(side, vert) == Corner(f[q]);
    FaceCodeTable(side, q);
  }

  /** Corner `q` of face `side`, decoded from the table. */
  lemma FaceCodeTable(side: Side, q: Quad)
    ensures Corner(FaceCodeList(side)[q]) == FaceQuads(side)[q]
  {
    FaceCodeListValue(side);
    CornerValues();
  }

  /** The face normals are the ones written out above. */
  lemma FaceNormalTable(side: Side)
    ensures FaceNormal(side) == FaceNormals(side)
  {
    if side == 0 {} else if side == 1 {} else if side == 2 {} else if side == 3 {} else if side == 4 {} else {}
  }

  /** The eight corners of the cube, decoded. */
  lemma CornerValues()
    ensures Corner(0) == Vec3(-0.5, -0.5, -0.5) && Corner(1) == Vec3(-0.5, 0.5, -0.5)
    ensures Corner(2) == Vec3(0.5, -0.5, -0.5) && Corner(3) == Vec3(0.5, 0.5, -0.5)
    ensures Corner(4) == Vec3(-0.5, -0.5, 0.5) && Corner(5) == Vec3(-0.5, 0.5, 0.5)
    ensures Corner(6) == Vec3(0.5, -0.5, 0.5) && Corner(7) == Vec3(0.5, 0.5, 0.5)
  {
  }

  /**
   * In local coordinates each triangle spans a unit right angle whose edge
   * cross product is the face normal itself: seen from outside the cube, the
   * triangle winds counter-clockwise.
   */
  lemma LocalWinding(side: Side, t: Triangle)
    ensures Cross(Sub(LocalCorner(side, 3 * t + 1), LocalCorner(side, 3 * t)),
                  Sub(LocalCorner(side, 3 * t + 2), LocalCorner(side, 3 * t))) == FaceNormal(side)
  {
    CodeWinding(side, t);
    WedgeCross(LocalCorner(side, 3 * t), LocalCorner(side, 3 * t + 1), LocalCorner(side, 3 * t + 2), FaceNormal(side));
  }

  /** The edge cross product of a triangle, one coordinate plane at a time. */
  lemma WedgeCross(p0: Vec3, p1: Vec3, p2: Vec3, n: Vec3)
    requires WedgesMatch(p0, p1, p2, n)
    ensures Cross(Sub(p1, p0), Sub(p2, p0)) == n
  {
  }

  /**
   * The cross product of the edges from `(a0, b0)` to `(a1, b1)` and to
   * `(a2, b2)` in a coordinate plane: twice the signed area of the triangle.
   */
  function Wedge(a0: real, a1: real, a2: real, b0: real, b1: real, b2: real): real {
    (a1 - a0) * (b2 - b0) - (b1 - b0) * (a2 - a0)
  }

  /** The edge cross product of the triangle `p0`, `p1`, `p2` is `n`, written coordinate plane by coordinate plane. */
  predicate WedgesMatch(p0: Vec3, p1: Vec3, p2: Vec3, n: Vec3) {
    && Wedge(p0.y, p1.y, p2.y, p0.z, p1.z, p2.z) == n.x
    && Wedge(p0.z, p1.z, p2.z, p0.x, p1.x, p2.x) == n.y
    && Wedge(p0.x, p1.x, p2.x, p0.y, p1.y, p2.y) == n.z
  }

  /**
   * The winding on the corners the table lists, one coordinate plane at a
   * time: the triangle's area in the plane of the face is the face's sign,
   * and in the two planes across the face it is zero.
   */
  lemma CodeWinding(side: Side, t: Triangle)
    ensures WedgesMatch(LocalCorner(side, 3 * t), LocalCorner(side, 3 * t + 1), LocalCorner(side, 3 * t + 2), FaceNormal(side))
  {
    var c0, c1, c2 := CornerCodeAt(side, 3 * t), CornerCodeAt(side, 3 * t + 1), CornerCodeAt(side, 3 * t + 2);
    var p0, p1, p2 := DecodeCorner(c0), DecodeCorner(c1), DecodeCorner(c2);
    var n := FaceNormal(side);
    assert n == Vec3(AxisSign(side, 0), AxisSign(side, 1), AxisSign(side, 2)) by {
      assert Component(n, 0) == n.x && Component(n, 1) == n.y && Component(n, 2) == n.z;
    }
    BitWinding(side, t);
  }

  /** The coordinate of a face's normal along `axis`: the face's sign on its own axis, zero on the others. */
  function AxisSign(side: Side, axis: nat): real {
    if Axis(side) == axis then Sign(side) else 0.0
  }

  /** `CodeWinding` on the bits of the listed corner codes, before they are decoded to points. */
  lemma BitWinding(side: Side, t: Triangle)
    ensures var c0, c1, c2 := CornerCodeAt(side, 3 * t), CornerCodeAt(side, 3 * t + 1), CornerCodeAt(side, 3 * t + 2);
            && Wedge(Half(c0 % 2), Half(c1 % 2), Half(c2 % 2), Half(c0 / 4), Half(c1 / 4), Half(c2 / 4)) == AxisSign(side, 0)
            && Wedge(Half(c0 / 4), Half(c1 / 4), Half(c2 / 4), Half(c0 / 2 % 2), Half(c1 / 2 % 2), Half(c2 / 2 % 2)) == AxisSign(side, 1)
            && Wedge(Half(c0 / 2 % 2), Half(c1 / 2 % 2), Half(c2 / 2 % 2), Half(c0 % 2), Half(c1 % 2), Half(c2 % 2)) == AxisSign(side, 2)
  {
    if side == 0 {
      if t == 0 {} else {}
    } else if side == 1 {
      if t == 0 {} else {}
    } else if side == 2 {
      if t == 0 {} else {}
    } else if side == 3 {
      if t == 0 {} else {}
    } else if side == 4 {
      if t == 0 {} else {}
    } else {
      if t == 0 {} else {}
    }
  }

  /** Every corner a face's vertex slots take lies on that face. */
  lemma LocalCornerOnFace(side: Side, vert: Slot)
    ensures OnFace(side, LocalCorner(side, vert))
  {
    FaceCorners(side);
    assert CornerCodeAt(side, vert) in FaceCodeList(side);
  }

  // ---------------------------------------------------------------------------
  // The transformed output
  // ---------------------------------------------------------------------------

  /** The determinant of the builder's linear part: the signed volume the cube is scaled by. */
  function Volume(b: CuboidBuilder): real {
    Determinant(Linear(b.matrix))
  }

  /** The transform carries the difference of two points through its linear part. */
  lemma EdgeImage(b: CuboidBuilder, p: Vec3, q: Vec3)
    ensures Sub(b.Transform(q), b.Transform(p)) == Apply3(Linear(b.matrix), Sub(q, p))
  {
    ApplySub(Linear(b.matrix), q, p);
  }

  /**
   * Flat shading: for a non-singular transform, the edge cross product of
   * every triangle is its (shared) vertex normal times the determinant.
   */
  lemma FacetedTriangle(b: CuboidBuilder, side: Side, t: Triangle)
    requires Volume(b) != 0.0
    ensures Faceted3(b.VertexAt(side, 3 * t), b.VertexAt(side, 3 * t + 1), b.VertexAt(side, 3 * t + 2), Volume(b))
  {
    var l := Linear(b.matrix);
    var c0, c1, c2 := LocalCorner(side, 3 * t), LocalCorner(side, 3 * t + 1), LocalCorner(side, 3 * t + 2);
    EdgeImage(b, c0, c1);
    EdgeImage(b, c0, c2);
    CrossCofactor(l, Sub(c1, c0), Sub(c2, c0));
    LocalWinding(side, t);
    NormalMatrixCofactor(b, FaceNormal(side));
    TransformNormalMatrix(b, FaceNormal(side));
  }

  /**
   * For a non-singular transform, every vertex normal makes a dot product of
   * exactly 0.5 with the vector from the image of the cube's centre to the
   * vertex: the normals point away from the centre, whatever the transform.
   */
  lemma OutwardNormal(b: CuboidBuilder, side: Side, vert: Slot)
    requires Volume(b) != 0.0
    ensures var v := b.VertexAt(side, vert); Dot(v.normal, Sub(v.position, b.Transform(Zero3))) == 0.5
  {
    var c := LocalCorner(side, vert);
    EdgeImage(b, Zero3, c);
    assert Sub(c, Zero3) == c;
    NormalPreservesDot(b, FaceNormal(side), c);
    TransformNormalMatrix(b, FaceNormal(side));
    LocalCornerOnFace(side, vert);
  }

  /** For a non-singular transform, the vertex normal is perpendicular to every edge within its face. */
  lemma NormalTangent(b: CuboidBuilder, side: Side, va: Slot, vb: Slot, u: Vertex, v: Vertex)
    requires Volume(b) != 0.0
    requires u == b.VertexAt(side, va) && v == b.VertexAt(side, vb)
    ensures Dot(u.normal, Sub(v.position, u.position)) == 0.0
  {
    var ca, cb := LocalCorner(side, va), LocalCorner(side, vb);
    EdgeImage(b, ca, cb);
    NormalPreservesDot(b, FaceNormal(side), Sub(cb, ca));
    TransformNormalMatrix(b, FaceNormal(side));
    LocalCornerOnFace(side, va);
    LocalCornerOnFace(side, vb);
    DotSub(FaceNormal(side), cb, ca);
  }

  lemma DotSub(n: Vec3, a: Vec3, b: Vec3)
    ensures Dot(n, Sub(a, b)) == Dot(n, a) - Dot(n, b)
  {
  }

  /**
   * The check the source applies to each triangle: the eye placed one normal
   * out from the first vertex sees vertex `vk` on the far side of the plane
   * through the eye perpendicular to the edge cross product. It holds for
   * every transform with positive determinant; a mirroring transform
   * (negative determinant) reverses it.
   */
  lemma CounterClockwiseVertex(b: CuboidBuilder, side: Side, t: Triangle, vk: Slot)
    requires Volume(b) != 0.0
    requires 3 * t <= vk < 3 * t + 3
    ensures EyeBehind(b.VertexAt(side, 3 * t), b.VertexAt(side, 3 * t + 1), b.VertexAt(side, 3 * t + 2),
                      b.VertexAt(side, vk), Volume(b))
  {
    var v0, u := b.VertexAt(side, 3 * t), b.VertexAt(side, vk);
    FacetedTriangle(b, side, t);
    NormalTangent(b, side, 3 * t, vk, v0, u);
    EyeSide(Volume(b), v0.normal, v0.position, u.position);
  }

  /** The eye test holds for all three vertices of every triangle. */
  lemma CounterClockwiseTriangle(b: CuboidBuilder, side: Side, t: Triangle)
    requires Volume(b) != 0.0
    ensures CounterClockwise3(b.VertexAt(side, 3 * t), b.VertexAt(side, 3 * t + 1), b.VertexAt(side, 3 * t + 2),
                              Volume(b))
  {
    CounterClockwiseVertex(b, side, t, 3 * t);
    CounterClockwiseVertex(b, side, t, 3 * t + 1);
    CounterClockwiseVertex(b, side, t, 3 * t + 2);
  }

  /**
   * With the cross product `d w` of a triangle and the eye at `p0 + w`, a
   * point `p` in the plane through `p0` perpendicular to `w` lies at signed
   * distance `-d |w|²` from the eye, in units of the cross product.
   */
  lemma EyeSide(d: real, w: Vec3, p0: Vec3, p: Vec3)
    requires Dot(w, Sub(p, p0)) == 0.0
    ensures Dot(Times(d, w), Sub(p, Add(p0, w))) == -d * Dot(w, w)
    ensures Dot(w, w) >= 0.0
    ensures d > 0.0 ==> -d * Dot(w, w) <= 0.0
    ensures d < 0.0 ==> -d * Dot(w, w) >= 0.0
  {
    assert Sub(p, Add(p0, w)) == Sub(Sub(p, p0), w);
    DotTimes(d, w, Sub(Sub(p, p0), w));
    DotSub(w, Sub(p, p0), w);
    Squares(w);
    SignOfProduct(d, Dot(w, w));
  }

  lemma Squares(w: Vec3)
    ensures Dot(w, w) >= 0.0
  {
  }

  lemma SignOfProduct(d: real, s: real)
    requires s >= 0.0
    ensures d > 0.0 ==> -d * s <= 0.0
    ensures d < 0.0 ==> -d * s >= 0.0
  {
  }

  // ---------------------------------------------------------------------------
  // The output sequence, three vertices at a time
  // ---------------------------------------------------------------------------

  /**
   * A triple of output vertices is flat-shaded with factor `d`: all three
   * carry the same normal, and the cross product of its edges is `d` times it.
   */
  predicate Faceted3(v0: Vertex, v1: Vertex, v2: Vertex, d: real) {
    Cross(Sub(v1.position, v0.position), Sub(v2.position, v0.position)) == Times(d, v0.normal)
    && v1.normal == v0.normal && v2.normal == v0.normal
  }

  /**
   * The winding check on a triple: with the eye one normal out from the
   * first vertex, the dot product of the edge cross product with the vector
   * from the eye to `vk`.
   */
  function EyeDot(v0: Vertex, v1: Vertex, v2: Vertex, vk: Vertex): real {
    Dot(Cross(Sub(v1.position, v0.position), Sub(v2.position, v0.position)),
        Sub(vk.position, Add(v0.position, v0.normal)))
  }

  /** The eye test passes for `vk` when `d` is positive, and is reversed when `d` is negative. */
  predicate EyeBehind(v0: Vertex, v1: Vertex, v2: Vertex, vk: Vertex, d: real) {
    (d > 0.0 ==> EyeDot(v0, v1, v2, vk) <= 0.0) && (d < 0.0 ==> EyeDot(v0, v1, v2, vk) >= 0.0)
  }

  /** The eye test on all three vertices of a triple. */
  predicate CounterClockwise3(v0: Vertex, v1: Vertex, v2: Vertex, d: real) {
    EyeBehind(v0, v1, v2, v0, d) && EyeBehind(v0, v1, v2, v1, d) && EyeBehind(v0, v1, v2, v2, d)
  }

  /** Triangle `t` of face `side` takes indices `6 * side + 3 * t` to `6 * side + 3 * t + 2` of the output. */
  lemma TriangleAt(b: CuboidBuilder, side: Side, t: Triangle)
    ensures 6 * side + 3 * t + 2 < |b.Vertices()|
    ensures b.Vertices()[6 * side + 3 * t] == b.VertexAt(side, 3 * t)
    ensures b.Vertices()[6 * side + 3 * t + 1] == b.VertexAt(side, 3 * t + 1)
    ensures b.Vertices()[6 * side + 3 * t + 2] == b.VertexAt(side, 3 * t + 2)
  {
    VerticesAt(b, 6 * side + 3 * t, side, 3 * t);
    VerticesAt(b, 6 * side + 3 * t + 1, side, 3 * t + 1);
    VerticesAt(b, 6 * side + 3 * t + 2, side, 3 * t + 2);
  }

  /**
   * The output three vertices at a time, as the source's tests walk it (the
   * triple starting at index `6 * side + 3 * t`): for a non-singular
   * transform each triple shares one normal, and its edge cross product is
   * that normal times the determinant.
   */
  lemma Faceted(b: CuboidBuilder, side: Side, t: Triangle)
    requires Volume(b) != 0.0
    ensures var vs, i := b.Vertices(), 6 * side + 3 * t;
            Faceted3(vs[i], vs[i + 1], vs[i + 2], Volume(b))
  {
    TriangleAt(b, side, t);
    FacetedTriangle(b, side, t);
  }

  /**
   * The winding check on the output, three vertices at a time, as the
   * source's tests walk it.
   */
  lemma CounterClockwise(b: CuboidBuilder, side: Side, t: Triangle)
    requires Volume(b) != 0.0
    ensures var vs, i := b.Vertices(), 6 * side + 3 * t;
            CounterClockwise3(vs[i], vs[i + 1], vs[i + 2], Volume(b))
  {
    TriangleAt(b, side, t);
    CounterClockwiseTriangle(b, side, t);
  }

  // ---------------------------------------------------------------------------
  // Centroid
  // ---------------------------------------------------------------------------

  /** The sum of the positions of a sequence of vertices. */
  function SumPositions(vs: seq<Vertex>): Vec3 {
    if |vs| == 0 then Zero3 else Add(SumPositions(vs[..|vs| - 1]), vs[|vs| - 1].position)
  }

  /** The sum of the local corners of the first `k` slots of face `side`. */
  function SlotSum(side: Side, k: nat): Vec3
    requires k <= VertsPerSide
  {
    if k == 0 then Zero3 else Add(SlotSum(side, k - 1), LocalCorner(side, k - 1))
  }

  /**
   * The six slots of a face sum to three times its normal: the face's four
   * corners cancel out on the two axes within the face.
   */
  lemma FaceSumValue(side: Side)
    ensures SlotSum(side, VertsPerSide) == Times(3.0, FaceNormal(side))
  {
    assert SlotSum(side, 6) == Add(SlotSum(side, 5), LocalCorner(side, 5));
    assert SlotSum(side, 5) == Add(SlotSum(side, 4), LocalCorner(side, 4));
    assert SlotSum(side, 4) == Add(SlotSum(side, 3), LocalCorner(side, 3));
    assert SlotSum(side, 3) == Add(SlotSum(side, 2), LocalCorner(side, 2));
    assert SlotSum(side, 2) == Add(SlotSum(side, 1), LocalCorner(side, 1));
    LocalCornerTable(side, 0);
    LocalCornerTable(side, 1);
    LocalCornerTable(side, 2);
    LocalCornerTable(side, 3);
    LocalCornerTable(side, 4);
    LocalCornerTable(side, 5);
    FaceNormalTable(side);
    FaceSumTable(side);
  }

  lemma FaceSumTable(side: Side)
    ensures var p := FaceQuads(side);
            Add(Add(Add(Add(Add(Add(Zero3, p[0]), p[1]), p[2]), p[2]), p[1]), p[3]) == Times(3.0, FaceNormals(side))
  {
    var p := FaceQuads(side);
    assert p[0] == FaceQuads(side)[0];
  }

  /** Opposite faces have opposite normals. */
  lemma OppositeNormals(j: nat, s0: Side, s1: Side)
    requires s0 == 2 * j && s1 == s0 + 1
    ensures Add(FaceNormal(s0), FaceNormal(s1)) == Zero3
  {
  }

  /**
   * The positions of the first `k` vertices of face `side` (output indices
   * `n0 = 6 * side` up to `n = n0 + k`) add the linear part applied to the
   * sum of their local corners, plus `k` translations.
   */
  lemma {:induction false} SlotPrefix(b: CuboidBuilder, side: Side, k: nat, n0: nat, n: nat)
    requires k <= VertsPerSide && n0 == VertsPerSide * side && n == n0 + k
    ensures n <= |b.Vertices()|
    ensures SumPositions(b.Vertices()[..n])
         == Add(SumPositions(b.Vertices()[..n0]),
                Add(Apply3(Linear(b.matrix), SlotSum(side, k)), Times(k as real, Truncate(b.matrix.w))))
  {
    var l, t := Linear(b.matrix), Truncate(b.matrix.w);
    if k > 0 {
      var m, km := n - 1, k - 1;
      SlotPrefix(b, side, km, n0, m);
      SumPositionsStep(b.Vertices(), m, n);
      VerticesAt(b, m, side, km);
      assert b.Vertices()[m].position == Add(Apply3(l, LocalCorner(side, km)), t);
      assert SlotSum(side, k) == Add(SlotSum(side, km), LocalCorner(side, km));
      SlotStep(l, t, SumPositions(b.Vertices()[..n0]), SlotSum(side, km), LocalCorner(side, km),
               b.Vertices()[m].position, km as real, k as real);
      assert SumPositions(b.Vertices()[..n])
         == Add(SumPositions(b.Vertices()[..n0]),
                Add(Apply3(Linear(b.matrix), SlotSum(side, k)), Times(k as real, Truncate(b.matrix.w))));
    } else {
      assert n == n0;
      assert Apply3(l, Zero3) == Zero3;
      assert SumPositions(b.Vertices()[..n])
         == Add(SumPositions(b.Vertices()[..n0]),
                Add(Apply3(Linear(b.matrix), SlotSum(side, k)), Times(k as real, Truncate(b.matrix.w))));
    }
  }

  /** Summing a prefix one element longer. */
  lemma SumPositionsStep(vs: seq<Vertex>, m: nat, n: nat)
    requires n == m + 1 <= |vs|
    ensures SumPositions(vs[..n]) == Add(SumPositions(vs[..m]), vs[m].position)
  {
    assert vs[..n][..m] == vs[..m];
  }

  /** The affine step of `SlotPrefix`, on vectors alone. */
  lemma SlotStep(l: Mat3, t: Vec3, s0: Vec3, acc: Vec3, c: Vec3, p: Vec3, k: real, k1: real)
    requires p == Add(Apply3(l, c), t) && k1 == k + 1.0
    ensures Add(Add(s0, Add(Apply3(l, acc), Times(k, t))), p) == Add(s0, Add(Apply3(l, Add(acc, c)), Times(k1, t)))
  {
    ApplyAdd(l, acc, c);
    TimesAdd(k, 1.0, k1, t);
  }

  /** Scaling a vector distributes over a sum of factors. */
  lemma TimesAdd(a: real, b: real, c: real, v: Vec3)
    requires c == a + b
    ensures Times(c, v) == Add(Times(a, v), Times(b, v))
  {
  }

  /**
   * The positions of the first `j` pairs of opposite faces (the first
   * `n = 12 * j` vertices) sum to `n` translations: within each pair the
   * local corners cancel out.
   */
  lemma {:induction false} PairPrefix(b: CuboidBuilder, j: nat, n: nat)
    requires j <= 3 && n == 2 * VertsPerSide * j
    ensures n <= |b.Vertices()|
    ensures SumPositions(b.Vertices()[..n]) == Times(n as real, Truncate(b.matrix.w))
  {
    var l, t := Linear(b.matrix), Truncate(b.matrix.w);
    if j > 0 {
      var n0 := n - 2 * VertsPerSide;
      var mid := n0 + VertsPerSide;
      var s0 := 2 * (j - 1);
      var s1 := s0 + 1;
      PairPrefix(b, j - 1, n0);
      SlotPrefix(b, s0, VertsPerSide, n0, mid);
      SlotPrefix(b, s1, VertsPerSide, mid, n);
      FaceSumValue(s0);
      FaceSumValue(s1);
      OppositeNormals(j - 1, s0, s1);
      PairStep(l, t, FaceNormal(s0), FaceNormal(s1), SlotSum(s0, VertsPerSide), SlotSum(s1, VertsPerSide),
               n0 as real, VertsPerSide as real, n as real);
    } else {
      assert b.Vertices()[..0] == [];
    }
  }

  /** The affine step of `PairPrefix`, on vectors alone. */
  lemma PairStep(l: Mat3, t: Vec3, u: Vec3, w: Vec3, a: Vec3, c: Vec3, k0: real, six: real, k: real)
    requires Add(u, w) == Zero3 && a == Times(3.0, u) && c == Times(3.0, w)
    requires six == 6.0 && k == k0 + 2.0 * six
    ensures Add(Add(Times(k0, t), Add(Apply3(l, a), Times(six, t))), Add(Apply3(l, c), Times(six, t)))
         == Times(k, t)
  {
    ApplyAdd(l, a, c);
    assert Add(a, c) == Zero3;
    assert Apply3(l, Zero3) == Zero3;
    TimesAdd(k0, 2.0 * six, k, t);
  }

  /**
   * The centroid of the output is the image of the cube's centre: the 36
   * positions sum to 36 times it, whatever the transform.
   */
  lemma Centroid(b: CuboidBuilder)
    ensures SumPositions(b.Vertices()) == Times(36.0, b.Transform(Zero3))
  {
    AllPairs(b);
    assert Apply3(Linear(b.matrix), Zero3) == Zero3;
  }

  lemma AllPairs(b: CuboidBuilder)
    ensures SumPositions(b.Vertices()) == Times(36.0, Truncate(b.matrix.w))
  {
    var vs := b.Vertices();
    var n := |vs|;
    PairPrefix(b, 3, n);
    WholePrefix(vs);
  }

  /** The prefix as long as the sequence is the sequence. */
  lemma WholePrefix<T>(s: seq<T>)
    ensures s[..|s|] == s
  {
  }


  // ---------------------------------------------------------------------------
  // Texture coordinates
  // ---------------------------------------------------------------------------

  /** Every texture coordinate of the output lies on a corner of the unit square. */
  lemma TexcoordRange(b: CuboidBuilder)
    ensures forall i :: 0 <= i < |b.Vertices()| ==> UnitCorner(b.Vertices()[i].texcoord)
  {
    forall i | 0 <= i < |b.Vertices()|
      ensures UnitCorner(b.Vertices()[i].texcoord)
    {
      VerticesAt(b, i, i / VertsPerSide, i % VertsPerSide);
      TexcoordCorner(PolyLut[i % VertsPerSide]);
    }
  }

  /** Both coordinates are 0 or 1. */
  predicate UnitCorner(uv: Vec2) {
    (uv.x == 0.0 || uv.x == 1.0) && (uv.y == 0.0 || uv.y == 1.0)
  }

  /** Each corner of a face is textured with a corner of the unit square. */
  lemma TexcoordCorner(q: Quad)
    ensures UnitCorner(Texcoord(q))
  {
  }

  /**
   * The first vertex of the output takes (0, 0) and the sixth (1, 1): with
   * `TexcoordRange`, the smallest coordinates of the output are (0, 0) and the
   * largest (1, 1).
   */
  lemma TexcoordExtremes(b: CuboidBuilder)
    ensures 5 < |b.Vertices()|
    ensures b.Vertices()[0].texcoord == Vec2(0.0, 0.0)
    ensures b.Vertices()[5].texcoord == Vec2(1.0, 1.0)
  {
    VerticesAt(b, 0, 0, 0);
    VerticesAt(b, 5, 0, 5);
  }

  /**
   * Within a face, two vertex slots get the same texture coordinate exactly
   * when they sit at the same corner: the face is mapped one-to-one onto the
   * unit square.
   */
  lemma FaceTexture(side: Side, v1: Slot, v2: Slot)
    ensures Texcoord(PolyLut[v1]) == Texcoord(PolyLut[v2]) <==> LocalCorner(side, v1) == LocalCorner(side, v2)
  {
    var f := FaceCodeList(side);
    FaceCodes(side);
    TexcoordInjective(PolyLut[v1], PolyLut[v2]);
    CornerInjective(f[PolyLut[v1]], f[PolyLut[v2]]);
  }

  /** Different quad positions get different texture coordinates. */
  lemma TexcoordInjective(q1: Quad, q2: Quad)
    ensures Texcoord(q1) == Texcoord(q2) <==> q1 == q2
  {
  }

  /** Different corner codes decode to different corners. */
  lemma CornerInjective(c1: CornerCode, c2: CornerCode)
    ensures Corner(c1) == Corner(c2) <==> c1 == c2
  {
    assert DecodeCorner(c1) == Corner(c1) && DecodeCorner(c2) == Corner(c2);
  }
}
