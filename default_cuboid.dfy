/**
 * The cube the builder starts from and the builders the source's own checks
 * use: the default cube (unit size, centred, unit normals, counter-clockwise
 * faceted triangles), the cube scaled by positive factors (normals pointing
 * out on every axis), and the order in which builder operations apply.
 */
module DefaultCuboid {
  import opened LinAlg
  import opened Cuboid
  import opened CuboidProperties

  // ---------------------------------------------------------------------------
  // The default builder
  // ---------------------------------------------------------------------------

  /** The default builder scales volumes by 1. */
  lemma DefaultVolume()
    ensures Volume(CuboidBuilder.New()) == 1.0
  {
    assert Linear(CuboidBuilder.New().matrix) == Identity3;
  }

  /** The default builder carries normals unchanged. */
  lemma DefaultNormalMatrix()
    ensures CuboidBuilder.New().NormalMatrix() == Identity3
  {
    assert Linear(CuboidBuilder.New().matrix) == Identity3;
    assert Invert(Identity3) == Some(Identity3);
  }

  /**
   * The default builder outputs the local cube itself: each vertex sits at
   * its table corner and carries its face's normal.
   */
  lemma DefaultVertex(side: Side, vert: Slot)
    ensures CuboidBuilder.New().VertexAt(side, vert)
         == Vertex(LocalCorner(side, vert), FaceNormal(side), Texcoord(PolyLut[vert]))
  {
    DefaultNormalMatrix();
    ApplyIdentity(FaceNormal(side));
    TransformNormalMatrix(CuboidBuilder.New(), FaceNormal(side));
  }

  /** The absolute value of a real. */
  function Abs(r: real): real {
    if r < 0.0 then -r else r
  }

  /** Every coordinate of `p` is -0.5 or +0.5. */
  predicate HalfUnit(p: Vec3) {
    Abs(p.x) == 0.5 && Abs(p.y) == 0.5 && Abs(p.z) == 0.5
  }

  /** Every corner of the cube lies half a unit from the centre on each axis. */
  lemma CornerHalfUnit(c: CornerCode)
    ensures HalfUnit(Corner(c))
  {
    var p := DecodeCorner(c);
  }

  /** The default cube is one unit wide on every axis: every coordinate of every position is ±0.5. */
  lemma UnitDimensions()
    ensures var vs := CuboidBuilder.New().Vertices();
            forall i :: 0 <= i < |vs| ==> HalfUnit(vs[i].position)
  {
    var b := CuboidBuilder.New();
    forall i | 0 <= i < |b.Vertices()|
      ensures HalfUnit(b.Vertices()[i].position)
    {
      var side, vert := i / VertsPerSide, i % VertsPerSide;
      VerticesAt(b, i, side, vert);
      DefaultVertex(side, vert);
      CornerHalfUnit(CornerCodeAt(side, vert));
    }
  }

  /** The positions of the default cube sum to zero: its centroid is the origin. */
  lemma DefaultCentroid()
    ensures SumPositions(CuboidBuilder.New().Vertices()) == Zero3
  {
    var b := CuboidBuilder.New();
    var t := Truncate(b.matrix.w);
    AllPairs(b);
    assert t == Zero3;
    assert Times(36.0, t) == Zero3;
  }

  /**
   * For a builder of volume 1, such as the default one, each triple of the
   * output shares one normal and the cross product of its edges is that
   * normal itself; the normals of the default builder have unit length
   * (`DefaultVertex`, `UnitNormal`), so there normalising the cross product
   * gives the normal back.
   */
  lemma UnitFaceted(b: CuboidBuilder, side: Side, t: Triangle)
    requires Volume(b) == 1.0
    ensures var vs, i := b.Vertices(), 6 * side + 3 * t;
            Faceted3(vs[i], vs[i + 1], vs[i + 2], 1.0)
  {
    Faceted(b, side, t);
  }

  /**
   * The winding check as the source states it, for a builder of positive
   * volume such as the default one: for each triple, with the eye one normal
   * out from its first vertex, all three vertices lie on the far side of the
   * eye along the edge cross product.
   */
  lemma PositiveCounterClockwise(b: CuboidBuilder, side: Side, t: Triangle)
    requires Volume(b) > 0.0
    ensures var vs, i := b.Vertices(), 6 * side + 3 * t;
            EyeDot(vs[i], vs[i + 1], vs[i + 2], vs[i]) <= 0.0
            && EyeDot(vs[i], vs[i + 1], vs[i + 2], vs[i + 1]) <= 0.0
            && EyeDot(vs[i], vs[i + 1], vs[i + 2], vs[i + 2]) <= 0.0
  {
    CounterClockwise(b, side, t);
  }

  // ---------------------------------------------------------------------------
  // The scaled cube
  // ---------------------------------------------------------------------------

  /** The matrix that scales by the components of `s`. */
  function Diagonal(s: Vec3): Mat3 {
    Mat3(Vec3(s.x, 0.0, 0.0), Vec3(0.0, s.y, 0.0), Vec3(0.0, 0.0, s.z))
  }

  /** All three components are positive. */
  predicate Positive(s: Vec3) {
    s.x > 0.0 && s.y > 0.0 && s.z > 0.0
  }

  /** Scaling the default builder gives the diagonal matrix of the factors as linear part, and no translation. */
  lemma ScaledDefault(x: real, y: real, z: real)
    ensures Linear(CuboidBuilder.New().Scale(x, y, z).matrix) == Diagonal(Vec3(x, y, z))
    ensures Truncate(CuboidBuilder.New().Scale(x, y, z).matrix.w) == Zero3
  {
    var i := Identity4;
    ApplyScale(x, y, z, i.x);
    ApplyScale(x, y, z, i.y);
    ApplyScale(x, y, z, i.z);
    ApplyScale(x, y, z, i.w);
  }

  lemma PositiveProduct(s: Vec3)
    requires Positive(s)
    ensures Determinant(Diagonal(s)) > 0.0
  {
    assert s.x * s.y > 0.0;
  }

  /**
   * For a scaling by positive factors, the normal matrix divides a normal by
   * the factors: scaling the carried normal gives the original back.
   */
  lemma DiagonalNormal(b: CuboidBuilder, s: Vec3, n: Vec3)
    requires Linear(b.matrix) == Diagonal(s) && Positive(s)
    ensures ScalePoint(s.x, s.y, s.z, Apply3(b.NormalMatrix(), n)) == n
  {
    PositiveProduct(s);
    NormalPreservesDot(b, n, Vec3(1.0, 0.0, 0.0));
    NormalPreservesDot(b, n, Vec3(0.0, 1.0, 0.0));
    NormalPreservesDot(b, n, Vec3(0.0, 0.0, 1.0));
    UnscaleDots(Linear(b.matrix), s, n, Apply3(b.NormalMatrix(), n));
  }

  /** The three axis dot products of `DiagonalNormal`, on vectors alone. */
  lemma UnscaleDots(l: Mat3, s: Vec3, n: Vec3, w: Vec3)
    requires l == Diagonal(s)
    requires Dot(w, Apply3(l, Vec3(1.0, 0.0, 0.0))) == Dot(n, Vec3(1.0, 0.0, 0.0))
    requires Dot(w, Apply3(l, Vec3(0.0, 1.0, 0.0))) == Dot(n, Vec3(0.0, 1.0, 0.0))
    requires Dot(w, Apply3(l, Vec3(0.0, 0.0, 1.0))) == Dot(n, Vec3(0.0, 0.0, 1.0))
    ensures ScalePoint(s.x, s.y, s.z, w) == n
  {
  }

  /** A diagonal transform without translation scales the point. */
  lemma DiagonalPoint(l: Mat3, t: Vec3, s: Vec3, c: Vec3, q: Vec3)
    requires l == Diagonal(s) && t == Zero3 && q == Add(Apply3(l, c), t)
    ensures q == ScalePoint(s.x, s.y, s.z, c)
  {
  }

  /**
   * Along one axis, the normal component `m` of a face is 0, or it is ±1 and
   * points the way the coordinate `c` of a corner on that face lies.
   */
  predicate AxisFacing(m: real, c: real) {
    m == 0.0 || (m == 1.0 && c == 0.5) || (m == -1.0 && c == -0.5)
  }

  /** Every point on a face lies on the side its normal points to, axis by axis. */
  lemma FaceFacing(side: Side, c: Vec3)
    requires OnFace(side, c)
    ensures var n := FaceNormal(side); AxisFacing(n.x, c.x) && AxisFacing(n.y, c.y) && AxisFacing(n.z, c.z)
  {
    if side == 0 {
      assert FaceNormal(side) == Vec3(-1.0, 0.0, 0.0);
    } else if side == 1 {
      assert FaceNormal(side) == Vec3(1.0, 0.0, 0.0);
    } else if side == 2 {
      assert FaceNormal(side) == Vec3(0.0, -1.0, 0.0);
    } else if side == 3 {
      assert FaceNormal(side) == Vec3(0.0, 1.0, 0.0);
    } else if side == 4 {
      assert FaceNormal(side) == Vec3(0.0, 0.0, -1.0);
    } else {
      assert FaceNormal(side) == Vec3(0.0, 0.0, 1.0);
    }
  }

  /** Moving from `p` by `n` does not bring a coordinate closer to zero. */
  predicate Away(p: real, n: real) {
    Abs(p + n) >= Abs(p)
  }

  /** Moving from `p` by `n` does not bring any coordinate closer to zero. */
  predicate Beyond(p: Vec3, n: Vec3) {
    Away(p.x, n.x) && Away(p.y, n.y) && Away(p.z, n.z)
  }

  /** `w` is zero or has the sign of `p`. */
  predicate SameWay(p: real, w: real) {
    w == 0.0 || (p > 0.0 && w > 0.0) || (p < 0.0 && w < 0.0)
  }

  /** Moving by an offset that is zero or has the coordinate's own sign goes no closer to zero. */
  lemma SameWayAway(p: real, w: real)
    requires SameWay(p, w)
    ensures Away(p, w)
  {
  }

  /**
   * One axis of the outward test: for a positive factor `s`, when `s * w` is
   * the face normal's component `m`, the normal `w` is zero or points the
   * way the scaled corner coordinate `s * c` lies.
   */
  lemma FacingSameWay(s: real, c: real, w: real, m: real)
    requires s > 0.0 && s * w == m && AxisFacing(m, c)
    ensures SameWay(s * c, w)
  {
  }

  /** `FacingSameWay` on all three axes. */
  lemma ScaledFacing(s: Vec3, c: Vec3, w: Vec3, n: Vec3)
    requires Positive(s) && ScalePoint(s.x, s.y, s.z, w) == n
    requires AxisFacing(n.x, c.x) && AxisFacing(n.y, c.y) && AxisFacing(n.z, c.z)
    ensures SameWay(s.x * c.x, w.x) && SameWay(s.y * c.y, w.y) && SameWay(s.z * c.z, w.z)
  {
    FacingSameWay(s.x, c.x, w.x, n.x);
    FacingSameWay(s.y, c.y, w.y, n.y);
    FacingSameWay(s.z, c.z, w.z, n.z);
  }

  /** `SameWayAway` on all three axes. */
  lemma SameWayBeyond(s: Vec3, c: Vec3, w: Vec3)
    requires SameWay(s.x * c.x, w.x) && SameWay(s.y * c.y, w.y) && SameWay(s.z * c.z, w.z)
    ensures Beyond(ScalePoint(s.x, s.y, s.z, c), w)
  {
    SameWayAway(s.x * c.x, w.x);
    SameWayAway(s.y * c.y, w.y);
    SameWayAway(s.z * c.z, w.z);
  }

  /** For a scaling by positive factors, a vertex moved by its normal is no closer to the centre on any axis. */
  lemma OutwardVertex(b: CuboidBuilder, s: Vec3, side: Side, vert: Slot)
    requires Linear(b.matrix) == Diagonal(s) && Truncate(b.matrix.w) == Zero3 && Positive(s)
    ensures Beyond(b.VertexAt(side, vert).position, b.VertexAt(side, vert).normal)
  {
    var c := LocalCorner(side, vert);
    DiagonalNormal(b, s, FaceNormal(side));
    TransformNormalMatrix(b, FaceNormal(side));
    LocalCornerOnFace(side, vert);
    DiagonalPoint(Linear(b.matrix), Truncate(b.matrix.w), s, c, b.Transform(c));
    FaceFacing(side, c);
    ScaledFacing(s, c, b.VertexAt(side, vert).normal, FaceNormal(side));
    SameWayBeyond(s, c, b.VertexAt(side, vert).normal);
  }

  /** The outward test on the whole output of a scaling by positive factors. */
  lemma DiagonalOutward(b: CuboidBuilder, s: Vec3)
    requires Linear(b.matrix) == Diagonal(s) && Truncate(b.matrix.w) == Zero3 && Positive(s)
    ensures var vs := b.Vertices();
            forall i :: 0 <= i < |vs| ==> Beyond(vs[i].position, vs[i].normal)
  {
    forall i | 0 <= i < |b.Vertices()|
      ensures Beyond(b.Vertices()[i].position, b.Vertices()[i].normal)
    {
      VerticesAt(b, i, i / VertsPerSide, i % VertsPerSide);
      OutwardVertex(b, s, i / VertsPerSide, i % VertsPerSide);
    }
  }

  /**
   * The outward-normal check on the default cube scaled by positive factors:
   * every position moved by its normal is at least as far from the centre on
   * every axis.
   */
  lemma ScaledOutward(x: real, y: real, z: real)
    requires x > 0.0 && y > 0.0 && z > 0.0
    ensures var vs := CuboidBuilder.New().Scale(x, y, z).Vertices();
            forall i :: 0 <= i < |vs| ==> Beyond(vs[i].position, vs[i].normal)
  {
    ScaledDefault(x, y, z);
    DiagonalOutward(CuboidBuilder.New().Scale(x, y, z), Vec3(x, y, z));
  }

  // ---------------------------------------------------------------------------
  // Order of the builder operations
  // ---------------------------------------------------------------------------

  /**
   * Scaling then translating and translating then scaling send a point to
   * the same place exactly when the scaling leaves the offset where it is.
   */
  lemma ScaleTranslateOrder(b: CuboidBuilder, x: real, y: real, z: real, t: Vec3, p: Vec3)
    ensures b.Scale(x, y, z).Translate(t.x, t.y, t.z).Transform(p) == b.Translate(t.x, t.y, t.z).Scale(x, y, z).Transform(p)
            <==> ScalePoint(x, y, z, t) == t
  {
    var o := b.Transform(p);
    ScaleAdd(x, y, z, o, t);
    assert b.Scale(x, y, z).Translate(t.x, t.y, t.z).Transform(p) == Add(ScalePoint(x, y, z, o), t);
    assert b.Translate(t.x, t.y, t.z).Scale(x, y, z).Transform(p) == ScalePoint(x, y, z, Add(o, t));
  }

  /** Scaling distributes over a sum. */
  lemma ScaleAdd(x: real, y: real, z: real, a: Vec3, c: Vec3)
    ensures ScalePoint(x, y, z, Add(a, c)) == Add(ScalePoint(x, y, z, a), ScalePoint(x, y, z, c))
  {
  }

  /** The operations do not commute: scaling by 2 along x and moving by 1 along x, in both orders. */
  lemma NotCommutative()
    ensures CuboidBuilder.New().Scale(2.0, 1.0, 1.0).Translate(1.0, 0.0, 0.0)
         != CuboidBuilder.New().Translate(1.0, 0.0, 0.0).Scale(2.0, 1.0, 1.0)
  {
    ScaleTranslateOrder(CuboidBuilder.New(), 2.0, 1.0, 1.0, Vec3(1.0, 0.0, 0.0), Zero3);
  }
}
