/**
 * The cuboid builder of glium_shapes: an accumulated model-space transform
 * and the 36 vertices (6 faces, 2 triangles each) of a unit cube centred at
 * the origin, pushed through that transform.
 *
 * Numbers are exact reals instead of `f32`. A vertex normal is kept as the
 * normal matrix applied to the face normal, before `normalize()`.
 */
module Cuboid {
  import opened LinAlg

  /** A face: 0..5 stand for -X, +X, -Y, +Y, -Z, +Z. */
  type Side = s: int | 0 <= s < 6
  /** A vertex slot within a face: 0..5, two triangles of three. */
  type Slot = v: int | 0 <= v < 6
  /** A cube corner: bit 0 selects +Y, bit 1 selects +X, bit 2 selects +Z. */
  type CornerCode = c: int | 0 <= c < 8
  /** One of the four corners of a face, in the order the corner table lists them. */
  type Quad = q: int | 0 <= q < 4

  /** The 4×4 matrices whose bottom row is (0, 0, 0, 1): every transform the builder can reach. */
  type AffineMat4 = m: Mat4 | IsAffine(m) witness Identity4

  const NumSides := 6
  const VertsPerSide := 6

  /** The four corners of each face, face after face: -X, +X, -Y, +Y, -Z, +Z. */
  const IndexLut: seq<CornerCode> := [
    0, 4, 1, 5,
    6, 2, 7, 3,
    0, 2, 4, 6,
    5, 7, 1, 3,
    2, 0, 3, 1,
    4, 6, 5, 7
  ]

  /** The corner of its face that each vertex slot takes: triangles (0, 1, 2) and (2, 1, 3). */
  const PolyLut: seq<Quad> := [0, 1, 2, 2, 1, 3]

  /** One output vertex. */
  datatype Vertex = Vertex(position: Vec3, normal: Vec3, texcoord: Vec2)

  /** -0.5 for a clear bit, +0.5 for a set one. */
  function Half(bit: int): real {
    if bit == 1 then 0.5 else -0.5
  }

  /**
   * The eight corners of the unit cube centred at the origin, by code: x is
   * +0.5 when bit 1 is set, y when bit 0 is, z when bit 2 is, and -0.5 otherwise.
   */
  const Corners: seq<Vec3> := [
    Vec3(-0.5, -0.5, -0.5), Vec3(-0.5, 0.5, -0.5), Vec3(0.5, -0.5, -0.5), Vec3(0.5, 0.5, -0.5),
    Vec3(-0.5, -0.5, 0.5), Vec3(-0.5, 0.5, 0.5), Vec3(0.5, -0.5, 0.5), Vec3(0.5, 0.5, 0.5)
  ]

  /** The local position of corner `c`. */
  function Corner(c: CornerCode): Vec3 {
    Corners[c]
  }

  /**
   * The corner decoding as the vertex loop writes it, with bit masks and a
   * shift on the code: each coordinate is -0.5 or +0.5 as its bit is clear
   * or set, which gives the corner of the table.
   */
  function DecodeCorner(c: CornerCode): (p: Vec3)
    ensures p == Vec3(Half(c / 2 % 2), Half(c % 2), Half(c / 4))
    ensures p == Corner(c)
  {
    var b := c as bv32;
    CornerBits(c);
    Vec3(((b & 2) as int - 1) as real * 0.5,
         ((b & 1) as int * 2 - 1) as real * 0.5,
         (((b >> 1) & 2) as int - 1) as real * 0.5)
  }

  /** The three bit tests of the corner decoding, in arithmetic terms. */
  lemma CornerBits(c: CornerCode)
    ensures (c as bv32 & 2) as int == 2 * (c / 2 % 2)
    ensures (c as bv32 & 1) as int == c % 2
    ensures ((c as bv32 >> 1) & 2) as int == 2 * (c / 4)
  {
    if c == 0 {
    } else if c == 1 {
    } else if c == 2 {
    } else if c == 3 {
    } else if c == 4 {
    } else if c == 5 {
    } else if c == 6 {
    } else {
    }
  }

  /** The axis a face is perpendicular to: 0 for x, 1 for y, 2 for z. */
  function Axis(side: Side): nat {
    side / 2
  }

  /**
   * The unit normal of a face in local coordinates: zero on every axis but
   * the face's own, and there -1 for an even side and +1 for an odd one.
   */
  function FaceNormal(side: Side): (n: Vec3)
    ensures Component(n, Axis(side)) == (if side % 2 == 0 then -1.0 else 1.0)
    ensures forall j :: 0 <= j < 3 && j != Axis(side) ==> Component(n, j) == 0.0
  {
    var s := ((side % 2) * 2) as real - 1.0;
    Vec3(if side / 2 == 0 then s else 0.0,
         if side / 2 == 1 then s else 0.0,
         if side / 2 == 2 then s else 0.0)
  }

  /**
   * The texture coordinate of corner `q` of a face: its column and its row in
   * a 2×2 grid, so that the corner reads back as twice the row plus the column.
   */
  function Texcoord(q: Quad): (t: Vec2)
    ensures 2.0 * t.y + t.x == q as real
  {
    Vec2((q % 2) as real, (q / 2) as real)
  }

  /**
   * The point a homogeneous vector stands for (cgmath's
   * `Point3::from_homogeneous`): the first three components divided by `w`.
   */
  function FromHomogeneous(h: Vec4): (p: Vec3)
    requires h.w != 0.0
    ensures h.w == 1.0 ==> p == Truncate(h)
  {
    Div(Truncate(h), h.w)
  }

  /** cgmath's `Matrix4::from_nonuniform_scale`. */
  function ScaleMatrix(x: real, y: real, z: real): Mat4 {
    Mat4(Vec4(x, 0.0, 0.0, 0.0), Vec4(0.0, y, 0.0, 0.0), Vec4(0.0, 0.0, z, 0.0), Vec4(0.0, 0.0, 0.0, 1.0))
  }

  /** cgmath's `Matrix4::from_translation`. */
  function TranslationMatrix(x: real, y: real, z: real): Mat4 {
    Mat4(Vec4(1.0, 0.0, 0.0, 0.0), Vec4(0.0, 1.0, 0.0, 0.0), Vec4(0.0, 0.0, 1.0, 0.0), Vec4(x, y, z, 1.0))
  }

  /** The product of two affine matrices is affine. */
  lemma AffineCompose(a: Mat4, b: Mat4)
    requires IsAffine(a) && IsAffine(b)
    ensures IsAffine(Compose4(a, b))
  {
  }

  /** `q` scaled componentwise by (x, y, z). */
  function ScalePoint(x: real, y: real, z: real, q: Vec3): Vec3 {
    Vec3(x * q.x, y * q.y, z * q.z)
  }

  /**
   * The builder: the transform accumulated so far. Every operation puts its
   * own matrix in front of the accumulated one, so it acts on the shape as
   * already transformed.
   */
  datatype CuboidBuilder = CuboidBuilder(matrix: AffineMat4) {

    /** A fresh builder: the identity transform, which leaves every point where it is. */
    static function New(): (b: CuboidBuilder)
      ensures forall p :: b.Transform(p) == p
    {
      IdentityTransform();
      CuboidBuilder(Identity4)
    }

    /**
     * Where the transform takes a point: the linear part applied to it plus
     * the translation column. `HomogeneousTransform` shows that this is the
     * route through homogeneous coordinates the vertex loop takes.
     */
    function Transform(p: Vec3): Vec3 {
      Add(Apply3(Linear(matrix), p), Truncate(matrix.w))
    }

    /** Scaling by (x, y, z) after the transform so far. */
    function Scale(x: real, y: real, z: real): (r: CuboidBuilder)
      ensures forall p :: r.Transform(p) == ScalePoint(x, y, z, Transform(p))
    {
      AffineCompose(ScaleMatrix(x, y, z), matrix);
      var r := CuboidBuilder(Compose4(ScaleMatrix(x, y, z), matrix));
      ScaleTransform(this, x, y, z);
      r
    }

    /** Translation by (x, y, z) after the transform so far. */
    function Translate(x: real, y: real, z: real): (r: CuboidBuilder)
      ensures forall p :: r.Transform(p) == Add(Transform(p), Vec3(x, y, z))
    {
      AffineCompose(TranslationMatrix(x, y, z), matrix);
      var r := CuboidBuilder(Compose4(TranslationMatrix(x, y, z), matrix));
      TranslateTransform(this, x, y, z);
      r
    }

    /**
     * The matrix that carries face normals: the transposed inverse of the
     * linear part, or the identity when that part is singular.
     */
    function NormalMatrix(): Mat3 {
      Transpose3(Invert(Linear(matrix)).GetOr(Identity3))
    }

    /**
     * Where the normal matrix takes a face normal `n`: through the transposed
     * inverse of the linear part, and nowhere when that part is singular.
     * `TransformNormalMatrix` shows that this is `NormalMatrix()` applied to `n`.
     */
    function TransformNormal(n: Vec3): Vec3 {
      match Invert(Linear(matrix))
      case Some(inv) => Apply3(Transpose3(inv), n)
      case None => n
    }

    /** Vertex `vert` of face `side`. */
    function VertexAt(side: Side, vert: Slot): Vertex {
      var q := PolyLut[vert];
      Vertex(Transform(Corner(IndexLut[q + side * 4])), TransformNormal(FaceNormal(side)), Texcoord(q))
    }

    /** The whole output of the vertex loop: vertex `vert` of face `side` at index `6 * side + vert`. */
    function Vertices(): (r: seq<Vertex>)
      ensures |r| == VertsPerSide * NumSides
    {
      seq(VertsPerSide * NumSides, (i: int) requires 0 <= i < VertsPerSide * NumSides =>
        VertexAt(i / VertsPerSide, i % VertsPerSide))
    }

    /**
     * The vertex loop: for each face, set up its normal, then push its six
     * vertices. It always succeeds, with the vertices of `Vertices()`.
     */
    method BuildVertices() returns (vertices: seq<Vertex>)
      ensures vertices == Vertices()
    {
      var normalMatrix := NormalMatrix();
      vertices := [];
      for side := 0 to NumSides
        invariant vertices == Vertices()[..VertsPerSide * side]
      {
        var normal := Zero3;
        normal := WithComponent(normal, side / 2, ((side % 2) * 2) as real - 1.0);
        assert normal == FaceNormal(side);
        for vert := 0 to VertsPerSide
          invariant vertices == Vertices()[..VertsPerSide * side + vert]
        {
          var coord := IndexLut[PolyLut[vert] + side * 4];
          var vpos := Point(DecodeCorner(coord));
          HomogeneousTransform(this, Corner(coord));
          var vertex := Vertex(FromHomogeneous(Apply4(matrix, vpos)),
                               Apply3(normalMatrix, normal),
                               Texcoord(PolyLut[vert]));
          assert vertex.position == Transform(Corner(coord));
          TransformNormalMatrix(this, normal);
          assert vertex.normal == TransformNormal(FaceNormal(side));
          assert vertex.texcoord == Texcoord(PolyLut[vert]);
          assert vertex == VertexAt(side, vert);
          VerticesAt(this, VertsPerSide * side + vert, side, vert);
          PrefixStep(Vertices(), VertsPerSide * side + vert);
          vertices := vertices + [vertex];
        }
      }
    }
  }

  /**
   * The normal matrix falls back to the identity exactly when the linear part
   * is singular; otherwise its transpose is the inverse of the linear part.
   */
  lemma NormalMatrixSpec(b: CuboidBuilder)
    ensures Determinant(Linear(b.matrix)) == 0.0 ==> b.NormalMatrix() == Identity3
    ensures Determinant(Linear(b.matrix)) != 0.0 ==>
              Compose3(Transpose3(b.NormalMatrix()), Linear(b.matrix)) == Identity3
  {
    var l := Linear(b.matrix);
    InvertSpec(l);
    if Determinant(l) != 0.0 {
      TransposeTwice(Invert(l).value);
    }
  }

  /**
   * The normal a vertex carries is the normal matrix applied to the face
   * normal; when the linear part is singular, that is the face normal itself.
   */
  lemma TransformNormalMatrix(b: CuboidBuilder, n: Vec3)
    ensures b.TransformNormal(n) == Apply3(b.NormalMatrix(), n)
    ensures Determinant(Linear(b.matrix)) == 0.0 ==> b.TransformNormal(n) == n
  {
    InvertSpec(Linear(b.matrix));
    if Invert(Linear(b.matrix)).None? {
      ApplyIdentity(n);
    }
  }

  /**
   * For a non-singular transform, the normal matrix is the cofactor matrix
   * divided by the determinant: scaling what it does to any vector by the
   * determinant gives what the cofactor matrix does.
   */
  lemma NormalMatrixCofactor(b: CuboidBuilder, n: Vec3)
    requires Determinant(Linear(b.matrix)) != 0.0
    ensures Times(Determinant(Linear(b.matrix)), Apply3(b.NormalMatrix(), n)) == Apply3(Cofactor(Linear(b.matrix)), n)
  {
    var l := Linear(b.matrix);
    var d := Determinant(l);
    var k := Cofactor(l);
    var q := Mat3(Div(k.x, d), Div(k.y, d), Div(k.z, d));
    TransposeTwice(q);
    assert b.NormalMatrix() == q;
    ApplyDivided(k, d, n);
  }

  /**
   * The normal matrix undoes the linear part under the dot product: a
   * transformed normal makes the same dot product with a transformed
   * direction as the original normal with the original direction.
   */
  lemma NormalPreservesDot(b: CuboidBuilder, n: Vec3, v: Vec3)
    requires Determinant(Linear(b.matrix)) != 0.0
    ensures Dot(Apply3(b.NormalMatrix(), n), Apply3(Linear(b.matrix), v)) == Dot(n, v)
  {
    var nm := b.NormalMatrix();
    var l := Linear(b.matrix);
    NormalMatrixSpec(b);
    TransposeTwice(nm);
    TransposeDot(Transpose3(nm), n, Apply3(l, v));
    ComposeApply3(Transpose3(nm), l, v);
    ApplyIdentity(v);
  }

  /** Entry `i = 6 * side + vert` of the output is vertex `vert` of face `side`. */
  lemma VerticesAt(b: CuboidBuilder, i: int, side: Side, vert: Slot)
    requires i == VertsPerSide * side + vert
    ensures 0 <= i < |b.Vertices()|
    ensures b.Vertices()[i] == b.VertexAt(side, vert)
  {
    var s := b.Vertices();
    assert s[i] == b.VertexAt(i / VertsPerSide, i % VertsPerSide);
    IndexSplit(side, vert);
    SameVertex(b, i / VertsPerSide, i % VertsPerSide, side, vert);
  }

  /** Index `6 * side + vert` splits back into its face and its slot. */
  lemma IndexSplit(side: Side, vert: Slot)
    ensures (VertsPerSide * side + vert) / VertsPerSide == side
    ensures (VertsPerSide * side + vert) % VertsPerSide == vert
  {
  }

  /** Equal face and slot give equal vertices. */
  lemma SameVertex(b: CuboidBuilder, s1: Side, v1: Slot, s2: Side, v2: Slot)
    requires s1 == s2 && v1 == v2
    ensures b.VertexAt(s1, v1) == b.VertexAt(s2, v2)
  {
  }

  /** Extending a prefix by one element. */
  lemma PrefixStep<T>(s: seq<T>, n: nat)
    requires n < |s|
    ensures s[..n + 1] == s[..n] + [s[n]]
  {
  }

  /**
   * A point taken to homogeneous coordinates, multiplied by the matrix and
   * brought back (cgmath's `transform_point`) lands where `Transform` says:
   * the matrix is affine, so the divide is by 1.
   */
  lemma HomogeneousTransform(b: CuboidBuilder, p: Vec3)
    ensures Apply4(b.matrix, Point(p)).w == 1.0
    ensures FromHomogeneous(Apply4(b.matrix, Point(p))) == b.Transform(p)
  {
    ApplyPoint(b.matrix, p);
  }

  /** The identity matrix leaves every point where it is. */
  lemma IdentityTransform()
    ensures forall p :: CuboidBuilder(Identity4).Transform(p) == p
  {
    forall p {
      ApplyIdentity(p);
    }
  }

  /** Scaling after `b` scales the points `b` produces. */
  lemma ScaleTransform(b: CuboidBuilder, x: real, y: real, z: real)
    ensures IsAffine(Compose4(ScaleMatrix(x, y, z), b.matrix))
    ensures forall p :: CuboidBuilder(Compose4(ScaleMatrix(x, y, z), b.matrix)).Transform(p)
                     == ScalePoint(x, y, z, b.Transform(p))
  {
    AffineCompose(ScaleMatrix(x, y, z), b.matrix);
    forall p
      ensures CuboidBuilder(Compose4(ScaleMatrix(x, y, z), b.matrix)).Transform(p)
           == ScalePoint(x, y, z, b.Transform(p))
    {
      ScaleTransformAt(b, x, y, z, p);
    }
  }

  /** `ScaleTransform` at one point. */
  lemma ScaleTransformAt(b: CuboidBuilder, x: real, y: real, z: real, p: Vec3)
    ensures IsAffine(Compose4(ScaleMatrix(x, y, z), b.matrix))
    ensures CuboidBuilder(Compose4(ScaleMatrix(x, y, z), b.matrix)).Transform(p)
         == ScalePoint(x, y, z, b.Transform(p))
  {
    var s := ScaleMatrix(x, y, z);
    AffineCompose(s, b.matrix);
    var r := CuboidBuilder(Compose4(s, b.matrix));
    var h := Apply4(b.matrix, Point(p));
    HomogeneousTransform(b, p);
    HomogeneousTransform(r, p);
    ComposeApply4(s, b.matrix, Point(p));
    ApplyScale(x, y, z, h);
  }

  /** The scaling matrix scales the first three components and keeps the fourth. */
  lemma ApplyScale(x: real, y: real, z: real, h: Vec4)
    ensures Truncate(Apply4(ScaleMatrix(x, y, z), h)) == ScalePoint(x, y, z, Truncate(h))
    ensures Apply4(ScaleMatrix(x, y, z), h).w == h.w
  {
  }

  /** Translating after `b` moves the points `b` produces. */
  lemma TranslateTransform(b: CuboidBuilder, x: real, y: real, z: real)
    ensures IsAffine(Compose4(TranslationMatrix(x, y, z), b.matrix))
    ensures forall p :: CuboidBuilder(Compose4(TranslationMatrix(x, y, z), b.matrix)).Transform(p)
                     == Add(b.Transform(p), Vec3(x, y, z))
  {
    AffineCompose(TranslationMatrix(x, y, z), b.matrix);
    forall p
      ensures CuboidBuilder(Compose4(TranslationMatrix(x, y, z), b.matrix)).Transform(p)
           == Add(b.Transform(p), Vec3(x, y, z))
    {
      TranslateTransformAt(b, x, y, z, p);
    }
  }

  /** `TranslateTransform` at one point. */
  lemma TranslateTransformAt(b: CuboidBuilder, x: real, y: real, z: real, p: Vec3)
    ensures IsAffine(Compose4(TranslationMatrix(x, y, z), b.matrix))
    ensures CuboidBuilder(Compose4(TranslationMatrix(x, y, z), b.matrix)).Transform(p)
         == Add(b.Transform(p), Vec3(x, y, z))
  {
    var t := TranslationMatrix(x, y, z);
    AffineCompose(t, b.matrix);
    var r := CuboidBuilder(Compose4(t, b.matrix));
    var h := Apply4(b.matrix, Point(p));
    HomogeneousTransform(b, p);
    HomogeneousTransform(r, p);
    ComposeApply4(t, b.matrix, Point(p));
    ApplyTranslation(x, y, z, h);
    assert Apply4(Compose4(t, b.matrix), Point(p)) == Vec4(h.x + x, h.y + y, h.z + z, 1.0);
  }

  /** The translation matrix adds `w` times the offset to the first three components. */
  lemma ApplyTranslation(x: real, y: real, z: real, h: Vec4)
    ensures Apply4(TranslationMatrix(x, y, z), h) == Vec4(h.x + h.w * x, h.y + h.w * y, h.z + h.w * z, h.w)
  {
  }
}
