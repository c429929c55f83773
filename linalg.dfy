/**
 * Exact linear algebra over `real`: the part of the cgmath crate that the
 * cuboid builder relies on. Matrices are column-major, as cgmath stores them:
 * the fields `x`, `y`, `z` (and `w`) of a matrix are its COLUMNS, and
 * `Apply3(m, v)` / `Apply4(m, v)` is the product `m * v`.
 */
module LinAlg {

  datatype Option<T> = None | Some(value: T) {
    /** The wrapped value, or `default` when there is none. */
    function GetOr(default: T): T {
      match this
      case Some(v) => v
      case None => default
    }
  }

  datatype Vec2 = Vec2(x: real, y: real)
  datatype Vec3 = Vec3(x: real, y: real, z: real)
  datatype Vec4 = Vec4(x: real, y: real, z: real, w: real)

  /** A 3×3 matrix given by its columns. */
  datatype Mat3 = Mat3(x: Vec3, y: Vec3, z: Vec3)
  /** A 4×4 matrix given by its columns; `w` holds the translation of an affine map. */
  datatype Mat4 = Mat4(x: Vec4, y: Vec4, z: Vec4, w: Vec4)

  const Zero3 := Vec3(0.0, 0.0, 0.0)
  const Identity3 := Mat3(Vec3(1.0, 0.0, 0.0), Vec3(0.0, 1.0, 0.0), Vec3(0.0, 0.0, 1.0))
  const Identity4 := Mat4(Vec4(1.0, 0.0, 0.0, 0.0), Vec4(0.0, 1.0, 0.0, 0.0),
                          Vec4(0.0, 0.0, 1.0, 0.0), Vec4(0.0, 0.0, 0.0, 1.0))

  // ---------------------------------------------------------------------------
  // Vectors
  // ---------------------------------------------------------------------------

  /** `v[i]`: component 0 is x, 1 is y, 2 is z. */
  function Component(v: Vec3, i: nat): real
    requires i < 3
  {
    if i == 0 then v.x else if i == 1 then v.y else v.z
  }

  /** `v` with `v[i] = r`. */
  function WithComponent(v: Vec3, i: nat, r: real): (u: Vec3)
    requires i < 3
    ensures Component(u, i) == r
    ensures forall j :: 0 <= j < 3 && j != i ==> Component(u, j) == Component(v, j)
  {
    if i == 0 then Vec3(r, v.y, v.z) else if i == 1 then Vec3(v.x, r, v.z) else Vec3(v.x, v.y, r)
  }

  function Add(a: Vec3, b: Vec3): Vec3 { Vec3(a.x + b.x, a.y + b.y, a.z + b.z) }
  function Sub(a: Vec3, b: Vec3): Vec3 { Vec3(a.x - b.x, a.y - b.y, a.z - b.z) }
  function Times(k: real, v: Vec3): Vec3 { Vec3(k * v.x, k * v.y, k * v.z) }
  function Div(v: Vec3, d: real): Vec3
    requires d != 0.0
  {
    Vec3(v.x / d, v.y / d, v.z / d)
  }
  function Dot(a: Vec3, b: Vec3): real { a.x * b.x + a.y * b.y + a.z * b.z }
  function Cross(a: Vec3, b: Vec3): Vec3 {
    Vec3(a.y * b.z - a.z * b.y, a.z * b.x - a.x * b.z, a.x * b.y - a.y * b.x)
  }

  /** The first three components of a 4-vector (cgmath's `truncate`). */
  function Truncate(v: Vec4): Vec3 { Vec3(v.x, v.y, v.z) }

  /** The homogeneous coordinates (w = 1) of a point. */
  function Point(p: Vec3): (h: Vec4)
    ensures Truncate(h) == p && h.w == 1.0
  {
    Vec4(p.x, p.y, p.z, 1.0)
  }

  // ---------------------------------------------------------------------------
  // 3×3 matrices
  // ---------------------------------------------------------------------------

  /** `m * v`: each component is the dot product of a row of `m` with `v`. */
  function Apply3(m: Mat3, v: Vec3): Vec3 {
    var rows := Transpose3(m);
    Vec3(Dot(rows.x, v), Dot(rows.y, v), Dot(rows.z, v))
  }

  /** `a * b`: column j of the product is `a` applied to column j of `b`. */
  function Compose3(a: Mat3, b: Mat3): Mat3 {
    Mat3(Apply3(a, b.x), Apply3(a, b.y), Apply3(a, b.z))
  }

  /** `k * m` */
  function Times3(k: real, m: Mat3): Mat3 {
    Mat3(Times(k, m.x), Times(k, m.y), Times(k, m.z))
  }

  function Transpose3(m: Mat3): Mat3 {
    Mat3(Vec3(m.x.x, m.y.x, m.z.x), Vec3(m.x.y, m.y.y, m.z.y), Vec3(m.x.z, m.y.z, m.z.z))
  }

  /** The determinant, as the triple product of the columns. */
  function Determinant(m: Mat3): real {
    Dot(m.x, Cross(m.y, m.z))
  }

  /** The cofactor matrix: its columns are the cross products of pairs of columns of `m`. */
  function Cofactor(m: Mat3): Mat3 {
    Mat3(Cross(m.y, m.z), Cross(m.z, m.x), Cross(m.x, m.y))
  }

  /**
   * cgmath's `Matrix3::invert`: `None` for a singular matrix, otherwise the
   * transposed cofactor matrix divided by the determinant.
   */
  function Invert(m: Mat3): Option<Mat3> {
    var d := Determinant(m);
    if d == 0.0 then
      None
    else
      Some(Transpose3(Mat3(Div(Cross(m.y, m.z), d), Div(Cross(m.z, m.x), d), Div(Cross(m.x, m.y), d))))
  }

  /**
   * `Invert` succeeds exactly when the determinant is non-zero; its result is
   * then a left inverse, and a singular matrix has no left inverse at all.
   */
  lemma InvertSpec(m: Mat3)
    ensures Invert(m).Some? <==> Determinant(m) != 0.0
    ensures Invert(m).Some? ==> Compose3(Invert(m).value, m) == Identity3
    ensures Invert(m).None? ==> forall b :: Compose3(b, m) != Identity3
  {
    if Determinant(m) == 0.0 {
      SingularHasNoInverse(m);
    } else {
      InverseIsLeftInverse(m);
    }
  }

  // ---------------------------------------------------------------------------
  // 4×4 matrices
  // ---------------------------------------------------------------------------

  function Dot4(a: Vec4, b: Vec4): real { a.x * b.x + a.y * b.y + a.z * b.z + a.w * b.w }

  function Transpose4(m: Mat4): Mat4 {
    Mat4(Vec4(m.x.x, m.y.x, m.z.x, m.w.x), Vec4(m.x.y, m.y.y, m.z.y, m.w.y),
         Vec4(m.x.z, m.y.z, m.z.z, m.w.z), Vec4(m.x.w, m.y.w, m.z.w, m.w.w))
  }

  /** `m * v`: each component is the dot product of a row of `m` with `v`. */
  function Apply4(m: Mat4, v: Vec4): Vec4 {
    var rows := Transpose4(m);
    Vec4(Dot4(rows.x, v), Dot4(rows.y, v), Dot4(rows.z, v), Dot4(rows.w, v))
  }

  /** `a * b` */
  function Compose4(a: Mat4, b: Mat4): Mat4 {
    Mat4(Apply4(a, b.x), Apply4(a, b.y), Apply4(a, b.z), Apply4(a, b.w))
  }

  /** The upper-left 3×3 block: the truncated first three columns. */
  function Linear(m: Mat4): Mat3 {
    Mat3(Truncate(m.x), Truncate(m.y), Truncate(m.z))
  }

  /** The bottom row is (0, 0, 0, 1): `m` maps points to points and directions to directions. */
  predicate IsAffine(m: Mat4) {
    m.x.w == 0.0 && m.y.w == 0.0 && m.z.w == 0.0 && m.w.w == 1.0
  }

  /** A point transformed by `m` is the linear part applied to it, plus the translation column. */
  lemma ApplyPoint(m: Mat4, p: Vec3)
    ensures Truncate(Apply4(m, Point(p))) == Add(Apply3(Linear(m), p), Truncate(m.w))
    ensures IsAffine(m) ==> Apply4(m, Point(p)).w == 1.0
  {
  }

  // ---------------------------------------------------------------------------
  // Algebraic laws
  // ---------------------------------------------------------------------------

  lemma ApplyAdd(m: Mat3, a: Vec3, b: Vec3)
    ensures Apply3(m, Add(a, b)) == Add(Apply3(m, a), Apply3(m, b))
  {
  }

  lemma ApplySub(m: Mat3, a: Vec3, b: Vec3)
    ensures Apply3(m, Sub(a, b)) == Sub(Apply3(m, a), Apply3(m, b))
  {
  }

  lemma ApplyIdentity(v: Vec3)
    ensures Apply3(Identity3, v) == v
  {
  }

  /** Applying a product is applying its factors in turn. */
  lemma ComposeApply3(a: Mat3, b: Mat3, v: Vec3)
    ensures Apply3(Compose3(a, b), v) == Apply3(a, Apply3(b, v))
  {
  }

  /** Applying a product is applying its factors in turn. */
  lemma ComposeApply4(a: Mat4, b: Mat4, v: Vec4)
    ensures Apply4(Compose4(a, b), v) == Apply4(a, Apply4(b, v))
  {
    var rows := Transpose4(a);
    RowCompose4(rows.x, b, v);
    RowCompose4(rows.y, b, v);
    RowCompose4(rows.z, b, v);
    RowCompose4(rows.w, b, v);
  }

  /** One row of `(a * b) * v == a * (b * v)`, with `r` that row of `a`. */
  lemma RowCompose4(r: Vec4, b: Mat4, v: Vec4)
    ensures Dot4(Vec4(Dot4(r, b.x), Dot4(r, b.y), Dot4(r, b.z), Dot4(r, b.w)), v) == Dot4(r, Apply4(b, v))
  {
    ApplyEntries4(b, v);
    RowSwap4(r, b, v, Vec4(Dot4(r, b.x), Dot4(r, b.y), Dot4(r, b.z), Dot4(r, b.w)), Apply4(b, v));
  }

  lemma RowSwap4(r: Vec4, b: Mat4, v: Vec4, p: Vec4, q: Vec4)
    requires p.x == r.x * b.x.x + r.y * b.x.y + r.z * b.x.z + r.w * b.x.w
    requires p.y == r.x * b.y.x + r.y * b.y.y + r.z * b.y.z + r.w * b.y.w
    requires p.z == r.x * b.z.x + r.y * b.z.y + r.z * b.z.z + r.w * b.z.w
    requires p.w == r.x * b.w.x + r.y * b.w.y + r.z * b.w.z + r.w * b.w.w
    requires q.x == b.x.x * v.x + b.y.x * v.y + b.z.x * v.z + b.w.x * v.w
    requires q.y == b.x.y * v.x + b.y.y * v.y + b.z.y * v.z + b.w.y * v.w
    requires q.z == b.x.z * v.x + b.y.z * v.y + b.z.z * v.z + b.w.z * v.w
    requires q.w == b.x.w * v.x + b.y.w * v.y + b.z.w * v.z + b.w.w * v.w
    ensures Dot4(p, v) == Dot4(r, q)
  {
    RowSwapEntries4(r, b, v, p, q);
    DotEntries4(p, v, r, q);
  }

  lemma RowSwapEntries4(r: Vec4, b: Mat4, v: Vec4, p: Vec4, q: Vec4)
    requires p.x == r.x * b.x.x + r.y * b.x.y + r.z * b.x.z + r.w * b.x.w
    requires p.y == r.x * b.y.x + r.y * b.y.y + r.z * b.y.z + r.w * b.y.w
    requires p.z == r.x * b.z.x + r.y * b.z.y + r.z * b.z.z + r.w * b.z.w
    requires p.w == r.x * b.w.x + r.y * b.w.y + r.z * b.w.z + r.w * b.w.w
    requires q.x == b.x.x * v.x + b.y.x * v.y + b.z.x * v.z + b.w.x * v.w
    requires q.y == b.x.y * v.x + b.y.y * v.y + b.z.y * v.z + b.w.y * v.w
    requires q.z == b.x.z * v.x + b.y.z * v.y + b.z.z * v.z + b.w.z * v.w
    requires q.w == b.x.w * v.x + b.y.w * v.y + b.z.w * v.z + b.w.w * v.w
    ensures p.x * v.x + p.y * v.y + p.z * v.z + p.w * v.w == r.x * q.x + r.y * q.y + r.z * q.z + r.w * q.w
  {
    RowEntry4(r.x, r.y, r.z, r.w, v.x, v.y, v.z, v.w,
              b.x.x, b.x.y, b.x.z, b.x.w, b.y.x, b.y.y, b.y.z, b.y.w,
              b.z.x, b.z.y, b.z.z, b.z.w, b.w.x, b.w.y, b.w.z, b.w.w,
              p.x, p.y, p.z, p.w, q.x, q.y, q.z, q.w);
  }

  lemma DotEntries4(p: Vec4, v: Vec4, r: Vec4, q: Vec4)
    requires p.x * v.x + p.y * v.y + p.z * v.z + p.w * v.w == r.x * q.x + r.y * q.y + r.z * q.z + r.w * q.w
    ensures Dot4(p, v) == Dot4(r, q)
  {
  }

  /** The entries of `m v`, written out column by column. */
  lemma ApplyEntries4(m: Mat4, v: Vec4)
    ensures Apply4(m, v).x == m.x.x * v.x + m.y.x * v.y + m.z.x * v.z + m.w.x * v.w
    ensures Apply4(m, v).y == m.x.y * v.x + m.y.y * v.y + m.z.y * v.z + m.w.y * v.w
    ensures Apply4(m, v).z == m.x.z * v.x + m.y.z * v.y + m.z.z * v.z + m.w.z * v.w
    ensures Apply4(m, v).w == m.x.w * v.x + m.y.w * v.y + m.z.w * v.z + m.w.w * v.w
  {
  }

  /** The transpose is the adjoint for the dot product. */
  lemma TransposeDot(m: Mat3, u: Vec3, v: Vec3)
    ensures Dot(Apply3(Transpose3(m), u), v) == Dot(u, Apply3(m, v))
  {
  }

  lemma DotTimes(k: real, u: Vec3, v: Vec3)
    ensures Dot(Times(k, u), v) == k * Dot(u, v)
  {
  }

  /** Component x of `(m a) × (m b) == cof(m) (a × b)`. */
  lemma CrossCofactorX(m: Mat3, a: Vec3, b: Vec3)
    ensures Cross(Apply3(m, a), Apply3(m, b)).x == Apply3(Cofactor(m), Cross(a, b)).x
  {
    ApplyEntries(m, a);
    ApplyEntries(m, b);
    CrossEntries(a, b);
    CrossEntries(m.y, m.z);
    CrossEntries(m.z, m.x);
    CrossEntries(m.x, m.y);
    CrossCofactorEntryX(m, a, b, Apply3(m, a), Apply3(m, b), Cross(a, b), Cofactor(m));
  }

  lemma CrossCofactorEntryX(m: Mat3, a: Vec3, b: Vec3, u: Vec3, v: Vec3, c: Vec3, k: Mat3)
    requires u.y == m.x.y * a.x + m.y.y * a.y + m.z.y * a.z && u.z == m.x.z * a.x + m.y.z * a.y + m.z.z * a.z
    requires v.y == m.x.y * b.x + m.y.y * b.y + m.z.y * b.z && v.z == m.x.z * b.x + m.y.z * b.y + m.z.z * b.z
    requires c.x == a.y * b.z - a.z * b.y && c.y == a.z * b.x - a.x * b.z && c.z == a.x * b.y - a.y * b.x
    requires k.x.x == m.y.y * m.z.z - m.y.z * m.z.y
    requires k.y.x == m.z.y * m.x.z - m.z.z * m.x.y
    requires k.z.x == m.x.y * m.y.z - m.x.z * m.y.y
    ensures Cross(u, v).x == Apply3(k, c).x
  {
    CrossEntry(a.x, a.y, a.z, b.x, b.y, b.z,
               m.x.x, m.x.y, m.x.z, m.y.x, m.y.y, m.y.z, m.z.x, m.z.y, m.z.z,
               u.y, u.z, v.y, v.z, c.x, c.y, c.z, k.x.x, k.y.x, k.z.x);
  }

  /** Component y of `(m a) × (m b) == cof(m) (a × b)`. */
  lemma CrossCofactorY(m: Mat3, a: Vec3, b: Vec3)
    ensures Cross(Apply3(m, a), Apply3(m, b)).y == Apply3(Cofactor(m), Cross(a, b)).y
  {
    ApplyEntries(m, a);
    ApplyEntries(m, b);
    CrossEntries(a, b);
    CrossEntries(m.y, m.z);
    CrossEntries(m.z, m.x);
    CrossEntries(m.x, m.y);
    CrossCofactorEntryY(m, a, b, Apply3(m, a), Apply3(m, b), Cross(a, b), Cofactor(m));
  }

  lemma CrossCofactorEntryY(m: Mat3, a: Vec3, b: Vec3, u: Vec3, v: Vec3, c: Vec3, k: Mat3)
    requires u.z == m.x.z * a.x + m.y.z * a.y + m.z.z * a.z && u.x == m.x.x * a.x + m.y.x * a.y + m.z.x * a.z
    requires v.z == m.x.z * b.x + m.y.z * b.y + m.z.z * b.z && v.x == m.x.x * b.x + m.y.x * b.y + m.z.x * b.z
    requires c.x == a.y * b.z - a.z * b.y && c.y == a.z * b.x - a.x * b.z && c.z == a.x * b.y - a.y * b.x
    requires k.x.y == m.y.z * m.z.x - m.y.x * m.z.z
    requires k.y.y == m.z.z * m.x.x - m.z.x * m.x.z
    requires k.z.y == m.x.z * m.y.x - m.x.x * m.y.z
    ensures Cross(u, v).y == Apply3(k, c).y
  {
    CrossEntry(a.y, a.z, a.x, b.y, b.z, b.x,
               m.y.y, m.y.z, m.y.x, m.z.y, m.z.z, m.z.x, m.x.y, m.x.z, m.x.x,
               u.z, u.x, v.z, v.x, c.y, c.z, c.x, k.y.y, k.z.y, k.x.y);
  }

  /** Component z of `(m a) × (m b) == cof(m) (a × b)`. */
  lemma CrossCofactorZ(m: Mat3, a: Vec3, b: Vec3)
    ensures Cross(Apply3(m, a), Apply3(m, b)).z == Apply3(Cofactor(m), Cross(a, b)).z
  {
    ApplyEntries(m, a);
    ApplyEntries(m, b);
    CrossEntries(a, b);
    CrossEntries(m.y, m.z);
    CrossEntries(m.z, m.x);
    CrossEntries(m.x, m.y);
    CrossCofactorEntryZ(m, a, b, Apply3(m, a), Apply3(m, b), Cross(a, b), Cofactor(m));
  }

  lemma CrossCofactorEntryZ(m: Mat3, a: Vec3, b: Vec3, u: Vec3, v: Vec3, c: Vec3, k: Mat3)
    requires u.x == m.x.x * a.x + m.y.x * a.y + m.z.x * a.z && u.y == m.x.y * a.x + m.y.y * a.y + m.z.y * a.z
    requires v.x == m.x.x * b.x + m.y.x * b.y + m.z.x * b.z && v.y == m.x.y * b.x + m.y.y * b.y + m.z.y * b.z
    requires c.x == a.y * b.z - a.z * b.y && c.y == a.z * b.x - a.x * b.z && c.z == a.x * b.y - a.y * b.x
    requires k.x.z == m.y.x * m.z.y - m.y.y * m.z.x
    requires k.y.z == m.z.x * m.x.y - m.z.y * m.x.x
    requires k.z.z == m.x.x * m.y.y - m.x.y * m.y.x
    ensures Cross(u, v).z == Apply3(k, c).z
  {
    CrossEntry(a.z, a.x, a.y, b.z, b.x, b.y,
               m.z.z, m.z.x, m.z.y, m.x.z, m.x.x, m.x.y, m.y.z, m.y.x, m.y.y,
               u.x, u.y, v.x, v.y, c.z, c.x, c.y, k.z.z, k.x.z, k.y.z);
  }

  /** The entries of `m v`, written out column by column. */
  lemma ApplyEntries(m: Mat3, v: Vec3)
    ensures Apply3(m, v).x == m.x.x * v.x + m.y.x * v.y + m.z.x * v.z
    ensures Apply3(m, v).y == m.x.y * v.x + m.y.y * v.y + m.z.y * v.z
    ensures Apply3(m, v).z == m.x.z * v.x + m.y.z * v.y + m.z.z * v.z
  {
  }

  /** A linear map carries the cross product of two vectors through its cofactor matrix. */
  lemma CrossCofactor(m: Mat3, a: Vec3, b: Vec3)
    ensures Cross(Apply3(m, a), Apply3(m, b)) == Apply3(Cofactor(m), Cross(a, b))
  {
    CrossCofactorX(m, a, b);
    CrossCofactorY(m, a, b);
    CrossCofactorZ(m, a, b);
  }

  /** The entries of `u × v`, written out. */
  lemma CrossEntries(u: Vec3, v: Vec3)
    ensures Cross(u, v).x == u.y * v.z - u.z * v.y
    ensures Cross(u, v).y == u.z * v.x - u.x * v.z
    ensures Cross(u, v).z == u.x * v.y - u.y * v.x
  {
  }

  /** The cross product is perpendicular to both of its factors. */
  lemma CrossPerpendicular(u: Vec3, v: Vec3)
    ensures Dot(Cross(u, v), u) == 0.0 && Dot(Cross(u, v), v) == 0.0
  {
    var c := Cross(u, v);
    CrossEntries(u, v);
    CrossOrthogonal(u.x, u.y, u.z, v.x, v.y, v.z, c.x, c.y, c.z);
  }

  /** The scalar triple product is invariant under cyclic permutation. */
  lemma TripleCyclic(u: Vec3, v: Vec3, w: Vec3)
    ensures Dot(u, Cross(v, w)) == Dot(v, Cross(w, u)) == Dot(w, Cross(u, v))
  {
    var c1, c2, c3 := Cross(v, w), Cross(w, u), Cross(u, v);
    CrossEntries(v, w);
    CrossEntries(w, u);
    CrossEntries(u, v);
    TripleRotate(u.x, u.y, u.z, v.x, v.y, v.z, w.x, w.y, w.z,
                 c1.x, c1.y, c1.z, c2.x, c2.y, c2.z, c3.x, c3.y, c3.z);
  }

  /** The determinant is multiplicative. */
  lemma DeterminantCompose(a: Mat3, b: Mat3)
    ensures Determinant(Compose3(a, b)) == Determinant(a) * Determinant(b)
  {
    var c := Cross(b.y, b.z);
    var d := Determinant(a);
    var adj := Transpose3(Cofactor(a));
    CrossCofactor(a, b.y, b.z);
    TransposeDot(Cofactor(a), Apply3(a, b.x), c);
    ComposeApply3(adj, a, b.x);
    AdjugateLeft(a);
    assert Apply3(Compose3(adj, a), b.x) == Times(d, b.x);
    DotTimes(d, b.x, c);
  }

  lemma SingularHasNoInverse(m: Mat3)
    requires Determinant(m) == 0.0
    ensures forall b :: Compose3(b, m) != Identity3
  {
    forall b
      ensures Compose3(b, m) != Identity3
    {
      DeterminantCompose(b, m);
      ProductWithZero(Determinant(b), Determinant(m));
      assert Determinant(Compose3(b, m)) == 0.0;
      assert Determinant(Identity3) == 1.0;
    }
  }

  lemma TransposeTwice(m: Mat3)
    ensures Transpose3(Transpose3(m)) == m
  {
  }

  /** Applying a transposed matrix dots each of its columns with the vector. */
  lemma ApplyTransposed(q: Mat3, v: Vec3)
    ensures Apply3(Transpose3(q), v) == Vec3(Dot(q.x, v), Dot(q.y, v), Dot(q.z, v))
  {
    TransposeTwice(q);
  }

  lemma DotSymmetric(u: Vec3, v: Vec3)
    ensures Dot(u, v) == Dot(v, u)
  {
  }

  /**
   * Each cofactor column dotted with a column of `m`: the determinant for the
   * matching column, zero for the other two.
   */
  lemma CofactorDots(m: Mat3)
    ensures Dot(Cross(m.y, m.z), m.x) == Determinant(m)
    ensures Dot(Cross(m.z, m.x), m.y) == Determinant(m)
    ensures Dot(Cross(m.x, m.y), m.z) == Determinant(m)
    ensures Dot(Cross(m.y, m.z), m.y) == 0.0 && Dot(Cross(m.y, m.z), m.z) == 0.0
    ensures Dot(Cross(m.z, m.x), m.z) == 0.0 && Dot(Cross(m.z, m.x), m.x) == 0.0
    ensures Dot(Cross(m.x, m.y), m.x) == 0.0 && Dot(Cross(m.x, m.y), m.y) == 0.0
  {
    CrossPerpendicular(m.y, m.z);
    CrossPerpendicular(m.z, m.x);
    CrossPerpendicular(m.x, m.y);
    TripleCyclic(m.x, m.y, m.z);
    DotSymmetric(m.x, Cross(m.y, m.z));
    DotSymmetric(m.y, Cross(m.z, m.x));
    DotSymmetric(m.z, Cross(m.x, m.y));
  }

  /** The transposed cofactor matrix times `m` is the determinant times the identity. */
  lemma AdjugateLeft(m: Mat3)
    ensures Compose3(Transpose3(Cofactor(m)), m) == Times3(Determinant(m), Identity3)
  {
    var k := Cofactor(m);
    CofactorDots(m);
    ApplyTransposed(k, m.x);
    ApplyTransposed(k, m.y);
    ApplyTransposed(k, m.z);
  }

  /** Dividing every column by `d` divides the product with any vector by `d`. */
  lemma ApplyDivided(k: Mat3, d: real, n: Vec3)
    requires d != 0.0
    ensures Times(d, Apply3(Mat3(Div(k.x, d), Div(k.y, d), Div(k.z, d)), n)) == Apply3(k, n)
  {
    var rows := Transpose3(k);
    var q := Mat3(Div(k.x, d), Div(k.y, d), Div(k.z, d));
    assert Transpose3(q) == Mat3(Div(rows.x, d), Div(rows.y, d), Div(rows.z, d));
    DotDiv(rows.x, d, n);
    DotDiv(rows.y, d, n);
    DotDiv(rows.z, d, n);
    TimesDivided(d, Dot(rows.x, n), Dot(rows.y, n), Dot(rows.z, n));
  }

  lemma TimesDivided(d: real, a: real, b: real, c: real)
    requires d != 0.0
    ensures Times(d, Vec3(a / d, b / d, c / d)) == Vec3(a, b, c)
  {
  }

  /** Dividing the left factor of a dot product divides the product. */
  lemma DotDiv(c: Vec3, d: real, v: Vec3)
    requires d != 0.0
    ensures Dot(Div(c, d), v) == Dot(c, v) / d
  {
    DivSum(c.x, c.y, c.z, d, v.x, v.y, v.z);
  }

  /** A column of the candidate inverse applied to `v`: the cofactor columns dotted with `v`, over `d`. */
  lemma InverseApply(k: Mat3, d: real, v: Vec3)
    requires d != 0.0
    ensures Apply3(Transpose3(Mat3(Div(k.x, d), Div(k.y, d), Div(k.z, d))), v)
         == Vec3(Dot(k.x, v) / d, Dot(k.y, v) / d, Dot(k.z, v) / d)
  {
    ApplyTransposed(Mat3(Div(k.x, d), Div(k.y, d), Div(k.z, d)), v);
    DotDiv(k.x, d, v);
    DotDiv(k.y, d, v);
    DotDiv(k.z, d, v);
  }

  lemma InverseIsLeftInverse(m: Mat3)
    requires Determinant(m) != 0.0
    ensures Compose3(Transpose3(Mat3(Div(Cross(m.y, m.z), Determinant(m)),
                                     Div(Cross(m.z, m.x), Determinant(m)),
                                     Div(Cross(m.x, m.y), Determinant(m)))), m) == Identity3
  {
    var d := Determinant(m);
    var k := Cofactor(m);
    CofactorDots(m);
    InverseApply(k, d, m.x);
    InverseApply(k, d, m.y);
    InverseApply(k, d, m.z);
    assert d / d == 1.0;
  }

  // ---------------------------------------------------------------------------
  // Scalar identities. The solver proves these over plain real variables but
  // not through the selectors of nested datatype values, so each selector is
  // passed as a variable and tied to its definition by a requires clause.
  // ---------------------------------------------------------------------------

  lemma ProductWithZero(a: real, b: real)
    requires b == 0.0
    ensures a * b == 0.0
  {
  }

  /** `(a / d) x + (b / d) y + (c / d) z == (a x + b y + c z) / d` */
  lemma DivSum(a: real, b: real, c: real, d: real, x: real, y: real, z: real)
    requires d != 0.0
    ensures (a / d) * x + (b / d) * y + (c / d) * z == (a * x + b * y + c * z) / d
  {
  }

  /** Component x of `(m a) × (m b) == cof(m) (a × b)`, with `m` given column by column. */
  lemma CrossEntry(
      ax: real, ay: real, az: real, bx: real, b_y: real, bz: real,
      m1x: real, m1y: real, m1z: real, m2x: real, m2y: real, m2z: real, m3x: real, m3y: real, m3z: real,
      uy: real, uz: real, vy: real, vz: real, cx: real, cy: real, cz: real, k1: real, k2: real, k3: real)
    requires uy == m1y * ax + m2y * ay + m3y * az
    requires uz == m1z * ax + m2z * ay + m3z * az
    requires vy == m1y * bx + m2y * b_y + m3y * bz
    requires vz == m1z * bx + m2z * b_y + m3z * bz
    requires cx == ay * bz - az * b_y && cy == az * bx - ax * bz && cz == ax * b_y - ay * bx
    requires k1 == m2y * m3z - m2z * m3y && k2 == m3y * m1z - m3z * m1y && k3 == m1y * m2z - m1z * m2y
    ensures uy * vz - uz * vy == k1 * cx + k2 * cy + k3 * cz
  {
  }

  lemma CrossOrthogonal(ux: real, uy: real, uz: real, vx: real, vy: real, vz: real,
                        cx: real, cy: real, cz: real)
    requires cx == uy * vz - uz * vy && cy == uz * vx - ux * vz && cz == ux * vy - uy * vx
    ensures cx * ux + cy * uy + cz * uz == 0.0
    ensures cx * vx + cy * vy + cz * vz == 0.0
  {
  }

  /** `u · (v × w) == v · (w × u) == w · (u × v)`, with the three cross products given entry by entry. */
  lemma TripleRotate(ux: real, uy: real, uz: real, vx: real, vy: real, vz: real, wx: real, wy: real, wz: real,
                     ax: real, ay: real, az: real, bx: real, b_y: real, bz: real, cx: real, cy: real, cz: real)
    requires ax == vy * wz - vz * wy && ay == vz * wx - vx * wz && az == vx * wy - vy * wx
    requires bx == wy * uz - wz * uy && b_y == wz * ux - wx * uz && bz == wx * uy - wy * ux
    requires cx == uy * vz - uz * vy && cy == uz * vx - ux * vz && cz == ux * vy - uy * vx
    ensures ux * ax + uy * ay + uz * az == vx * bx + vy * b_y + vz * bz
    ensures vx * bx + vy * b_y + vz * bz == wx * cx + wy * cy + wz * cz
  {
  }

  /** `(r b) · v == r · (b v)` for a row `r`, a matrix `b` given column by column, and a vector `v`. */
  lemma RowEntry4(rx: real, ry: real, rz: real, rw: real, vx: real, vy: real, vz: real, vw: real,
                  b1x: real, b1y: real, b1z: real, b1w: real, b2x: real, b2y: real, b2z: real, b2w: real,
                  b3x: real, b3y: real, b3z: real, b3w: real, b4x: real, b4y: real, b4z: real, b4w: real,
                  p1: real, p2: real, p3: real, p4: real, qx: real, qy: real, qz: real, qw: real)
    requires p1 == rx * b1x + ry * b1y + rz * b1z + rw * b1w
    requires p2 == rx * b2x + ry * b2y + rz * b2z + rw * b2w
    requires p3 == rx * b3x + ry * b3y + rz * b3z + rw * b3w
    requires p4 == rx * b4x + ry * b4y + rz * b4z + rw * b4w
    requires qx == b1x * vx + b2x * vy + b3x * vz + b4x * vw
    requires qy == b1y * vx + b2y * vy + b3y * vz + b4y * vw
    requires qz == b1z * vx + b2z * vy + b3z * vz + b4z * vw
    requires qw == b1w * vx + b2w * vy + b3w * vz + b4w * vw
    ensures p1 * vx + p2 * vy + p3 * vz + p4 * vw == rx * qx + ry * qy + rz * qz + rw * qw
  {
    RowFirst4(rx, ry, rz, rw, vx, vy, vz, vw, b1x, b1y, b1z, b1w, b2x, b2y, b2z, b2w,
             b3x, b3y, b3z, b3w, b4x, b4y, b4z, b4w, p1, p2, p3, p4);
    ColumnFirst4(rx, ry, rz, rw, vx, vy, vz, vw, b1x, b1y, b1z, b1w, b2x, b2y, b2z, b2w,
             b3x, b3y, b3z, b3w, b4x, b4y, b4z, b4w, qx, qy, qz, qw);
  }

  /** `(r b) · v` expanded into the double sum over the entries of `b`. */
  lemma RowFirst4(rx: real, ry: real, rz: real, rw: real, vx: real, vy: real, vz: real, vw: real,
                  b1x: real, b1y: real, b1z: real, b1w: real, b2x: real, b2y: real, b2z: real, b2w: real,
                  b3x: real, b3y: real, b3z: real, b3w: real, b4x: real, b4y: real, b4z: real, b4w: real,
                  p1: real, p2: real, p3: real, p4: real)
    requires p1 == rx * b1x + ry * b1y + rz * b1z + rw * b1w
    requires p2 == rx * b2x + ry * b2y + rz * b2z + rw * b2w
    requires p3 == rx * b3x + ry * b3y + rz * b3z + rw * b3w
    requires p4 == rx * b4x + ry * b4y + rz * b4z + rw * b4w
    ensures p1 * vx + p2 * vy + p3 * vz + p4 * vw == rx * b1x * vx + ry * b1y * vx + rz * b1z * vx + rw * b1w * vx + rx * b2x * vy + ry * b2y * vy + rz * b2z * vy + rw * b2w * vy + rx * b3x * vz + ry * b3y * vz + rz * b3z * vz + rw * b3w * vz + rx * b4x * vw + ry * b4y * vw + rz * b4z * vw + rw * b4w * vw
  {
  }

  /** `r · (b v)` expanded into the same double sum. */
  lemma ColumnFirst4(rx: real, ry: real, rz: real, rw: real, vx: real, vy: real, vz: real, vw: real,
                  b1x: real, b1y: real, b1z: real, b1w: real, b2x: real, b2y: real, b2z: real, b2w: real,
                  b3x: real, b3y: real, b3z: real, b3w: real, b4x: real, b4y: real, b4z: real, b4w: real,
                  qx: real, qy: real, qz: real, qw: real)
    requires qx == b1x * vx + b2x * vy + b3x * vz + b4x * vw
    requires qy == b1y * vx + b2y * vy + b3y * vz + b4y * vw
    requires qz == b1z * vx + b2z * vy + b3z * vz + b4z * vw
    requires qw == b1w * vx + b2w * vy + b3w * vz + b4w * vw
    ensures rx * qx + ry * qy + rz * qz + rw * qw == rx * b1x * vx + ry * b1y * vx + rz * b1z * vx + rw * b1w * vx + rx * b2x * vy + ry * b2y * vy + rz * b2z * vy + rw * b2w * vy + rx * b3x * vz + ry * b3y * vz + rz * b3z * vz + rw * b3w * vz + rx * b4x * vw + ry * b4y * vw + rz * b4z * vw + rw * b4w * vw
  {
  }
}
