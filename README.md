# Cuboid builder of glium_shapes, modelled in Dafny

glium_shapes builds the vertex geometry of simple shapes for the glium
OpenGL wrapper. This project models its cuboid: a `CuboidBuilder` holds an
accumulated 4×4 model transform. It starts at the identity, and `scale` and
`translate` each put their own matrix in front of it. `build_vertices` then
emits a flat triangle list of 36 vertices: 6 faces, 2 triangles each, 3
vertices per triangle. Each vertex has a position, a normal and a texture
coordinate. The vertices come from two lookup tables:

- the corner table, four corner codes per face;
- the triangle pattern `0, 1, 2, 2, 1, 3`.

A corner code in 0..7 is decoded bit by bit into a corner of the unit cube
centred at the origin:

- bit 1 selects +x;
- bit 0 selects +y;
- bit 2 selects +z.

Positions go through the transform in homogeneous coordinates. Face normals
go through the normal matrix: the transposed inverse of the transform's
linear 3×3 part, or the identity when that part is singular.

The files:

- `linalg.dfy` (module `LinAlg`): exact linear algebra over `real` in
  cgmath's column-major layout. It covers vectors, 3×3 and 4×4 matrices, the
  cofactor matrix, the determinant and cgmath's `invert`. It proves that
  `invert` yields a left inverse exactly when the determinant is non-zero,
  and that a singular matrix has no left inverse at all.
- `cuboid.dfy` (module `Cuboid`): the tables, the corner decoding with its
  bit masks, the face normal, the texture coordinates and the builder.
  - The builder is a datatype whose operations are value-to-value functions,
    as the Rust methods consume and return `self`.
  - The vertex loop is a method with the source's two nested loops, appending
    to a sequence. It is proved equal to the specification function
    `Vertices()`.
- `properties.dfy` (module `CuboidProperties`): what the output promises
  for every builder.
  - The corner table lists exactly the four corners on each face.
  - Normals point away from the image of the centre.
  - For a non-singular transform, every triangle is flat-shaded: the cross
    product of its edges is the determinant times its normal.
  - The winding test holds for a positive determinant and is reversed for a
    negative one.
  - The centroid is the image of the centre.
  - Texture coordinates are corners of the unit square.
- `default_cuboid.dfy` (module `DefaultCuboid`): the properties the
  source's own tests check on the default builder and on a scaled one. It
  also shows that `scale` and `translate` do not commute.

Numbers are exact reals. A vertex normal is kept as the normal matrix
applied to the face normal, before `normalize()`. The properties about
normals are stated so that they hold, or hold up to the positive factor
that normalising applies, for the normalised vector too.

## Model

| member | source | states |
|---|---|---|
| LinAlg.WithComponent | src/cuboid.rs:179-180 | Setting component `i` of a vector sets that component and leaves the other two unchanged. |
| LinAlg.InvertSpec | src/cuboid.rs:166-171 | The 3×3 inverse exists exactly when the determinant is non-zero, and is then a left inverse. When it does not exist, no matrix is a left inverse. |
| LinAlg.ApplyPoint | src/cuboid.rs:185-190 | A 4×4 matrix applied to a point with w = 1 gives the linear part applied to the point plus the translation column. An affine matrix keeps w = 1. |
| Cuboid.DecodeCorner | src/cuboid.rs:184-188 | The bit-mask decoding of a corner code gives ±0.5 per axis (x from bit 1, y from bit 0, z from bit 2), and gives the table corner for that code. |
| Cuboid.FaceNormal | src/cuboid.rs:178-180 | The face normal is 0 on every axis but `side / 2`, and there it is -1 for an even side and +1 for an odd one. |
| Cuboid.Texcoord | src/cuboid.rs:192 | The texture coordinate of quad corner `q` reads back as `q`: twice its second coordinate plus its first. |
| Cuboid.FromHomogeneous | src/cuboid.rs:190 | Bringing a homogeneous vector with w = 1 back to a point drops w. |
| Cuboid.AffineCompose | src/cuboid.rs:68-84 | Composing two affine matrices gives an affine matrix, so every builder's matrix keeps the bottom row (0, 0, 0, 1). |
| Cuboid.CuboidBuilder.New | src/cuboid.rs:48-58 | A new builder leaves every point where it is. |
| Cuboid.CuboidBuilder.Scale | src/cuboid.rs:68-71 | After `scale(x, y, z)`, every point lands where the previous transform put it, scaled componentwise by (x, y, z). |
| Cuboid.CuboidBuilder.Translate | src/cuboid.rs:81-84 | After `translate(x, y, z)`, every point lands where the previous transform put it, moved by (x, y, z). |
| Cuboid.CuboidBuilder.Vertices | src/cuboid.rs:162-163 | The output holds exactly 6 × 6 = 36 vertices. |
| Cuboid.CuboidBuilder.BuildVertices | src/cuboid.rs:150-198 | The nested loop always succeeds. Its result is the specification sequence, with vertex `vert` of face `side` at index `6 * side + vert`. |
| Cuboid.NormalMatrixSpec | src/cuboid.rs:165-171 | The normal matrix is the identity when the linear part is singular. Otherwise its transpose is a left inverse of the linear part. |
| Cuboid.TransformNormalMatrix | src/cuboid.rs:166-191 | The normal a vertex carries is the normal matrix times the face normal. When the linear part is singular, it is the face normal unchanged. |
| Cuboid.NormalMatrixCofactor | src/cuboid.rs:166-171 | For a non-singular linear part, the determinant times the normal matrix acts on every vector as the cofactor matrix does. |
| Cuboid.NormalPreservesDot | src/cuboid.rs:166-171 | For a non-singular linear part, a normal carried by the normal matrix makes the same dot product with a transformed direction as the original normal makes with the original direction. |
| Cuboid.VerticesAt | src/cuboid.rs:174-195 | Entry `6 * side + vert` of the output is vertex `vert` of face `side`. |
| Cuboid.HomogeneousTransform | src/cuboid.rs:185-190 | Positions go through homogeneous coordinates with a divide by w = 1, and land where the affine transform puts the local corner. |
| Cuboid.IdentityTransform | src/cuboid.rs:50 | The identity matrix leaves every point where it is. |
| Cuboid.ScaleTransform | src/cuboid.rs:69 | Pre-multiplying the scaling matrix keeps the matrix affine and scales every transformed point. |
| Cuboid.TranslateTransform | src/cuboid.rs:82 | Pre-multiplying the translation matrix keeps the matrix affine and moves every transformed point by the offset. |
| CuboidProperties.DotFaceNormal | src/cuboid.rs:179-180 | The dot product with a face normal is the face's own coordinate, with the face's sign. |
| CuboidProperties.UnitNormal | src/cuboid.rs:179-180 | Every face normal has unit length. |
| CuboidProperties.CornerComponent | src/cuboid.rs:185-188 | Each coordinate of a decoded corner is ±0.5 as the code's bit for that axis is set or clear. |
| CuboidProperties.CodeOnFaceMeaning | src/cuboid.rs:179-188 | A decoded corner lies on a face, half a unit out along its normal, exactly when its code's bit for the face's axis matches the face's sign. |
| CuboidProperties.FaceCodeList | src/cuboid.rs:153-161 | Each face has four corner codes, and vertex slot `vert` takes the code at pattern position `poly_lut[vert]`. |
| CuboidProperties.FaceCorners | src/cuboid.rs:153-160 | The table lists four different corners for each face, and they are exactly the cube corners that lie on that face. |
| CuboidProperties.FaceCodes | src/cuboid.rs:153-160 | The same statement as FaceCorners, on the codes: four different codes per face, exactly those whose bit for the face's axis matches its sign. |
| CuboidProperties.LocalCornerTable | src/cuboid.rs:153-188 | The table and the bit decoding give, for each face, the four corners written out in table order. |
| CuboidProperties.FaceNormalTable | src/cuboid.rs:179-180 | The six face normals are -X, +X, -Y, +Y, -Z, +Z in that order. |
| CuboidProperties.LocalWinding | src/cuboid.rs:259-276 | Before the transform, the edge cross product of each triangle is exactly its face's normal, so every triangle winds counter-clockwise seen from outside. |
| CuboidProperties.LocalCornerOnFace | src/cuboid.rs:153-188 | Every corner a face's vertex slots take lies on that face. |
| CuboidProperties.EdgeImage | src/cuboid.rs:190 | The transform carries the difference of two points through its linear part. |
| CuboidProperties.FacetedTriangle | src/cuboid.rs:278-297 | For a non-singular transform, the three vertices of a triangle share one normal, and their edge cross product is that normal times the determinant. |
| CuboidProperties.OutwardNormal | src/cuboid.rs:225-239 | For a non-singular transform, every vertex normal makes a dot product of 0.5 with the vector from the image of the centre to the vertex, so it points away from the centre. |
| CuboidProperties.NormalTangent | src/cuboid.rs:278-297 | For a non-singular transform, a vertex normal is perpendicular to every edge within its face. |
| CuboidProperties.CounterClockwiseVertex | src/cuboid.rs:259-276 | With the eye one normal out from the first vertex of a triangle, each vertex lies behind the eye along the edge cross product when the determinant is positive. The test is reversed when the determinant is negative. |
| CuboidProperties.CounterClockwiseTriangle | src/cuboid.rs:259-276 | The eye test holds for all three vertices of each triangle. |
| CuboidProperties.EyeSide | src/cuboid.rs:268-274 | For a point in the plane of a triangle, the eye test gives minus the factor times the squared normal length, which has the opposite sign of the factor. |
| CuboidProperties.TriangleAt | src/cuboid.rs:174-195 | Triangle `t` of face `side` takes output indices `6 * side + 3 * t` to `6 * side + 3 * t + 2`. |
| CuboidProperties.Faceted | src/cuboid.rs:278-297 | Walking the output three vertices at a time, as the test does, for a non-singular transform each triple shares one normal, and its edge cross product is the determinant times that normal. |
| CuboidProperties.CounterClockwise | src/cuboid.rs:259-276 | Walking the output three vertices at a time, the winding test holds for a positive determinant and is reversed for a negative one. |
| CuboidProperties.FaceSumValue | src/cuboid.rs:213-223 | The six local corners a face's slots take sum to three times its normal. |
| CuboidProperties.OppositeNormals | src/cuboid.rs:179-180 | Faces `2j` and `2j + 1` have opposite normals. |
| CuboidProperties.SlotPrefix | src/cuboid.rs:213-223 | The positions of the first `k` vertices of a face sum to the linear part applied to the sum of their local corners, plus `k` translations. |
| CuboidProperties.PairPrefix | src/cuboid.rs:213-223 | The positions of the first `j` pairs of opposite faces sum to one translation per vertex. |
| CuboidProperties.Centroid | src/cuboid.rs:213-223 | For every transform, the 36 positions sum to 36 times the image of the centre. |
| CuboidProperties.AllPairs | src/cuboid.rs:213-223 | The 36 positions sum to 36 times the translation column. |
| CuboidProperties.TexcoordRange | src/cuboid.rs:241-257 | Every texture coordinate of the output has both components in {0, 1}. |
| CuboidProperties.TexcoordCorner | src/cuboid.rs:192 | Each of the four quad corners gets a corner of the unit square. |
| CuboidProperties.TexcoordExtremes | src/cuboid.rs:241-257 | Output vertex 0 has texture coordinate (0, 0) and vertex 5 has (1, 1). With TexcoordRange, these are the minimum and the maximum over the output. |
| CuboidProperties.FaceTexture | src/cuboid.rs:153-192 | Within a face, two slots get the same texture coordinate exactly when they take the same corner. |
| CuboidProperties.TexcoordInjective | src/cuboid.rs:192 | Different quad corners get different texture coordinates. |
| CuboidProperties.CornerInjective | src/cuboid.rs:185-188 | Different corner codes decode to different corners. |
| DefaultCuboid.DefaultVolume | src/cuboid.rs:48-58 | The default builder's linear part has determinant 1. |
| DefaultCuboid.DefaultNormalMatrix | src/cuboid.rs:166-171 | The default builder's normal matrix is the identity. |
| DefaultCuboid.DefaultVertex | src/cuboid.rs:174-195 | The default builder outputs the local cube: each vertex sits at its table corner and carries its face's normal. |
| DefaultCuboid.CornerHalfUnit | src/cuboid.rs:185-188 | Every coordinate of every cube corner is -0.5 or +0.5. |
| DefaultCuboid.UnitDimensions | src/cuboid.rs:201-211 | Every coordinate of every position of the default cube has absolute value 0.5. |
| DefaultCuboid.DefaultCentroid | src/cuboid.rs:213-223 | The positions of the default cube sum to the zero vector. |
| DefaultCuboid.UnitFaceted | src/cuboid.rs:278-297 | For a builder of volume 1, such as the default one, each triple of the output shares one normal, which is its edge cross product. |
| DefaultCuboid.PositiveCounterClockwise | src/cuboid.rs:259-276 | For a builder of positive volume, such as the default one, every triple passes the source's winding test: all three dot products are at most 0. |
| DefaultCuboid.ScaledDefault | src/cuboid.rs:48-71 | Scaling the default builder gives the diagonal matrix of the factors as its linear part, with no translation. |
| DefaultCuboid.DiagonalNormal | src/cuboid.rs:166-171 | Under a scaling by positive factors, scaling the carried normal by the factors gives the face normal back. |
| DefaultCuboid.FaceFacing | src/cuboid.rs:225-239 | A point on a face lies, axis by axis, on the side its normal points to. |
| DefaultCuboid.OutwardVertex | src/cuboid.rs:225-239 | Under a scaling by positive factors, moving a vertex by its normal brings no coordinate closer to zero. |
| DefaultCuboid.DiagonalOutward | src/cuboid.rs:225-239 | The same holds for every vertex of the output. |
| DefaultCuboid.ScaledOutward | src/cuboid.rs:225-239 | For the default cube scaled by any positive factors, as the source's test does with (2, 2, 2), every position moved by its normal is at least as far from the centre on every axis. |
| DefaultCuboid.ScaleTranslateOrder | src/cuboid.rs:60-84 | Scaling then translating moves a point to the same place as translating then scaling exactly when the scaling leaves the offset unchanged. |
| DefaultCuboid.NotCommutative | src/cuboid.rs:60-84 | `scale(2, 1, 1)` then `translate(1, 0, 0)` gives a different builder from the reverse order. |

## Left out

- `rotate_x`, `rotate_y`, `rotate_z` (src/cuboid.rs:86-135): they need sine and cosine from cgmath, which exact reals cannot express. The properties in `CuboidProperties` are stated for every affine matrix, rotations included. Only the builder operations that produce rotations are missing.
- `Cuboid`, its `IntoVerticesSource` and `IndicesSource` impls, and `build` (src/cuboid.rs:13-31, 137-144): these are glium GPU-buffer plumbing, calls into code outside this model.
- The `Result` of `build_vertices` (src/cuboid.rs:150, 197) is always `Ok`, so `BuildVertices` returns the vertex sequence directly.
- `f32` arithmetic: every number is an exact real, so rounding is not modelled.
- `.normalize()` of the vertex normal (src/cuboid.rs:191): it needs a square root. Vertices carry the normal before normalising.
- Cuboid.CuboidBuilder.BuildVertices: returns the normal before normalising, not the unit vector the source pushes.
- cgmath's `invert` treats a determinant that is approximately zero as singular. The model tests for exactly zero.
- The `assert_ulps_eq!` tolerance in the faceted-normals test (src/cuboid.rs:293-295): the model states exact equalities.
- DefaultCuboid.UnitFaceted: states that the edge cross product equals the shared normal for a builder of volume 1. The source compares the normalised cross product with the normalised normal. For the default builder the normal already has unit length (`DefaultVertex`, `UnitNormal`), so the two agree there. For other builders the model states the relation before normalising.
- DefaultCuboid.ScaledOutward: states the outward test for the normal before normalising. Normalising multiplies the normal by a positive factor. The proof shows each normal component is zero or has the sign of its coordinate, and a positive factor keeps that.
- The vertex layout type `Vertex` of src/vertex.rs is not part of this model. It is represented by a datatype with the three fields the loop fills in.
