/**
 * The rotation plumbing of the layer: the 3x3 helpers the source builds with
 * nested loops, the cross-product matrix `skew`, the three rotations that
 * `reset_by_centroid_and_azimuth` composes, the angle conversions, and the
 * pair of module-level matrices (forward and inverse) that the reset rebuilds.
 *
 * Matrices are `array2<real>` as the source's nested arrays are; their values
 * are `Mat3`, and each helper is proved against the value-level definition.
 * Sine, cosine, arcsine and two-argument arctangent are uninterpreted
 * parameters (`Trig`): nothing here depends on their values except where a
 * lemma states the Pythagorean identity as a hypothesis.
 */
module Rotation {

  /** `Math.PI`. */
  const Pi: real := 3.141592653589793

  /** The centre of icosahedron face 5, in degrees, that the reset rotates away from. */
  const H3Face5Lat: real := 9.897578191520505
  const H3Face5Lng: real := 96.15073392959359

  /** `deg2rad`: keeps the sign, and half a turn is `Math.PI`. */
  function Deg2Rad(d: real): (r: real)
    ensures (r > 0.0 <==> d > 0.0) && (r < 0.0 <==> d < 0.0)
    ensures d == 180.0 ==> r == Pi
  {
    (d / 180.0) * Pi
  }

  /** `rad2deg`: keeps the sign, and `Math.PI` is half a turn. */
  function Rad2Deg(r: real): (d: real)
    ensures (d > 0.0 <==> r > 0.0) && (d < 0.0 <==> r < 0.0)
    ensures r == Pi ==> d == 180.0
  {
    (r * 180.0) / Pi
  }

  /** Over the reals the two conversions are inverse to each other. */
  lemma DegRadRoundTrip(x: real)
    ensures Rad2Deg(Deg2Rad(x)) == x
    ensures Deg2Rad(Rad2Deg(x)) == x
  {
  }

  /** `reverse_geo`: `[a, b]` becomes `[b, a]`, switching `[lat, lng]` and `[lng, lat]`. */
  function ReverseGeo(p: (real, real)): (q: (real, real))
    ensures multiset{q.0, q.1} == multiset{p.0, p.1}
    ensures q == p <==> p.0 == p.1
  {
    (p.1, p.0)
  }

  lemma ReverseGeoInvolution(p: (real, real))
    ensures ReverseGeo(ReverseGeo(p)) == p
  {
  }

  // ---------------------------------------------------------------------------
  // Vectors and matrices as values
  // ---------------------------------------------------------------------------

  datatype Vec3 = Vec3(x: real, y: real, z: real)

  /** Rows are listed top to bottom. */
  datatype Mat3 = Mat3(r0: Vec3, r1: Vec3, r2: Vec3)

  function Get(v: Vec3, j: int): real
    requires 0 <= j < 3
  {
    if j == 0 then v.x else if j == 1 then v.y else v.z
  }

  function Row(m: Mat3, i: int): Vec3
    requires 0 <= i < 3
  {
    if i == 0 then m.r0 else if i == 1 then m.r1 else m.r2
  }

  function At(m: Mat3, i: int, j: int): real
    requires 0 <= i < 3 && 0 <= j < 3
  {
    Get(Row(m, i), j)
  }

  function Dot(u: Vec3, v: Vec3): real {
    u.x * v.x + u.y * v.y + u.z * v.z
  }

  /** The sum of the first `n` products `u[j] * v[j]`: what the inner loops accumulate. */
  function PartialDot(u: Vec3, v: Vec3, n: int): real
    requires 0 <= n <= 3
  {
    if n == 0 then 0.0 else PartialDot(u, v, n - 1) + Get(u, n - 1) * Get(v, n - 1)
  }

  lemma PartialDotComplete(u: Vec3, v: Vec3)
    ensures PartialDot(u, v, 3) == Dot(u, v)
  {
    assert PartialDot(u, v, 1) == u.x * v.x;
  }

  function Column(m: Mat3, k: int): Vec3
    requires 0 <= k < 3
  {
    Vec3(Get(m.r0, k), Get(m.r1, k), Get(m.r2, k))
  }

  lemma ColumnAt(m: Mat3, j: int, k: int)
    requires 0 <= j < 3 && 0 <= k < 3
    ensures Get(Column(m, k), j) == At(m, j, k)
  {
  }

  function Add(u: Vec3, v: Vec3): Vec3 {
    Vec3(u.x + v.x, u.y + v.y, u.z + v.z)
  }

  function Times(s: real, v: Vec3): Vec3 {
    Vec3(s * v.x, s * v.y, s * v.z)
  }

  function Cross(u: Vec3, v: Vec3): Vec3 {
    Vec3(u.y * v.z - u.z * v.y, u.z * v.x - u.x * v.z, u.x * v.y - u.y * v.x)
  }

  /** The matrix-vector product: entry `i` is row `i` times `v`. */
  function Apply(m: Mat3, v: Vec3): Vec3 {
    Vec3(Dot(m.r0, v), Dot(m.r1, v), Dot(m.r2, v))
  }

  /** Row `r` times the matrix `b`. */
  function RowTimes(r: Vec3, b: Mat3): Vec3 {
    Vec3(Dot(r, Column(b, 0)), Dot(r, Column(b, 1)), Dot(r, Column(b, 2)))
  }

  /** The matrix product: entry `(i, k)` is row `i` of `a` times column `k` of `b`. */
  function Product(a: Mat3, b: Mat3): Mat3 {
    Mat3(RowTimes(a.r0, b), RowTimes(a.r1, b), RowTimes(a.r2, b))
  }

  lemma ProductAt(a: Mat3, b: Mat3, i: int, k: int)
    requires 0 <= i < 3 && 0 <= k < 3
    ensures At(Product(a, b), i, k) == Dot(Row(a, i), Column(b, k))
  {
  }

  function Sum(a: Mat3, b: Mat3): Mat3 {
    Mat3(Add(a.r0, b.r0), Add(a.r1, b.r1), Add(a.r2, b.r2))
  }

  function Scale(s: real, m: Mat3): Mat3 {
    Mat3(Times(s, m.r0), Times(s, m.r1), Times(s, m.r2))
  }

  function Transpose(m: Mat3): Mat3 {
    Mat3(Column(m, 0), Column(m, 1), Column(m, 2))
  }

  /** `M_EYE`. */
  function Identity(): Mat3 {
    Mat3(Vec3(1.0, 0.0, 0.0), Vec3(0.0, 1.0, 0.0), Vec3(0.0, 0.0, 1.0))
  }

  /** The inverse of `m` is its transpose. */
  ghost predicate Orthonormal(m: Mat3) {
    Product(Transpose(m), m) == Identity()
  }

  /** Two matrices are equal when their entries are. */
  lemma Mat3Ext(a: Mat3, b: Mat3)
    requires forall i, j :: 0 <= i < 3 && 0 <= j < 3 ==> At(a, i, j) == At(b, i, j)
    ensures a == b
  {
    assert At(a, 0, 0) == At(b, 0, 0) && At(a, 0, 1) == At(b, 0, 1) && At(a, 0, 2) == At(b, 0, 2);
    assert At(a, 1, 0) == At(b, 1, 0) && At(a, 1, 1) == At(b, 1, 1) && At(a, 1, 2) == At(b, 1, 2);
    assert At(a, 2, 0) == At(b, 2, 0) && At(a, 2, 1) == At(b, 2, 1) && At(a, 2, 2) == At(b, 2, 2);
  }

  lemma TransposeAt(m: Mat3, i: int, j: int)
    requires 0 <= i < 3 && 0 <= j < 3
    ensures At(Transpose(m), i, j) == At(m, j, i)
  {
  }

  /** Reassociation of a row times a product times a vector, on the plain entries. */
  lemma Reassociate(r0: real, r1: real, r2: real,
                    b00: real, b01: real, b02: real,
                    b10: real, b11: real, b12: real,
                    b20: real, b21: real, b22: real,
                    v0: real, v1: real, v2: real)
    ensures (r0 * b00 + r1 * b10 + r2 * b20) * v0
          + (r0 * b01 + r1 * b11 + r2 * b21) * v1
          + (r0 * b02 + r1 * b12 + r2 * b22) * v2
         == r0 * (b00 * v0 + b01 * v1 + b02 * v2)
          + r1 * (b10 * v0 + b11 * v1 + b12 * v2)
          + r2 * (b20 * v0 + b21 * v1 + b22 * v2)
  {
  }

  lemma RowTimesApply(r: Vec3, b: Mat3, v: Vec3)
    ensures Dot(RowTimes(r, b), v) == Dot(r, Apply(b, v))
  {
    Reassociate(r.x, r.y, r.z, b.r0.x, b.r0.y, b.r0.z, b.r1.x, b.r1.y, b.r1.z, b.r2.x, b.r2.y, b.r2.z, v.x, v.y, v.z);
  }

  /** Applying a product is applying its factors, the right one first. */
  lemma ApplyProduct(a: Mat3, b: Mat3, v: Vec3)
    ensures Apply(Product(a, b), v) == Apply(a, Apply(b, v))
  {
    RowTimesApply(a.r0, b, v);
    RowTimesApply(a.r1, b, v);
    RowTimesApply(a.r2, b, v);
  }

  lemma ApplyIdentity(v: Vec3)
    ensures Apply(Identity(), v) == v
  {
  }

  /** A matrix is determined by its images of the three unit vectors (its columns). */
  lemma ApplyExt(a: Mat3, b: Mat3)
    requires Apply(a, Vec3(1.0, 0.0, 0.0)) == Apply(b, Vec3(1.0, 0.0, 0.0))
    requires Apply(a, Vec3(0.0, 1.0, 0.0)) == Apply(b, Vec3(0.0, 1.0, 0.0))
    requires Apply(a, Vec3(0.0, 0.0, 1.0)) == Apply(b, Vec3(0.0, 0.0, 1.0))
    ensures a == b
  {
  }

  lemma ProductAssociative(a: Mat3, b: Mat3, c: Mat3)
    ensures Product(Product(a, b), c) == Product(a, Product(b, c))
  {
    forall v | true
      ensures Apply(Product(Product(a, b), c), v) == Apply(Product(a, Product(b, c)), v)
    {
      ApplyProduct(Product(a, b), c, v);
      ApplyProduct(a, b, Apply(c, v));
      ApplyProduct(a, Product(b, c), v);
      ApplyProduct(b, c, v);
    }
    ApplyExt(Product(Product(a, b), c), Product(a, Product(b, c)));
  }

  lemma ProductIdentity(m: Mat3)
    ensures Product(Identity(), m) == m && Product(m, Identity()) == m
  {
  }

  lemma TransposeProduct(a: Mat3, b: Mat3)
    ensures Transpose(Product(a, b)) == Product(Transpose(b), Transpose(a))
  {
  }

  /** Orthonormal matrices are closed under the product. */
  lemma OrthonormalProduct(a: Mat3, b: Mat3)
    requires Orthonormal(a) && Orthonormal(b)
    ensures Orthonormal(Product(a, b))
  {
    var ta, tb := Transpose(a), Transpose(b);
    calc {
      Product(Transpose(Product(a, b)), Product(a, b));
      { TransposeProduct(a, b); }
      Product(Product(tb, ta), Product(a, b));
      { ProductAssociative(tb, ta, Product(a, b)); }
      Product(tb, Product(ta, Product(a, b)));
      { ProductAssociative(ta, a, b); }
      Product(tb, Product(Product(ta, a), b));
      { ProductIdentity(b); }
      Product(tb, b);
      Identity();
    }
  }

  /**
   * Keeping the inverse as the transpose is sound for an orthonormal forward
   * matrix: the inverse undoes the forward rotation on every point.
   */
  lemma TransposeUndoesRotation(r: Mat3, v: Vec3)
    requires Orthonormal(r)
    ensures Apply(Transpose(r), Apply(r, v)) == v
  {
    ApplyProduct(Transpose(r), r, v);
    ApplyIdentity(v);
  }

  /** Applying a sum is adding the two images. */
  lemma ApplySum(a: Mat3, b: Mat3, v: Vec3)
    ensures Apply(Sum(a, b), v) == Add(Apply(a, v), Apply(b, v))
  {
  }

  lemma ScaleDot(s: real, u: Vec3, v: Vec3)
    ensures Dot(Times(s, u), v) == s * Dot(u, v)
  {
    assert Dot(Times(s, u), v) == (s * u.x) * v.x + (s * u.y) * v.y + (s * u.z) * v.z;
  }

  /** Applying a multiple is scaling the image. */
  lemma ApplyScale(s: real, m: Mat3, v: Vec3)
    ensures Apply(Scale(s, m), v) == Times(s, Apply(m, v))
  {
    ScaleDot(s, m.r0, v);
    ScaleDot(s, m.r1, v);
    ScaleDot(s, m.r2, v);
  }

  // ---------------------------------------------------------------------------
  // The rotations
  // ---------------------------------------------------------------------------

  /** The trigonometric functions of `Math`, left uninterpreted. */
  datatype Trig = Trig(sin: real -> real, cos: real -> real, asin: real -> real, atan2: (real, real) -> real)

  /** `latlngToXyz`: the unit vector of a `[lat, lng]` point in degrees. */
  function LatLngToXyz(p: (real, real), trig: Trig): Vec3 {
    var latRad, lngRad := Deg2Rad(p.0), Deg2Rad(p.1);
    var r := trig.cos(latRad);
    Vec3(trig.cos(lngRad) * r, trig.sin(lngRad) * r, trig.sin(latRad))
  }

  /** Where sine and cosine satisfy the Pythagorean identity, the vector lies on the unit sphere. */
  lemma LatLngToXyzOnUnitSphere(p: (real, real), trig: Trig)
    requires var a := Deg2Rad(p.0); trig.cos(a) * trig.cos(a) + trig.sin(a) * trig.sin(a) == 1.0
    requires var b := Deg2Rad(p.1); trig.cos(b) * trig.cos(b) + trig.sin(b) * trig.sin(b) == 1.0
    ensures Dot(LatLngToXyz(p, trig), LatLngToXyz(p, trig)) == 1.0
  {
    var ca, sa := trig.cos(Deg2Rad(p.0)), trig.sin(Deg2Rad(p.0));
    var cb, sb := trig.cos(Deg2Rad(p.1)), trig.sin(Deg2Rad(p.1));
    calc {
      Dot(LatLngToXyz(p, trig), LatLngToXyz(p, trig));
      (cb * ca) * (cb * ca) + (sb * ca) * (sb * ca) + sa * sa;
      (ca * ca) * (cb * cb + sb * sb) + sa * sa;
      ca * ca + sa * sa;
      1.0;
    }
  }

  /** `xyzToLatlng`: back from a vector to `[lat, lng]` in degrees. */
  function XyzToLatLng(v: Vec3, trig: Trig): (real, real) {
    (Rad2Deg(trig.asin(v.z)), Rad2Deg(trig.atan2(v.y, v.x)))
  }

  /** `skew`: the matrix of the cross product with the vector `p`. */
  function Skew(p: Vec3): (k: Mat3)
    ensures forall i, j :: 0 <= i < 3 && 0 <= j < 3 ==> At(k, i, j) == -At(k, j, i)
    ensures forall i :: 0 <= i < 3 ==> At(k, i, i) == 0.0
  {
    Mat3(Vec3(0.0, -p.z, p.y), Vec3(p.z, 0.0, -p.x), Vec3(-p.y, p.x, 0.0))
  }

  lemma SkewIsCrossProduct(p: Vec3, v: Vec3)
    ensures Apply(Skew(p), v) == Cross(p, v)
  {
  }

  /** The matrix `rotation_axis_angle` builds from `K`, `s = sin r` and `c = cos r`: `I + s K + (1 - c) K K`. */
  function Rodrigues(k: Mat3, s: real, c: real): Mat3 {
    Sum(Identity(), Sum(Scale(s, k), Scale(1.0 - c, Product(k, k))))
  }

  /** Whatever the angle, the rotation about an axis leaves the axis in place. */
  lemma RodriguesFixesAxis(g: Vec3, s: real, c: real)
    ensures Apply(Rodrigues(Skew(g), s, c), g) == g
  {
    var k := Skew(g);
    var zero := Vec3(0.0, 0.0, 0.0);
    SkewIsCrossProduct(g, g);
    assert Apply(k, g) == zero;
    ApplyProduct(k, k, g);
    assert Apply(k, zero) == zero;
    ApplyScale(s, k, g);
    ApplyScale(1.0 - c, Product(k, k), g);
    ApplySum(Scale(s, k), Scale(1.0 - c, Product(k, k)), g);
    ApplySum(Identity(), Sum(Scale(s, k), Scale(1.0 - c, Product(k, k))), g);
    ApplyIdentity(g);
  }

  /** `rotation3D_x`, given the cosine and sine of the angle: the x axis is its own row and column, so it stays in place. */
  function RotationX(c: real, s: real): (m: Mat3)
    ensures m.r0 == Vec3(1.0, 0.0, 0.0) && m.r1.x == 0.0 && m.r2.x == 0.0
  {
    Mat3(Vec3(1.0, 0.0, 0.0), Vec3(0.0, c, -s), Vec3(0.0, s, c))
  }

  /** `rotation3D_z`, given the cosine and sine of the angle: the z axis is its own row and column, so it stays in place. */
  function RotationZ(c: real, s: real): (m: Mat3)
    ensures m.r2 == Vec3(0.0, 0.0, 1.0) && m.r0.z == 0.0 && m.r1.z == 0.0
  {
    Mat3(Vec3(c, -s, 0.0), Vec3(s, c, 0.0), Vec3(0.0, 0.0, 1.0))
  }

  lemma RotationXOrthonormal(c: real, s: real)
    requires c * c + s * s == 1.0
    ensures Orthonormal(RotationX(c, s))
    ensures Apply(RotationX(c, s), Vec3(1.0, 0.0, 0.0)) == Vec3(1.0, 0.0, 0.0)
  {
  }

  lemma RotationZOrthonormal(c: real, s: real)
    requires c * c + s * s == 1.0
    ensures Orthonormal(RotationZ(c, s))
    ensures Apply(RotationZ(c, s), Vec3(0.0, 0.0, 1.0)) == Vec3(0.0, 0.0, 1.0)
  {
  }

  /** The three factors of the reset, from the centroid and the azimuth in degrees. */
  function AxisAngleFactor(lat: real, lng: real, azimuth: real, trig: Trig): Mat3 {
    var r := Deg2Rad(azimuth);
    Rodrigues(Skew(LatLngToXyz((lat, lng), trig)), trig.sin(r), trig.cos(r))
  }

  function ZFactor(lng: real, trig: Trig): Mat3 {
    var zAngle := Deg2Rad(lng) - Deg2Rad(H3Face5Lng);
    RotationZ(trig.cos(zAngle), trig.sin(zAngle))
  }

  function XFactor(lat: real, trig: Trig): Mat3 {
    var xAngle := Deg2Rad(lat) - Deg2Rad(H3Face5Lat);
    RotationX(trig.cos(xAngle), trig.sin(xAngle))
  }

  /**
   * A rotation followed by a turn about z and a turn about x is again a
   * rotation, and its transpose undoes it.
   */
  lemma RotationOf(m1: Mat3, cz: real, sz: real, cx: real, sx: real, v: Vec3)
    requires Orthonormal(m1)
    requires cz * cz + sz * sz == 1.0
    requires cx * cx + sx * sx == 1.0
    ensures var r := Product(Product(m1, RotationZ(cz, sz)), RotationX(cx, sx));
      Orthonormal(r) && Apply(Transpose(r), Apply(r, v)) == v
  {
    RotationZOrthonormal(cz, sz);
    RotationXOrthonormal(cx, sx);
    OrthonormalProduct(m1, RotationZ(cz, sz));
    OrthonormalProduct(Product(m1, RotationZ(cz, sz)), RotationX(cx, sx));
    TransposeUndoesRotation(Product(Product(m1, RotationZ(cz, sz)), RotationX(cx, sx)), v);
  }

  /**
   * When the three factors are rotations, so is their product, and the
   * transpose the reset keeps as the inverse does undo it.
   */
  lemma ResetIsRotation(lat: real, lng: real, azimuth: real, trig: Trig, v: Vec3)
    requires Orthonormal(AxisAngleFactor(lat, lng, azimuth, trig))
    requires var z := Deg2Rad(lng) - Deg2Rad(H3Face5Lng); trig.cos(z) * trig.cos(z) + trig.sin(z) * trig.sin(z) == 1.0
    requires var x := Deg2Rad(lat) - Deg2Rad(H3Face5Lat); trig.cos(x) * trig.cos(x) + trig.sin(x) * trig.sin(x) == 1.0
    ensures var r := Product(Product(AxisAngleFactor(lat, lng, azimuth, trig), ZFactor(lng, trig)), XFactor(lat, trig));
      Orthonormal(r) && Apply(Transpose(r), Apply(r, v)) == v
  {
    var z := Deg2Rad(lng) - Deg2Rad(H3Face5Lng);
    var x := Deg2Rad(lat) - Deg2Rad(H3Face5Lat);
    RotationOf(AxisAngleFactor(lat, lng, azimuth, trig), trig.cos(z), trig.sin(z), trig.cos(x), trig.sin(x), v);
  }

  // ---------------------------------------------------------------------------
  // The helpers on arrays
  // ---------------------------------------------------------------------------

  ghost predicate Is3x3(m: array2<real>) {
    m.Length0 == 3 && m.Length1 == 3
  }

  /** The value of a 3x3 array. */
  function Elems(m: array2<real>): Mat3
    requires Is3x3(m)
    reads m
  {
    Mat3(Vec3(m[0, 0], m[0, 1], m[0, 2]), Vec3(m[1, 0], m[1, 1], m[1, 2]), Vec3(m[2, 0], m[2, 1], m[2, 2]))
  }

  /** The value of a 3-entry array. */
  function VecOf(v: array<real>): Vec3
    requires v.Length == 3
    reads v
  {
    Vec3(v[0], v[1], v[2])
  }

  lemma ElemsAt(m: array2<real>, i: int, j: int)
    requires Is3x3(m) && 0 <= i < 3 && 0 <= j < 3
    ensures At(Elems(m), i, j) == m[i, j]
  {
  }

  /** An array whose entries are those of `v` has the value `v`. */
  lemma ElemsExt(m: array2<real>, v: Mat3)
    requires Is3x3(m)
    requires forall i, j :: 0 <= i < 3 && 0 <= j < 3 ==> m[i, j] == At(v, i, j)
    ensures Elems(m) == v
  {
    forall i, j | 0 <= i < 3 && 0 <= j < 3 ensures At(Elems(m), i, j) == At(v, i, j) {
      ElemsAt(m, i, j);
    }
    Mat3Ext(Elems(m), v);
  }

  /** `matrix_mul_vector`. */
  method MatMulVector(m: array2<real>, v: array<real>) returns (res: array<real>)
    requires Is3x3(m) && v.Length == 3
    ensures fresh(res) && res.Length == 3
    ensures VecOf(res) == Apply(Elems(m), VecOf(v))
  {
    ghost var mv, vv := Elems(m), VecOf(v);
    res := new real[3](_ => 0.0);
    for i := 0 to 3
      invariant forall i' :: 0 <= i' < i ==> res[i'] == Dot(Row(mv, i'), vv)
    {
      var t := 0.0;
      for j := 0 to 3
        invariant t == PartialDot(Row(mv, i), vv, j)
        invariant forall i' :: 0 <= i' < i ==> res[i'] == Dot(Row(mv, i'), vv)
      {
        ElemsAt(m, i, j);
        t := t + m[i, j] * v[j];
      }
      PartialDotComplete(Row(mv, i), vv);
      res[i] := t;
    }
  }

  /** `matrix_mul_matrix`, which stores the running sum into `res[i][k]` at every step. */
  method MatMulMatrix(a: array2<real>, b: array2<real>) returns (res: array2<real>)
    requires Is3x3(a) && Is3x3(b)
    ensures fresh(res) && Is3x3(res)
    ensures Elems(res) == Product(Elems(a), Elems(b))
  {
    ghost var p := Product(Elems(a), Elems(b));
    res := new real[3, 3]((_, _) => 0.0);
    for i := 0 to 3
      invariant forall i', k' :: 0 <= i' < i && 0 <= k' < 3 ==> res[i', k'] == At(p, i', k')
    {
      for k := 0 to 3
        invariant forall i', k' :: 0 <= i' < i && 0 <= k' < 3 ==> res[i', k'] == At(p, i', k')
        invariant forall k' :: 0 <= k' < k ==> res[i, k'] == At(p, i, k')
      {
        var t := MatMulEntry(a, b, i, k, res);
      }
    }
    ElemsExt(res, p);
  }

  /**
   * The innermost loop of `matrix_mul_matrix`: accumulates row `i` of `a`
   * times column `k` of `b`, storing each partial sum into `res[i][k]`.
   */
  method MatMulEntry(a: array2<real>, b: array2<real>, i: int, k: int, res: array2<real>) returns (t: real)
    requires Is3x3(a) && Is3x3(b) && Is3x3(res) && 0 <= i < 3 && 0 <= k < 3
    requires res != a && res != b
    modifies res
    ensures t == At(Product(Elems(a), Elems(b)), i, k) && res[i, k] == t
    ensures forall i', k' :: 0 <= i' < 3 && 0 <= k' < 3 && (i', k') != (i, k) ==> res[i', k'] == old(res[i', k'])
  {
    ghost var row, col := Row(Elems(a), i), Column(Elems(b), k);
    t := 0.0;
    for j := 0 to 3
      invariant t == PartialDot(row, col, j)
      invariant j > 0 ==> res[i, k] == t
      invariant forall i', k' :: 0 <= i' < 3 && 0 <= k' < 3 && (i', k') != (i, k) ==> res[i', k'] == old(res[i', k'])
    {
      ElemsAt(a, i, j);
      ElemsAt(b, j, k);
      ColumnAt(Elems(b), j, k);
      t := t + a[i, j] * b[j, k];
      res[i, k] := t;
    }
    PartialDotComplete(row, col);
    ProductAt(Elems(a), Elems(b), i, k);
  }

  /** `scale_matrix`. */
  method ScaleMatrix(s: real, m: array2<real>) returns (res: array2<real>)
    requires Is3x3(m)
    ensures fresh(res) && Is3x3(res)
    ensures Elems(res) == Scale(s, Elems(m))
  {
    ghost var sm := Scale(s, Elems(m));
    res := new real[3, 3]((_, _) => 0.0);
    for i := 0 to 3
      invariant forall i', j' :: 0 <= i' < i && 0 <= j' < 3 ==> res[i', j'] == At(sm, i', j')
    {
      for j := 0 to 3
        invariant forall i', j' :: 0 <= i' < i && 0 <= j' < 3 ==> res[i', j'] == At(sm, i', j')
        invariant forall j' :: 0 <= j' < j ==> res[i, j'] == At(sm, i, j')
      {
        ElemsAt(m, i, j);
        res[i, j] := s * m[i, j];
      }
    }
    ElemsExt(res, sm);
  }

  /** `matrix_add_matrix`. */
  method AddMatrix(a: array2<real>, b: array2<real>) returns (res: array2<real>)
    requires Is3x3(a) && Is3x3(b)
    ensures fresh(res) && Is3x3(res)
    ensures Elems(res) == Sum(Elems(a), Elems(b))
  {
    ghost var sm := Sum(Elems(a), Elems(b));
    res := new real[3, 3]((_, _) => 0.0);
    for i := 0 to 3
      invariant forall i', j' :: 0 <= i' < i && 0 <= j' < 3 ==> res[i', j'] == At(sm, i', j')
    {
      for j := 0 to 3
        invariant forall i', j' :: 0 <= i' < i && 0 <= j' < 3 ==> res[i', j'] == At(sm, i', j')
        invariant forall j' :: 0 <= j' < j ==> res[i, j'] == At(sm, i, j')
      {
        ElemsAt(a, i, j);
        ElemsAt(b, i, j);
        res[i, j] := a[i, j] + b[i, j];
      }
    }
    ElemsExt(res, sm);
  }

  /** A fresh array holding `m`, as the source's matrix literals are. */
  method NewMatrix(m: Mat3) returns (res: array2<real>)
    ensures fresh(res) && Is3x3(res) && Elems(res) == m
  {
    res := new real[3, 3]((i, j) requires 0 <= i < 3 && 0 <= j < 3 => At(m, i, j));
    ElemsExt(res, m);
  }

  /** `rotation_axis_angle`: the rotation by `r` radians about the point `g = [lat, lng]`. */
  method RotationAxisAngle(g: (real, real), r: real, trig: Trig) returns (m5: array2<real>)
    ensures fresh(m5) && Is3x3(m5)
    ensures Elems(m5) == Rodrigues(Skew(LatLngToXyz(g, trig)), trig.sin(r), trig.cos(r))
  {
    var k := NewMatrix(Skew(LatLngToXyz(g, trig)));
    var s := trig.sin(r);
    var c := trig.cos(r);
    var m4 := AxisAngleTerms(k, s, c);
    var eye := NewMatrix(Identity());
    m5 := AddMatrix(eye, m4);
  }

  /** The middle of `rotation_axis_angle`: `m4 = s K + (1 - c) K K`. */
  method AxisAngleTerms(k: array2<real>, s: real, c: real) returns (m4: array2<real>)
    requires Is3x3(k)
    ensures fresh(m4) && Is3x3(m4)
    ensures Elems(m4) == Sum(Scale(s, Elems(k)), Scale(1.0 - c, Product(Elems(k), Elems(k))))
  {
    var m1 := ScaleMatrix(s, k);
    var m2 := MatMulMatrix(k, k);
    var m3 := ScaleMatrix(1.0 - c, m2);
    m4 := AddMatrix(m1, m3);
  }

  /** `rotate_point`: a `[lat, lng]` point through `m`, by way of its unit vector. */
  method RotatePoint(p: (real, real), m: array2<real>, trig: Trig) returns (q: (real, real))
    requires Is3x3(m)
    ensures q == XyzToLatLng(Apply(Elems(m), LatLngToXyz(p, trig)), trig)
  {
    var xyz := LatLngToXyz(p, trig);
    var v := new real[3];
    v[0], v[1], v[2] := xyz.x, xyz.y, xyz.z;
    var rotated := MatMulVector(m, v);
    q := XyzToLatLng(VecOf(rotated), trig);
  }

  /** The forward matrix of `reset_by_centroid_and_azimuth`, built into a fresh array. */
  method ComposeReset(centroidLat: real, centroidLng: real, azimuth: real, trig: Trig) returns (r: array2<real>)
    ensures fresh(r) && Is3x3(r)
    ensures Elems(r) ==
      Product(Product(AxisAngleFactor(centroidLat, centroidLng, azimuth, trig), ZFactor(centroidLng, trig)), XFactor(centroidLat, trig))
  {
    var m1, m2, m3 := ResetFactors(centroidLat, centroidLng, azimuth, trig);
    var m4 := MatMulMatrix(m1, m2);
    r := MatMulMatrix(m4, m3);
  }

  /** The three rotations `reset_by_centroid_and_azimuth` multiplies, each in a fresh array. */
  method ResetFactors(centroidLat: real, centroidLng: real, azimuth: real, trig: Trig)
    returns (m1: array2<real>, m2: array2<real>, m3: array2<real>)
    ensures fresh(m1) && fresh(m2) && fresh(m3) && Is3x3(m1) && Is3x3(m2) && Is3x3(m3)
    ensures Elems(m1) == AxisAngleFactor(centroidLat, centroidLng, azimuth, trig)
    ensures Elems(m2) == ZFactor(centroidLng, trig) && Elems(m3) == XFactor(centroidLat, trig)
  {
    var centroidLatRad := Deg2Rad(centroidLat);
    var centroidLngRad := Deg2Rad(centroidLng);
    var xAngle := centroidLatRad - Deg2Rad(H3Face5Lat);
    var zAngle := centroidLngRad - Deg2Rad(H3Face5Lng);
    m1 := RotationAxisAngle((centroidLat, centroidLng), Deg2Rad(azimuth), trig);
    m2 := NewMatrix(RotationZ(trig.cos(zAngle), trig.sin(zAngle)));
    m3 := NewMatrix(RotationX(trig.cos(xAngle), trig.sin(xAngle)));
  }

  /**
   * The module-level pair `R_h3_to_amap` (rebound on every reset) and
   * `R_amap_to_h3` (one array, overwritten in place), kept transposes of
   * each other.
   */
  class RotationFrames {
    var hToAmap: array2<real>
    const amapToH3: array2<real>

    ghost predicate Valid()
      reads this, hToAmap, amapToH3
    {
      Is3x3(hToAmap) && Is3x3(amapToH3) && hToAmap != amapToH3 &&
      Elems(amapToH3) == Transpose(Elems(hToAmap))
    }

    /** Both matrices start as the identity. */
    constructor ()
      ensures Valid() && fresh(hToAmap) && fresh(amapToH3)
      ensures Elems(hToAmap) == Identity() && Elems(amapToH3) == Identity()
    {
      var forward := NewMatrix(Identity());
      var inverse := NewMatrix(Identity());
      hToAmap, amapToH3 := forward, inverse;
      new;
    }

    /**
     * `reset_by_centroid_and_azimuth`: the forward matrix becomes the product
     * of the axis-angle, z and x rotations, and the inverse its transpose.
     */
    method ResetByCentroidAndAzimuth(centroidLat: real, centroidLng: real, azimuth: real, trig: Trig)
      requires Valid()
      modifies this, amapToH3
      ensures Valid() && fresh(hToAmap)
      ensures Elems(hToAmap) ==
        Product(Product(AxisAngleFactor(centroidLat, centroidLng, azimuth, trig), ZFactor(centroidLng, trig)), XFactor(centroidLat, trig))
      ensures forall i, j :: 0 <= i < 3 && 0 <= j < 3 ==> amapToH3[i, j] == hToAmap[j, i]
    {
      var r := ComposeReset(centroidLat, centroidLng, azimuth, trig);
      hToAmap := r;
      InstallTranspose(r);
    }

    /** The loop of the reset that writes the inverse as the transpose of `r`, in place. */
    method InstallTranspose(r: array2<real>)
      requires Is3x3(r) && Is3x3(amapToH3) && r != amapToH3
      modifies amapToH3
      ensures Elems(amapToH3) == Transpose(Elems(r))
      ensures forall i, j :: 0 <= i < 3 && 0 <= j < 3 ==> amapToH3[i, j] == r[j, i]
    {
      for i := 0 to 3
        invariant forall i', j' :: 0 <= i' < i && 0 <= j' < 3 ==> amapToH3[i', j'] == r[j', i']
      {
        for j := 0 to 3
          invariant forall i', j' :: 0 <= i' < i && 0 <= j' < 3 ==> amapToH3[i', j'] == r[j', i']
          invariant forall j' :: 0 <= j' < j ==> amapToH3[i, j'] == r[j', i]
        {
          amapToH3[i, j] := r[j, i];
        }
      }
      forall i, j | 0 <= i < 3 && 0 <= j < 3 ensures amapToH3[i, j] == At(Transpose(Elems(r)), i, j) {
        ElemsAt(r, j, i);
        TransposeAt(Elems(r), i, j);
      }
      ElemsExt(amapToH3, Transpose(Elems(r)));
    }

    /** `h3GeoToAmapGeo`. */
    method H3GeoToAmapGeo(p: (real, real), trig: Trig) returns (q: (real, real))
      requires Valid()
      ensures q == XyzToLatLng(Apply(Elems(hToAmap), LatLngToXyz(p, trig)), trig)
    {
      q := RotatePoint(p, hToAmap, trig);
    }

    /** `amapGeoToH3Geo`: through the transpose of the forward matrix. */
    method AmapGeoToH3Geo(p: (real, real), trig: Trig) returns (q: (real, real))
      requires Valid()
      ensures q == XyzToLatLng(Apply(Transpose(Elems(hToAmap)), LatLngToXyz(p, trig)), trig)
    {
      q := RotatePoint(p, amapToH3, trig);
    }
  }
}
