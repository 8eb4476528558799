/**
 * Vectors and axis-aligned boxes as the exporters use them: Unity's Vector3 and Bounds,
 * with real coordinates in place of single-precision floats.
 */
module Geometry {

  datatype Vec3 = Vec3(x: real, y: real, z: real)

  const Zero: Vec3 := Vec3(0.0, 0.0, 0.0)
  const One: Vec3 := Vec3(1.0, 1.0, 1.0)

  /** Vector3.Scale: the component-wise product. */
  function Scale(a: Vec3, b: Vec3): (r: Vec3)
    ensures b == One ==> r == a
    ensures r == Zero <==> (a.x == 0.0 || b.x == 0.0) && (a.y == 0.0 || b.y == 0.0) && (a.z == 0.0 || b.z == 0.0)
  {
    Vec3(a.x * b.x, a.y * b.y, a.z * b.z)
  }

  /** The manifest's coordinate conversion: the X axis changes sign. */
  function FlipX(p: Vec3): (r: Vec3)
    ensures r.y == p.y && r.z == p.z && r.x + p.x == 0.0
  {
    Vec3(-p.x, p.y, p.z)
  }

  /** An axis-aligned box given by its corners; `new Bounds()` is the box at the origin with no extent. */
  datatype Bounds = Bounds(min: Vec3, max: Vec3)

  const EmptyBounds: Bounds := Bounds(Zero, Zero)

  /** Bounds.size: the extent along each axis, so that `max` is `min` moved by the size. */
  function Size(b: Bounds): (r: Vec3)
    ensures b.min.x + r.x == b.max.x && b.min.y + r.y == b.max.y && b.min.z + r.z == b.max.z
    ensures r == Zero <==> b.min == b.max
  {
    Vec3(b.max.x - b.min.x, b.max.y - b.min.y, b.max.z - b.min.z)
  }

  function Min(a: real, b: real): real { if a <= b then a else b }
  function Max(a: real, b: real): real { if a <= b then b else a }

  /** `outer` contains both corners of `inner`. */
  predicate Encloses(outer: Bounds, inner: Bounds) {
    && outer.min.x <= inner.min.x && outer.min.y <= inner.min.y && outer.min.z <= inner.min.z
    && inner.max.x <= outer.max.x && inner.max.y <= outer.max.y && inner.max.z <= outer.max.z
  }

  /** Bounds.Encapsulate: the box spanning both boxes. */
  function Encapsulate(a: Bounds, b: Bounds): (r: Bounds)
    ensures Encloses(r, a) && Encloses(r, b)
  {
    Bounds(Vec3(Min(a.min.x, b.min.x), Min(a.min.y, b.min.y), Min(a.min.z, b.min.z)),
           Vec3(Max(a.max.x, b.max.x), Max(a.max.y, b.max.y), Max(a.max.z, b.max.z)))
  }

  /** It is the smallest such box: any box containing both contains it. */
  lemma EncapsulateLeast(a: Bounds, b: Bounds, c: Bounds)
    requires Encloses(c, a) && Encloses(c, b)
    ensures Encloses(c, Encapsulate(a, b))
  {
  }

  /** `b` grown, one box after another, to enclose every box of `bs`. */
  function EncapsulateAll(b: Bounds, bs: seq<Bounds>): (r: Bounds)
    ensures Encloses(r, b)
    ensures forall i :: 0 <= i < |bs| ==> Encloses(r, bs[i])
    decreases |bs|
  {
    if bs == [] then b
    else
      var r := EncapsulateAll(Encapsulate(b, bs[0]), bs[1..]);
      assert forall i :: 1 <= i < |bs| ==> bs[i] == bs[1..][i - 1];
      r
  }

  /** The grown box is the smallest one containing `b` and every box of `bs`. */
  lemma {:induction false} EncapsulateAllLeast(b: Bounds, bs: seq<Bounds>, c: Bounds)
    requires Encloses(c, b) && forall i :: 0 <= i < |bs| ==> Encloses(c, bs[i])
    ensures Encloses(c, EncapsulateAll(b, bs))
    decreases |bs|
  {
    if bs != [] {
      EncapsulateLeast(b, bs[0], c);
      assert forall i :: 0 <= i < |bs[1..]| ==> bs[1..][i] == bs[i + 1];
      EncapsulateAllLeast(Encapsulate(b, bs[0]), bs[1..], c);
    }
  }

  /** Growing (-1,-1,-1)..(1,1,1) over itself and over (0,0,0)..(3,3,3) gives (-1,-1,-1)..(3,3,3). */
  lemma GrowOverTwoBoxes()
    ensures var a := Bounds(Vec3(-1.0, -1.0, -1.0), Vec3(1.0, 1.0, 1.0));
      EncapsulateAll(a, [a, Bounds(Zero, Vec3(3.0, 3.0, 3.0))]) == Bounds(Vec3(-1.0, -1.0, -1.0), Vec3(3.0, 3.0, 3.0))
  {
    var a := Bounds(Vec3(-1.0, -1.0, -1.0), Vec3(1.0, 1.0, 1.0));
    var b := Bounds(Zero, Vec3(3.0, 3.0, 3.0));
    assert Encapsulate(a, a) == a;
    assert [a, b][1..] == [b] && [b][1..] == [];
    assert EncapsulateAll(a, [a, b]) == EncapsulateAll(a, [b]);
    assert EncapsulateAll(a, [b]) == Encapsulate(a, b);
  }

  /** The dimensions rule: a size that comes out as the zero vector is replaced by the unit vector. */
  function OrUnit(v: Vec3): (r: Vec3)
    ensures r != Zero
    ensures v != Zero ==> r == v
    ensures v == Zero ==> r == One
  {
    if v == Zero then One else v
  }

  /** One axis of the guarded registration point: -min/size, or 0 where the box has no extent. */
  function RegistrationAxis(min: real, size: real): (r: real)
    ensures size == 0.0 ==> r == 0.0
    ensures size != 0.0 ==> r * size == -min
  {
    if size == 0.0 then 0.0 else (min * -1.0) / size
  }

  /** The guarded registration point of a mesh box, axis by axis. */
  function Registration(b: Bounds): (r: Vec3)
    ensures var s := Size(b);
      && (s.x == 0.0 ==> r.x == 0.0) && (s.x != 0.0 ==> r.x * s.x == -b.min.x)
      && (s.y == 0.0 ==> r.y == 0.0) && (s.y != 0.0 ==> r.y * s.y == -b.min.y)
      && (s.z == 0.0 ==> r.z == 0.0) && (s.z != 0.0 ==> r.z * s.z == -b.min.z)
  {
    var s := Size(b);
    Vec3(RegistrationAxis(b.min.x, s.x), RegistrationAxis(b.min.y, s.y), RegistrationAxis(b.min.z, s.z))
  }

  /** A box with positive extent that contains the pivot has its registration axis in [0, 1]. */
  lemma RegistrationAxisNormalized(min: real, size: real)
    requires size > 0.0 && min <= 0.0 <= min + size
    ensures 0.0 <= RegistrationAxis(min, size) <= 1.0
  {
  }

  /** A quotient computed in single precision: finite, or infinite/NaN after a division by zero. */
  datatype Scalar = Finite(value: real) | NonFinite

  datatype ScalarVec3 = ScalarVec3(x: Scalar, y: Scalar, z: Scalar)

  const ZeroScalars: ScalarVec3 := ScalarVec3(Finite(0.0), Finite(0.0), Finite(0.0))

  /** One axis of the unguarded registration point: -min/size with no zero test. */
  function UnguardedRegistrationAxis(min: real, size: real): (r: Scalar)
    ensures r.Finite? <==> size != 0.0
    ensures r.Finite? ==> r.value == RegistrationAxis(min, size)
  {
    if size == 0.0 then NonFinite else Finite((min * -1.0) / size)
  }

  function UnguardedRegistration(b: Bounds): (r: ScalarVec3)
    ensures var s := Size(b);
      && (r.x.Finite? <==> s.x != 0.0) && (r.y.Finite? <==> s.y != 0.0) && (r.z.Finite? <==> s.z != 0.0)
    ensures r.x.Finite? && r.y.Finite? && r.z.Finite? ==>
      Vec3(r.x.value, r.y.value, r.z.value) == Registration(b)
  {
    var s := Size(b);
    ScalarVec3(UnguardedRegistrationAxis(b.min.x, s.x), UnguardedRegistrationAxis(b.min.y, s.y),
               UnguardedRegistrationAxis(b.min.z, s.z))
  }

  /**
   * A flat mesh (Unity's built-in Plane: no extent along Y, its minimum at 0) gets a
   * non-finite Y registration from the unguarded rule, and 0 from the guarded one.
   */
  lemma FlatMeshRegistration()
    ensures var plane := Bounds(Vec3(-5.0, 0.0, -5.0), Vec3(5.0, 0.0, 5.0));
      && UnguardedRegistration(plane).y == NonFinite
      && Registration(plane) == Vec3(0.5, 0.0, 0.5)
  {
    var plane := Bounds(Vec3(-5.0, 0.0, -5.0), Vec3(5.0, 0.0, 5.0));
    assert Size(plane) == Vec3(10.0, 0.0, 10.0);
  }
}
