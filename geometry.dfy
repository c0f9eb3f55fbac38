/** Ride-height geometry for a car pitching without roll (car.py: GHTransform,
    posZTransform, the CG height and rake computed in isValidRideHeight and
    calculateAero, and the Collider class). Lengths are in metres, angles in
    degrees unless a name says otherwise. */
module Geometry {
  import opened Numeric
  import Lut

  /** A body-frame point [x, y, z]: lateral, vertical, longitudinal. */
  datatype Vec3 = Vec3(x: real, y: real, z: real)

  /** The car data the ride-height geometry needs (car.ini and suspensions.ini). */
  datatype Chassis = Chassis(
    pickupFrontHeight: real,
    pickupRearHeight: real,
    wheelbase: real,
    cgLocation: real)

  /** CG height and rake (degrees) of the car at one pair of ride heights. */
  datatype Stance = Stance(cgHeight: real, rake: real)

  /** Ground height of a point under rake, assuming no roll. */
  function GHTransform(m: Maths, position: Vec3, cgHeight: real, rake: real): (h: real)
    ensures position.z == 0.0 ==> h == cgHeight + position.y
    ensures m.sin(0.0) == 0.0 && rake == 0.0 ==> h == cgHeight + position.y
  {
    cgHeight + position.y - position.z * m.sin(Radians(rake))
  }

  /** Longitudinal coordinate of a point relative to the CG under rake. */
  function PosZTransform(m: Maths, position: Vec3, rake: real): (z: real)
    ensures position.z == 0.0 ==> z == 0.0
    ensures m.cos(0.0) == 1.0 && rake == 0.0 ==> z == position.z
  {
    position.z * m.cos(Radians(rake))
  }

  /** CG height interpolated between the front and rear CG heights at the CG
      location fraction, and the rake from their difference over the wheelbase. */
  function StanceAt(m: Maths, c: Chassis, frontRH: real, rearRH: real): (s: Stance)
    requires c.wheelbase != 0.0
    ensures m.asin(0.0) == 0.0 && frontRH - c.pickupFrontHeight == rearRH - c.pickupRearHeight ==>
      s == Stance(frontRH - c.pickupFrontHeight, 0.0)
  {
    var frontCGHeight := frontRH - c.pickupFrontHeight;
    var rearCGHeight := rearRH - c.pickupRearHeight;
    var cgHeight := Lut.LinearInterpolate(c.cgLocation, 0.0, 1.0, frontCGHeight, rearCGHeight);
    Stance(cgHeight, Degrees(m.asin((rearCGHeight - frontCGHeight) / c.wheelbase)))
  }

  /** The CG height is the front CG height at cgLocation 0, the rear one at 1,
      and lies between them for a location in between. */
  lemma StanceBetween(m: Maths, c: Chassis, frontRH: real, rearRH: real)
    requires c.wheelbase != 0.0
    ensures var s := StanceAt(m, c, frontRH, rearRH);
      var front := frontRH - c.pickupFrontHeight;
      var rear := rearRH - c.pickupRearHeight;
      (c.cgLocation == 0.0 ==> s.cgHeight == front) &&
      (c.cgLocation == 1.0 ==> s.cgHeight == rear) &&
      (0.0 <= c.cgLocation <= 1.0 && front <= rear ==> front <= s.cgHeight <= rear) &&
      (0.0 <= c.cgLocation <= 1.0 && rear <= front ==> rear <= s.cgHeight <= front)
  {
    CentroidBetween(c.cgLocation, frontRH - c.pickupFrontHeight, rearRH - c.pickupRearHeight);
  }

  lemma CentroidBetween(f: real, a: real, b: real)
    ensures var v := Lut.LinearInterpolate(f, 0.0, 1.0, a, b);
      0.0 <= f <= 1.0 ==> (a <= b ==> a <= v <= b) && (b <= a ==> b <= v <= a)
  {
    var v := Lut.LinearInterpolate(f, 0.0, 1.0, a, b);
    assert v == a + f * (b - a);
    if !(0.0 <= f <= 1.0) {
    } else if a <= b {
      assert 0.0 <= f * (b - a) <= b - a;
    } else {
      assert b - a <= f * (b - a) <= 0.0;
    }
  }

  /** A rigid collider box; it collides with the ground through its lower edges. */
  datatype Collider = Collider(centre: Vec3, size: Vec3) {

    /** The [y, z] points of the lower front and lower rear edge, relative to
        the CG, assuming no rake and no roll. */
    function PositionLowerEdges(): (r: ((real, real), (real, real)))
      ensures r.0.0 == r.1.0 == centre.y - size.y / 2.0
      ensures r.0.1 - r.1.1 == size.z
      ensures r.0.1 + r.1.1 == 2.0 * centre.z
    {
      var frontY := centre.y - size.y / 2.0;
      var frontZ := centre.z + size.z / 2.0;
      var rearY := centre.y - size.y / 2.0;
      var rearZ := centre.z - size.z / 2.0;
      ((frontY, frontZ), (rearY, rearZ))
    }

    function FrontEdge(): Vec3 {
      var e := PositionLowerEdges();
      Vec3(centre.x, e.0.0, e.0.1)
    }

    function RearEdge(): Vec3 {
      var e := PositionLowerEdges();
      Vec3(centre.x, e.1.0, e.1.1)
    }

    /** True when BOTH lower edges are at least colliderMargin above the
        ground, that is, when there is no ground collision. */
    predicate IsValid(m: Maths, cgHeight: real, rake: real, colliderMargin: real): (b: bool)
      ensures m.sin(0.0) == 0.0 && rake == 0.0 ==> (b <==> cgHeight + centre.y - size.y / 2.0 >= colliderMargin)
    {
      GHTransform(m, FrontEdge(), cgHeight, rake) >= colliderMargin &&
      GHTransform(m, RearEdge(), cgHeight, rake) >= colliderMargin
    }
  }

  /** Raising the margin can only turn a valid collider invalid. */
  lemma ColliderMarginMonotone(m: Maths, col: Collider, cgHeight: real, rake: real, lower: real, higher: real)
    requires lower <= higher
    ensures col.IsValid(m, cgHeight, rake, higher) ==> col.IsValid(m, cgHeight, rake, lower)
    ensures !col.IsValid(m, cgHeight, rake, lower) ==> !col.IsValid(m, cgHeight, rake, higher)
  {
  }

  /** The ride heights are valid when every collider clears the ground. */
  predicate RideHeightClear(m: Maths, c: Chassis, colliders: seq<Collider>, frontRH: real, rearRH: real, colliderMargin: real): (b: bool)
    requires c.wheelbase != 0.0
    ensures m.asin(0.0) == 0.0 && m.sin(0.0) == 0.0 && frontRH - c.pickupFrontHeight == rearRH - c.pickupRearHeight ==>
      (b <==> forall i :: 0 <= i < |colliders| ==>
                frontRH - c.pickupFrontHeight + colliders[i].centre.y - colliders[i].size.y / 2.0 >= colliderMargin)
  {
    var s := StanceAt(m, c, frontRH, rearRH);
    forall i :: 0 <= i < |colliders| ==> colliders[i].IsValid(m, s.cgHeight, s.rake, colliderMargin)
  }

  lemma RideHeightMarginMonotone(m: Maths, c: Chassis, colliders: seq<Collider>, frontRH: real, rearRH: real, lower: real, higher: real)
    requires c.wheelbase != 0.0 && lower <= higher
    ensures RideHeightClear(m, c, colliders, frontRH, rearRH, higher) ==> RideHeightClear(m, c, colliders, frontRH, rearRH, lower)
  {
  }
}
