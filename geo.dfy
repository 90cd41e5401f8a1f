/** Great-circle distance by the spherical law of cosines. */
module Geo {

  /** A coordinate in degrees. */
  datatype LatLng = LatLng(latitude: real, longitude: real)

  /** The earth's radius in meters. */
  const EarthRadius: real := 6378137.0

  /** The library's π, sine, cosine and arc cosine, taken as given; `acos` is
      only defined on [-1, 1]. */
  datatype Trig = Trig(pi: real, sin: real -> real, cos: real -> real, acos: real --> real)

  /** `acos` accepts every argument in [-1, 1]. */
  ghost predicate AcosOnUnit(t: Trig) {
    forall x :: -1.0 <= x <= 1.0 ==> t.acos.requires(x)
  }

  function Min(x: real, y: real): real {
    if x < y then x else y
  }

  function Max(x: real, y: real): real {
    if x < y then y else x
  }

  /** `Math.max(-1, Math.min(1, x))`: always in [-1, 1], the identity inside
      that range, and the nearer end outside it. */
  function Clamp(x: real): (r: real)
    ensures -1.0 <= r <= 1.0
    ensures -1.0 <= x <= 1.0 ==> r == x
    ensures x < -1.0 ==> r == -1.0
    ensures x > 1.0 ==> r == 1.0
  {
    Max(-1.0, Min(1.0, x))
  }

  function Radians(t: Trig, degrees: real): real {
    degrees * t.pi / 180.0
  }

  /** The cosine of the central angle between `a` and `b`, before clamping. */
  function CentralCosine(t: Trig, a: LatLng, b: LatLng): real {
    var aLatitude := Radians(t, a.latitude);
    var bLatitude := Radians(t, b.latitude);
    var theta := Radians(t, a.longitude - b.longitude);
    t.sin(aLatitude) * t.sin(bLatitude) + t.cos(aLatitude) * t.cos(bLatitude) * t.cos(theta)
  }

  /** The distance in meters between `a` and `b`: exactly 0 for equal
      coordinates, and otherwise `acos` of the clamped cosine, which the clamp
      keeps inside the domain of `acos`, times the earth's radius. */
  function Distance(t: Trig, a: LatLng, b: LatLng): (r: real)
    requires AcosOnUnit(t)
    ensures a.latitude == b.latitude && a.longitude == b.longitude ==> r == 0.0
    ensures (forall x :: -1.0 <= x <= 1.0 ==> t.acos(x) >= 0.0) ==> r >= 0.0
  {
    if a.latitude == b.latitude && a.longitude == b.longitude then 0.0
    else t.acos(Clamp(CentralCosine(t, a, b))) * EarthRadius
  }

  /** With an even cosine, the distance does not depend on the order of its
      arguments. */
  lemma DistanceSymmetric(t: Trig, a: LatLng, b: LatLng)
    requires AcosOnUnit(t)
    requires forall x :: t.cos(-x) == t.cos(x)
    ensures Distance(t, a, b) == Distance(t, b, a)
  {
    var theta := Radians(t, a.longitude - b.longitude);
    assert Radians(t, b.longitude - a.longitude) == -theta;
    assert t.cos(-theta) == t.cos(theta);
    var sa, sb := t.sin(Radians(t, a.latitude)), t.sin(Radians(t, b.latitude));
    var ca, cb := t.cos(Radians(t, a.latitude)), t.cos(Radians(t, b.latitude));
    assert sa * sb == sb * sa;
    assert ca * cb * t.cos(theta) == cb * ca * t.cos(theta);
    assert CentralCosine(t, a, b) == CentralCosine(t, b, a);
  }

  /** From (0, 0) to (0, 90) is a quarter of the circumference, given the usual
      values of the trigonometric functions at 0 and at a right angle. */
  lemma QuarterCircumference(t: Trig)
    requires AcosOnUnit(t)
    requires t.sin(0.0) == 0.0 && t.cos(0.0) == 1.0
    requires t.cos(-t.pi / 2.0) == 0.0 && t.acos(0.0) == t.pi / 2.0
    ensures Distance(t, LatLng(0.0, 0.0), LatLng(0.0, 90.0)) == t.pi / 2.0 * EarthRadius
  {
  }
}
