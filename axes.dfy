// Axis conventions between the host engine (Z up) and the fluid solver's
// scene (Y up).  The scene generator and the bridge's legacy force path
// use the rotation by -90 degrees about X, (x, y, z) -> (x, z, -y); the
// XML scene generator uses (x, y, z) -> (x, z, y), which is a reflection.

module Axes {
  import opened Core

  function Dot(a: Vec3, b: Vec3): real
  {
    a.x * b.x + a.y * b.y + a.z * b.z
  }

  function Cross(a: Vec3, b: Vec3): Vec3
  {
    Vec3(a.y * b.z - a.z * b.y, a.z * b.x - a.x * b.z, a.x * b.y - a.y * b.x)
  }

  /** Z-up to Y-up: the rotation by -90 degrees about X. */
  function ZUpToYUp(v: Vec3): Vec3
  {
    Vec3(v.x, v.z, -v.y)
  }

  /** Y-up back to Z-up: the rotation by +90 degrees about X. */
  function YUpToZUp(v: Vec3): (r: Vec3)
    ensures ZUpToYUp(r) == v
  {
    Vec3(v.x, -v.z, v.y)
  }

  lemma ZUpToYUpRoundTrip(v: Vec3)
    ensures YUpToZUp(ZUpToYUp(v)) == v
    ensures ZUpToYUp(YUpToZUp(v)) == v
  {
  }

  /** The map is a rotation: it keeps dot products and handedness. */
  lemma ZUpToYUpIsRotation(a: Vec3, b: Vec3)
    ensures Dot(ZUpToYUp(a), ZUpToYUp(b)) == Dot(a, b)
    ensures Cross(ZUpToYUp(a), ZUpToYUp(b)) == ZUpToYUp(Cross(a, b))
  {
  }

  /** Four applications give the identity (a quarter turn). */
  lemma ZUpToYUpQuarterTurn(v: Vec3)
    ensures ZUpToYUp(ZUpToYUp(ZUpToYUp(ZUpToYUp(v)))) == v
    ensures ZUpToYUp(ZUpToYUp(v)) == Vec3(v.x, -v.y, -v.z)
  {
  }

  /** The XML scene generator's translation map: swaps y and z. */
  function SwapYZ(v: Vec3): Vec3
  {
    Vec3(v.x, v.z, v.y)
  }

  /** The swap is its own inverse. */
  lemma SwapYZInvolution(v: Vec3)
    ensures SwapYZ(SwapYZ(v)) == v
  {
  }

  /** The swap keeps lengths but reverses handedness: it is a reflection,
      not the rotation the other generator uses. */
  lemma SwapYZIsReflection(a: Vec3, b: Vec3)
    ensures Dot(SwapYZ(a), SwapYZ(b)) == Dot(a, b)
    ensures Cross(SwapYZ(a), SwapYZ(b)) == Neg3(SwapYZ(Cross(a, b)))
  {
  }

  /** The two generators place a point identically exactly when its
      y coordinate is zero. */
  lemma SwapYZAgreesOnlyOnPlane(v: Vec3)
    ensures SwapYZ(v) == ZUpToYUp(v) <==> v.y == 0.0
  {
  }
}
