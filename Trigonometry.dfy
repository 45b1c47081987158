/**
 * The trigonometry the renderer borrows from the C++ math library and from
 * glm::radians. Dafny has no sine or cosine over `real`, so they are passed in
 * as a record of total functions, and `Lawful` states the only facts about
 * them that the model relies on.
 */
module Trigonometry {

  /** sin and cos over radians, and the factor pi/180 used by glm::radians. */
  datatype Trig = Trig(sin: real -> real, cos: real -> real, degToRad: real)

  /** What every caller may assume of the real sine and cosine. */
  ghost predicate Lawful(tr: Trig) {
    && tr.degToRad > 0.0
    && tr.sin(0.0) == 0.0
    && tr.cos(0.0) == 1.0
    && (forall a: real :: -1.0 <= tr.sin(a) <= 1.0)
    && (forall a: real :: -1.0 <= tr.cos(a) <= 1.0)
    && (forall a: real :: UnitCircle(tr, a) == 1.0)
  }

  /**
   * sin^2 + cos^2 at angle a. Kept as a function of its own so that the
   * Pythagorean law is brought in only where a proof mentions it.
   */
  function UnitCircle(tr: Trig, a: real): real {
    tr.sin(a) * tr.sin(a) + tr.cos(a) * tr.cos(a)
  }

  /** glm::radians: degrees to radians. */
  function Radians(tr: Trig, degrees: real): (r: real)
    requires Lawful(tr)
    ensures degrees == 0.0 ==> r == 0.0
    ensures degrees > 0.0 ==> r > 0.0
    ensures degrees < 0.0 ==> r < 0.0
  {
    degrees * tr.degToRad
  }

  /** Converting a negated angle gives the negated angle in radians. */
  lemma RadiansNegate(tr: Trig, degrees: real)
    requires Lawful(tr)
    ensures Radians(tr, -degrees) == -Radians(tr, degrees)
  {
  }
}
