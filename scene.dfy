/**
 * The visible surface after `init`: `use` placements of the group of curves,
 * each rotated, half of them also mirrored by `scale(-1,1)`.
 */
module Surface {
  import opened JsText

  /** The rotation `rotate(step * 360 / reps)` in degrees, kept exact as the pair (step, reps). */
  datatype Angle = Angle(step: int, reps: int)

  /** One `use` of the group: transform `rotate(…)`, or `scale(-1,1) rotate(…)` when reflected. */
  datatype Placement = Use(reflected: bool, rotation: Angle)

  /** The placements of the first m passes of the loop: a plain and a mirrored use per pass. */
  function SceneUpTo(reps: int, m: nat): (s: seq<Placement>)
    ensures |s| == 2 * m
    ensures forall j :: 0 <= j < 2 * m ==> s[j] == Use(j % 2 == 1, Angle(j / 2, reps))
  {
    if m == 0 then []
    else SceneUpTo(reps, m - 1) + [Use(false, Angle(m - 1, reps)), Use(true, Angle(m - 1, reps))]
  }

  /** The surface `init` builds: the loop runs `i < reps * 2`. */
  function Scene(reps: int): (s: seq<Placement>)
    ensures |s| == 4 * Passes(0, reps)
  {
    SceneUpTo(reps, Passes(0, 2 * reps))
  }

  /**
   * Which of the `reps` evenly spaced directions an angle points in:
   * step * 360 / reps and step' * 360 / reps agree modulo 360 exactly when
   * step and step' agree modulo reps.
   */
  function Direction(a: Angle): int
    requires a.reps > 0
  {
    a.step % a.reps
  }

  predicate Faces(p: Placement, dir: int, reflected: bool)
  {
    p.reflected == reflected && p.rotation.reps > 0 && Direction(p.rotation) == dir
  }

  /** How many placements of s point in direction `dir` with the given mirroring. */
  function Facing(s: seq<Placement>, dir: int, reflected: bool): nat
  {
    if s == [] then 0
    else Facing(s[..|s| - 1], dir, reflected) + (if Faces(s[|s| - 1], dir, reflected) then 1 else 0)
  }

  /** A step of the first turn points in its own direction, a step of the second turn in step - reps. */
  lemma DirectionOfStep(reps: int, x: int)
    requires reps > 0 && 0 <= x < 2 * reps
    ensures Direction(Angle(x, reps)) == if x < reps then x else x - reps
  {
    if x >= reps {
      assert x == 1 * reps + (x - reps);
    }
  }

  /** Counting the two placements one pass adds. */
  lemma FacingPair(prev: seq<Placement>, a: Placement, b: Placement, dir: int, reflected: bool)
    ensures Facing(prev + [a, b], dir, reflected)
      == Facing(prev, dir, reflected) + (if Faces(a, dir, reflected) then 1 else 0)
         + (if Faces(b, dir, reflected) then 1 else 0)
  {
    var s := prev + [a, b];
    assert s[..|s| - 1] == prev + [a];
    assert (prev + [a])[..|prev|] == prev;
  }

  lemma {:induction false} FacingUpTo(reps: int, m: nat, dir: int, reflected: bool)
    requires reps > 0 && 0 <= dir < reps && m <= 2 * reps
    ensures Facing(SceneUpTo(reps, m), dir, reflected)
      == (if dir < m then 1 else 0) + (if dir + reps < m then 1 else 0)
  {
    if m > 0 {
      var a := Use(false, Angle(m - 1, reps));
      var b := Use(true, Angle(m - 1, reps));
      FacingPair(SceneUpTo(reps, m - 1), a, b, dir, reflected);
      FacingUpTo(reps, m - 1, dir, reflected);
      DirectionOfStep(reps, m - 1);
    }
  }

  /**
   * The loop's angles run twice around the circle: each of the `reps` directions
   * carries exactly two plain and two mirrored placements.
   */
  lemma SceneMultiplicity(reps: int, dir: int, reflected: bool)
    requires reps > 0 && 0 <= dir < reps
    ensures Facing(Scene(reps), dir, reflected) == 2
  {
    FacingUpTo(reps, 2 * reps, dir, reflected);
  }
}
