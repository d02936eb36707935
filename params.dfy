/**
 * The parameter record: a key-by-key object that `param` and `init` merge into
 * with `$.extend`, and the values `init` draws for one picture.
 */
module Params {
  import opened Wrappers
  import Random

  /** A parameter value: the counts and bounds are integers, `doFill` a boolean. */
  datatype Value = Int(i: int) | Bool(b: bool)

  /** The property names the generator reads or writes, and any other name a caller sets. */
  datatype Name =
    | DoFill | AnimationTime
    | CurvePoints | CurvePointsMin | CurvePointsMax
    | RadialRepetitionCount | RadialRepetitionsMin | RadialRepetitionsMax
    | LineCount | LineCountMin | LineCountMax
    | Other(name: string)

  /** The property name each key stands for. */
  function KeyName(k: Name): string
  {
    match k
    case DoFill => "doFill"
    case AnimationTime => "animationTime"
    case CurvePoints => "curvePoints"
    case CurvePointsMin => "curvePointsMin"
    case CurvePointsMax => "curvePointsMax"
    case RadialRepetitionCount => "radialRepetitionCount"
    case RadialRepetitionsMin => "radialRepetitionsMin"
    case RadialRepetitionsMax => "radialRepetitionsMax"
    case LineCount => "lineCount"
    case LineCountMin => "lineCountMin"
    case LineCountMax => "lineCountMax"
    case Other(name) => name
  }

  /** The names the generator itself uses. */
  const KnownNames: set<string> := {
    "doFill", "animationTime", "curvePoints", "curvePointsMin", "curvePointsMax",
    "radialRepetitionCount", "radialRepetitionsMin", "radialRepetitionsMax",
    "lineCount", "lineCountMin", "lineCountMax"}

  /** A key: `Other` only for a name the generator does not use, so each name has one key. */
  type Key = k: Name | k.Other? ==> k.name !in KnownNames witness DoFill

  type Params = map<Key, Value>

  /** The `params` object literal on the prototype: `doFill` is false and nothing else is set. */
  const Prototype: Params := map[DoFill := Bool(false)]

  /** `params.key`: `None` is `undefined`. */
  function Get(p: Params, key: Name): Option<Value>
  {
    if key in p then Some(p[key]) else None
  }

  /** `$.extend(base, update)`: a shallow, key-by-key merge. */
  function Merge(base: Params, update: Params): (r: Params)
    ensures r.Keys == base.Keys + update.Keys
    ensures forall key :: key in update ==> r[key] == update[key]
    ensures forall key :: key in base && key !in update ==> r[key] == base[key]
  {
    base + update
  }

  /** `if (params.key)`: undefined, false and 0 are false. */
  predicate Truthy(v: Option<Value>)
  {
    match v
    case None => false
    case Some(Bool(b)) => b
    case Some(Int(i)) => i != 0
  }

  /**
   * The bound of a loop `i < params.key` that starts at i >= 0, as JavaScript
   * compares it: a boolean counts as 0 or 1, and `undefined` (NaN, below which
   * nothing is) stops the loop at once, as 0 does.
   */
  function LoopBound(v: Option<Value>): int
  {
    match v
    case None => 0
    case Some(Bool(b)) => if b then 1 else 0
    case Some(Int(i)) => i
  }

  /** The keys `lo` and `hi` hold integers with lo <= hi: what `randomIntBetween` needs. */
  predicate RangeReady(p: Params, lo: Name, hi: Name)
  {
    lo in p && hi in p && p[lo].Int? && p[hi].Int? && p[lo].i <= p[hi].i
  }

  /** The three ranges `init` draws from are set. */
  predicate BoundsReady(p: Params)
  {
    && RangeReady(p, CurvePointsMin, CurvePointsMax)
    && RangeReady(p, RadialRepetitionsMin, RadialRepetitionsMax)
    && RangeReady(p, LineCountMin, LineCountMax)
  }

  /** The key `key` of `u` holds an integer of the range [p[lo], p[hi]]. */
  predicate DrawnWithin(u: Params, key: Name, p: Params, lo: Name, hi: Name)
    requires RangeReady(p, lo, hi)
  {
    key in u && u[key].Int? && p[lo].i <= u[key].i <= p[hi].i
  }

  /** `randomIntBetween(params.lo, params.hi)` on the raw draw `u`. */
  function Draw(p: Params, lo: Name, hi: Name, u: nat): int
    requires RangeReady(p, lo, hi)
  {
    Random.IntBetween(p[lo].i, p[hi].i, u)
  }

  /**
   * The object `init` merges into `params`: the animation time, then the three
   * counts, drawn in that order from the raw draws at k, k + 1 and k + 2.
   */
  function InitUpdate(p: Params, src: Random.Supply, k: nat): (u: Params)
    requires BoundsReady(p)
    ensures u.Keys == {AnimationTime, CurvePoints, RadialRepetitionCount, LineCount}
    ensures u[AnimationTime] == Int(10000)
    ensures DrawnWithin(u, CurvePoints, p, CurvePointsMin, CurvePointsMax)
    ensures DrawnWithin(u, RadialRepetitionCount, p, RadialRepetitionsMin, RadialRepetitionsMax)
    ensures DrawnWithin(u, LineCount, p, LineCountMin, LineCountMax)
  {
    map[
      AnimationTime := Int(10000),
      CurvePoints := Int(Draw(p, CurvePointsMin, CurvePointsMax, Random.At(src, k))),
      RadialRepetitionCount := Int(Draw(p, RadialRepetitionsMin, RadialRepetitionsMax, Random.At(src, k + 1))),
      LineCount := Int(Draw(p, LineCountMin, LineCountMax, Random.At(src, k + 2)))]
  }

  /**
   * After `init`'s merge every other key is as it was (so `doFill` and the six
   * bounds are untouched and `init` can run again).
   */
  lemma InitKeepsOtherKeys(p: Params, src: Random.Supply, k: nat)
    requires BoundsReady(p)
    ensures var q := Merge(p, InitUpdate(p, src, k));
      && BoundsReady(q)
      && Get(q, DoFill) == Get(p, DoFill)
      && forall key :: key in p && key !in InitUpdate(p, src, k) ==> key in q && q[key] == p[key]
  {
  }
}
