/**
 * The `Mandala.Mandala` generator: an object whose methods draw random values,
 * build a group of Bezier curves, place rotated and mirrored copies of it on
 * the drawing surface, and drive the animation flag.
 *
 * Randomness is injected: `source` is the supply of raw draws and `cursor` the
 * position of the next one, so every draw the code makes is one step of
 * `cursor`, and what a method computes is a function of the supply and of the
 * position at which it started.
 */
module Mandala {
  import opened Wrappers
  import opened JsText
  import opened Colour
  import opened CurvePath
  import opened Params
  import opened Surface
  import opened Group
  import opened Animation
  import Random

  /**
   * The `params` object literal of the prototype. Every generator reads and
   * extends this one object, so a `param` call on one is seen by all.
   */
  class ParamStore {
    var entries: Params

    constructor ()
      ensures entries == Prototype
    {
      entries := Prototype;
    }
  }

  class Mandala {
    /** The prototype's `params`, shared with every other generator. */
    const params: ParamStore
    /** The raw draws `randomIntBetween` and `randomFloatBetween` consume. */
    const source: Random.Supply
    /** The position of the next raw draw. */
    var cursor: nat
    var animating: bool
    /** The `use` placements on the drawing surface, in the order they were added. */
    var surface: seq<Placement>
    /** `this.group`: undefined until the first `init`, then its curves. */
    var group: Option<seq<Curve>>

    /** `new Mandala.Mandala(selector)` on a surface that already holds `existing`. */
    constructor (store: ParamStore, supply: Random.Supply, existing: seq<Placement>)
      ensures params == store && source == supply && cursor == 0
      ensures !animating && surface == existing && group == None
    {
      params := store;
      source := supply;
      cursor := 0;
      animating := false;
      surface := existing;
      group := None;
    }

    /** `param(newParams)`: merges into the shared record; the new values win. */
    method Param(update: Params)
      modifies params
      ensures params.entries == Merge(old(params.entries), update)
    {
      params.entries := Merge(params.entries, update);
    }

    /** `randomFloatBetween(0, 1)`: one draw, known by its position. */
    method RandomFloat() returns (c: Coord)
      modifies this`cursor
      ensures c == Coord(old(cursor))
      ensures cursor == old(cursor) + 1
    {
      c := Coord(cursor);
      cursor := cursor + 1;
    }

    /** `randomIntBetween(lo, hi)`: one raw draw, mapped into [lo, hi]. */
    method RandomIntBetween(lo: int, hi: int) returns (r: int)
      requires lo <= hi
      modifies this`cursor
      ensures lo <= r <= hi
      ensures r == Random.IntBetween(lo, hi, Random.At(source, old(cursor)))
      ensures cursor == old(cursor) + 1
    {
      r := Random.IntBetween(lo, hi, Random.At(source, cursor));
      cursor := cursor + 1;
    }

    /** `randomPoint()`: x, then y. */
    method RandomPoint() returns (p: Point)
      modifies this`cursor
      ensures p == PointAt(old(cursor))
      ensures cursor == old(cursor) + 2
    {
      var x := RandomFloat();
      var y := RandomFloat();
      p := Point(x, y);
    }

    /** `randomColour()`: red, green, blue, each two lower-case hex digits. */
    method RandomColour() returns (c: string)
      modifies this`cursor
      ensures c == ColourAt(source, old(cursor))
      ensures cursor == old(cursor) + 3
    {
      var r := RandomIntBetween(0, 255);
      var g := RandomIntBetween(0, 255);
      var b := RandomIntBetween(0, 255);
      c := "#" + Random.ZeroPad(ToHex(r), 2) + Random.ZeroPad(ToHex(g), 2) + Random.ZeroPad(ToHex(b), 2);
      HexBytePadded(r);
      HexBytePadded(g);
      HexBytePadded(b);
      ColourAtChannels(source, old(cursor));
    }

    /**
     * `makeCurvePath()`: a start point, three cubic points, a stroke colour that
     * is never used, then two fresh points per pass of `i = 2; i < curvePoints`.
     */
    method MakeCurvePath() returns (str: seq<Tok>)
      modifies this`cursor
      ensures str == CurveText(old(cursor), LoopBound(Get(params.entries, CurvePoints)))
      ensures cursor == old(cursor) + CurveDraws(LoopBound(Get(params.entries, CurvePoints)))
    {
      var k, n := cursor, LoopBound(Get(params.entries, CurvePoints));
      var startPoint := RandomPoint();
      var p0 := RandomPoint();
      var p1 := RandomPoint();
      var p2 := RandomPoint();
      var bezierPoints := [p0, p1, p2];
      str := SegmentText(MoveTo(startPoint))
        + SegmentText(CurveTo(bezierPoints[0], bezierPoints[1], bezierPoints[2]));
      var strokeColour := RandomColour();
      str := AddSmoothSegments(k, str, bezierPoints);
    }

    /**
     * The loop of `makeCurvePath()`: for i = 2 while i < curvePoints, two fresh
     * points replace the first two of `bezierPoints` and an `S` command to them
     * is appended.
     */
    method AddSmoothSegments(ghost k: nat, head: seq<Tok>, points: seq<Point>) returns (str: seq<Tok>)
      requires head == CurveText(k, 2) && cursor == k + 11 && |points| == 3
      modifies this`cursor
      ensures str == CurveText(k, LoopBound(Get(params.entries, CurvePoints)))
      ensures cursor == k + CurveDraws(LoopBound(Get(params.entries, CurvePoints)))
    {
      var n := LoopBound(Get(params.entries, CurvePoints));
      var bezierPoints := points;
      str := head;
      var i := 2;
      while i < n
        invariant 2 <= i && (i == 2 || i <= n) && |bezierPoints| == 3
        invariant cursor == k + 11 + 4 * (i - 2)
        invariant str == CurveText(k, i)
      {
        var q0 := RandomPoint();
        var q1 := RandomPoint();
        bezierPoints := bezierPoints[0 := q0][1 := q1];
        str := str + SegmentText(SmoothTo(bezierPoints[0], bezierPoints[1]));
        CurveTextStep(k, i);
        i := i + 1;
      }
      if n <= 2 {
        assert CurveText(k, n) == CurveText(k, 2);
      }
    }

    /**
     * `createCurve()`: the stroke colour is drawn first, the fill decided from
     * `doFill`, then the path is made.
     */
    method CreateCurve() returns (c: Curve)
      modifies this`cursor
      ensures c == CurveAt(source, old(cursor), LoopBound(Get(params.entries, CurvePoints)), Truthy(Get(params.entries, DoFill)))
      ensures cursor == old(cursor) + CurveCost(LoopBound(Get(params.entries, CurvePoints)))
    {
      var strokeColour := RandomColour();
      var fillColour;
      if Truthy(Get(params.entries, DoFill)) {
        fillColour := ContrastingColour(strokeColour);
      } else {
        fillColour := NoFill;
      }
      var path := MakeCurvePath();
      c := Curve(path, strokeColour, "1%", fillColour);
    }

    /**
     * `init()`: sets the animation time and draws the three counts, clears the
     * surface, builds a group of `lineCount` curves, and adds two placements
     * (plain and mirrored) for each step of `i < radialRepetitionCount * 2`.
     */
    method Init()
      requires BoundsReady(params.entries)
      modifies this, params
      ensures params.entries == Merge(old(params.entries), InitUpdate(old(params.entries), source, old(cursor)))
      ensures var p := params.entries;
        && surface == Scene(p[RadialRepetitionCount].i)
        && group == Some(GroupOf(source, old(cursor) + 3, Passes(0, p[LineCount].i),
                                 p[CurvePoints].i, Truthy(Get(p, DoFill))))
        && cursor == CurveStart(old(cursor) + 3, Passes(0, p[LineCount].i), p[CurvePoints].i)
      ensures animating == old(animating)
    {
      DrawCounts();
      surface := [];
      BuildGroup();
      PlaceCopies();
    }

    /** The merge at the head of `init()`: the animation time, then the three counts in order. */
    method DrawCounts()
      requires BoundsReady(params.entries)
      modifies params, this`cursor
      ensures params.entries == Merge(old(params.entries), InitUpdate(old(params.entries), source, old(cursor)))
      ensures cursor == old(cursor) + 3
    {
      var k, before := cursor, params.entries;
      var curvePoints := RandomIntBetween(before[CurvePointsMin].i, before[CurvePointsMax].i);
      var reps := RandomIntBetween(before[RadialRepetitionsMin].i, before[RadialRepetitionsMax].i);
      var lineCount := RandomIntBetween(before[LineCountMin].i, before[LineCountMax].i);
      params.entries := Merge(params.entries, map[
        AnimationTime := Int(10000),
        CurvePoints := Int(curvePoints),
        RadialRepetitionCount := Int(reps),
        LineCount := Int(lineCount)]);
    }

    /** The first loop of `init()`: a fresh group, then `createCurve()` while `i < lineCount`. */
    method BuildGroup()
      modifies this`cursor, this`group
      ensures var p := params.entries;
        && group == Some(GroupOf(source, old(cursor), Passes(0, LoopBound(Get(p, LineCount))),
                                 LoopBound(Get(p, CurvePoints)), Truthy(Get(p, DoFill))))
        && cursor == CurveStart(old(cursor), Passes(0, LoopBound(Get(p, LineCount))), LoopBound(Get(p, CurvePoints)))
    {
      var k, m := cursor, Passes(0, LoopBound(Get(params.entries, LineCount)));
      var n, doFill := LoopBound(Get(params.entries, CurvePoints)), Truthy(Get(params.entries, DoFill));
      var curves := [];
      var i := 0;
      while i < m
        invariant i <= m
        invariant cursor == CurveStart(k, i, n)
        invariant curves == GroupOf(source, k, i, n, doFill)
      {
        var c := CreateCurve();
        curves := curves + [c];
        CurveStartNext(k, i, n);
        i := i + 1;
      }
      group := Some(curves);
    }

    /** The second loop of `init()`: a plain and a mirrored `use` per pass of `i < reps * 2`. */
    method PlaceCopies()
      modifies this`surface
      ensures surface == old(surface) + Scene(LoopBound(Get(params.entries, RadialRepetitionCount)))
    {
      var reps := LoopBound(Get(params.entries, RadialRepetitionCount));
      var i := 0;
      while i < reps * 2
        invariant 0 <= i && (i == 0 || i <= reps * 2)
        invariant surface == old(surface) + SceneUpTo(reps, i)
      {
        surface := surface + [Use(false, Angle(i, reps)), Use(true, Angle(i, reps))];
        i := i + 1;
      }
      assert i == Passes(0, 2 * reps);
    }

    /**
     * The `animate` request `doAnimation()` sends to `group[child]`: a new path,
     * then a new stroke, the animation time, and the callback for child 0 only.
     */
    method AnimateRequest(child: nat) returns (r: Request)
      modifies this`cursor
      ensures r == RequestFrom(source, old(cursor), child, LoopBound(Get(params.entries, CurvePoints)),
                               Get(params.entries, AnimationTime))
      ensures cursor == old(cursor) + CurveCost(LoopBound(Get(params.entries, CurvePoints)))
    {
      var d := MakeCurvePath();
      var stroke := RandomColour();
      r := Request(child, d, stroke, Get(params.entries, AnimationTime), child == 0);
    }

    /** `isAnimating()`. */
    predicate IsAnimating()
      reads this
    {
      animating
    }

    /**
     * `doAnimation()`: nothing when the flag is off; otherwise a request for
     * child 0 (path first, then stroke) carrying the callback, then one for each
     * further child. Child 0 is read before anything is drawn, so a missing or
     * empty group throws at once.
     */
    method DoAnimation() returns (outcome: Outcome, reqs: seq<Request>)
      modifies this`cursor
      ensures Step(outcome, reqs, cursor) == AnimationRound(animating, group, params.entries, source, old(cursor))
    {
      if !animating {
        return Returned, [];
      }
      if group.None? || |group.value| == 0 {
        return TypeError, [];
      }
      reqs := AnimateChildren(|group.value|);
      outcome := Returned;
    }

    /** The requests of one round: child 0, then children 1 .. m - 1, each to a fresh path and stroke. */
    method AnimateChildren(m: nat) returns (reqs: seq<Request>)
      modifies this`cursor
      ensures var n := LoopBound(Get(params.entries, CurvePoints));
        && reqs == Round(source, old(cursor), m, n, Get(params.entries, AnimationTime))
        && cursor == CurveStart(old(cursor), m, n)
    {
      var k, n, duration := cursor, LoopBound(Get(params.entries, CurvePoints)), Get(params.entries, AnimationTime);
      reqs := [];
      var i := 0;
      while i < m
        invariant i <= m
        invariant cursor == CurveStart(k, i, n)
        invariant reqs == Round(source, k, i, n, duration)
      {
        var r := AnimateRequest(i);
        reqs := reqs + [r];
        CurveStartNext(k, i, n);
        i := i + 1;
      }
    }

    /** `startAnimation()`: sets the flag and runs a round, whether or not one was already running. */
    method StartAnimation() returns (outcome: Outcome, reqs: seq<Request>)
      modifies this`animating, this`cursor
      ensures animating
      ensures Step(outcome, reqs, cursor) == AnimationRound(true, group, params.entries, source, old(cursor))
    {
      animating := true;
      outcome, reqs := DoAnimation();
    }

    /** `stopAnimation()`: clears the flag; the round it runs issues nothing and draws nothing. */
    method StopAnimation() returns (outcome: Outcome, reqs: seq<Request>)
      modifies this`animating, this`cursor
      ensures !animating
      ensures outcome == Returned && reqs == [] && cursor == old(cursor)
    {
      animating := false;
      outcome, reqs := DoAnimation();
    }

    /** `toggleAnimation()`: flips the flag and runs a round. */
    method ToggleAnimation() returns (outcome: Outcome, reqs: seq<Request>)
      modifies this`animating, this`cursor
      ensures animating == !old(animating)
      ensures Step(outcome, reqs, cursor) == AnimationRound(!old(animating), group, params.entries, source, old(cursor))
    {
      animating := !animating;
      outcome, reqs := DoAnimation();
    }
  }

  /** Toggling twice restores the flag, and only the flag and the draw position change. */
  method ToggleTwice(m: Mandala)
    modifies m
    ensures m.IsAnimating() == old(m.IsAnimating())
    ensures m.group == old(m.group) && m.surface == old(m.surface)
  {
    var o1, r1 := m.ToggleAnimation();
    var o2, r2 := m.ToggleAnimation();
  }

  /** `param` on one generator changes what every generator sharing the prototype reads. */
  method ParamIsShared(a: Mandala, b: Mandala, update: Params)
    requires a.params == b.params
    modifies a.params
    ensures b.params.entries == Merge(old(b.params.entries), update)
  {
    a.Param(update);
  }
}
