/**
 * The path data `makeCurvePath` writes. Coordinates are opaque tokens (which raw
 * draw they came from), so the text is a sequence of literal pieces and number
 * tokens; `ParsePath` reads such a text back into move / cubic / smooth segments.
 */
module CurvePath {
  import opened Wrappers
  import opened JsText

  /**
   * A float of [0, 1) from `randomFloatBetween(0, 1)`. Its value is never
   * inspected, so it is known only by the position of the draw it came from.
   */
  datatype Coord = Coord(draw: nat)

  /** `randomPoint()`: two coordinates. */
  datatype Point = Point(x: Coord, y: Coord)

  /** `randomPoint()` drawing at positions k and k + 1. */
  function PointAt(k: nat): Point
  {
    Point(Coord(k), Coord(k + 1))
  }

  /** An `M` command (1 point), a `C` command (3 points) or an `S` command (2 points). */
  datatype Segment =
    | MoveTo(p: Point)
    | CurveTo(c1: Point, c2: Point, end: Point)
    | SmoothTo(c2: Point, end: Point)

  /** The fixed separators `makeCurvePath` writes between coordinates. */
  datatype Sep = MoveCmd | CurveCmd | SmoothCmd | Comma

  /** The characters of each separator. */
  function SepText(s: Sep): string
  {
    match s
    case MoveCmd => "M "
    case CurveCmd => " C "
    case SmoothCmd => " S "
    case Comma => ", "
  }

  /**
   * A piece of path text: a separator, or a printed point, which is its x
   * coordinate, a space and its y coordinate.
   */
  datatype Tok = Lit(sep: Sep) | Num(value: Point)

  /** The text one command contributes, separators as `makeCurvePath` writes them. */
  function SegmentText(seg: Segment): (t: seq<Tok>)
  {
    match seg
    case MoveTo(p) => [Lit(MoveCmd), Num(p)]
    case CurveTo(a, b, c) => [Lit(CurveCmd), Num(a), Lit(Comma), Num(b), Lit(Comma), Num(c)]
    case SmoothTo(a, b) => [Lit(SmoothCmd), Num(a), Lit(Comma), Num(b)]
  }

  function PathText(segs: seq<Segment>): seq<Tok>
  {
    if segs == [] then [] else SegmentText(segs[0]) + PathText(segs[1..])
  }

  /** Appending a command appends its text: what `str += …` relies on. */
  lemma {:induction false} PathTextAppend(segs: seq<Segment>, seg: Segment)
    ensures PathText(segs + [seg]) == PathText(segs) + SegmentText(seg)
  {
    if segs != [] {
      assert (segs + [seg])[1..] == segs[1..] + [seg];
      PathTextAppend(segs[1..], seg);
    }
  }

  /** Reads "x y" (number, single space, number) starting at position i. */
  function ReadPoint(t: seq<Tok>, i: nat): Option<Point>
  {
    if i < |t| && t[i].Num? then Some(t[i].value) else None
  }

  /** Reads one command at the front of t, with the number of pieces it used. */
  function ReadSegment(t: seq<Tok>): (r: Option<(Segment, nat)>)
    ensures r.Some? ==> 1 <= r.value.1 <= |t|
  {
    if |t| >= 2 && t[0] == Lit(MoveCmd) && ReadPoint(t, 1).Some? then
      Some((MoveTo(ReadPoint(t, 1).value), 2))
    else if |t| >= 6 && t[0] == Lit(CurveCmd)
      && ReadPoint(t, 1).Some? && t[2] == Lit(Comma)
      && ReadPoint(t, 3).Some? && t[4] == Lit(Comma)
      && ReadPoint(t, 5).Some? then
      Some((CurveTo(ReadPoint(t, 1).value, ReadPoint(t, 3).value, ReadPoint(t, 5).value), 6))
    else if |t| >= 4 && t[0] == Lit(SmoothCmd)
      && ReadPoint(t, 1).Some? && t[2] == Lit(Comma)
      && ReadPoint(t, 3).Some? then
      Some((SmoothTo(ReadPoint(t, 1).value, ReadPoint(t, 3).value), 4))
    else
      None
  }

  /** A reader for path text: the commands it holds, or `None` when it is not well formed. */
  function ParsePath(t: seq<Tok>): Option<seq<Segment>>
    decreases |t|
  {
    if t == [] then Some([])
    else
      match ReadSegment(t)
      case None => None
      case Some((seg, used)) =>
        match ParsePath(t[used..])
        case None => None
        case Some(rest) => Some([seg] + rest)
  }

  lemma ReadSegmentText(seg: Segment, rest: seq<Tok>)
    ensures ReadSegment(SegmentText(seg) + rest) == Some((seg, |SegmentText(seg)|))
  {
  }

  /** Reading back the text written for any list of commands gives that list. */
  lemma {:induction false} ParsePathText(segs: seq<Segment>)
    ensures ParsePath(PathText(segs)) == Some(segs)
  {
    if segs != [] {
      var t := PathText(segs);
      ReadSegmentText(segs[0], PathText(segs[1..]));
      assert t[|SegmentText(segs[0])|..] == PathText(segs[1..]);
      ParsePathText(segs[1..]);
      assert [segs[0]] + segs[1..] == segs;
    }
  }

  /** How many raw draws one `makeCurvePath()` consumes for `curvePoints` = n. */
  function CurveDraws(n: int): nat
  {
    11 + 4 * Passes(2, n)
  }

  /** The `S` command of the loop pass that draws from position k. */
  function SmoothAt(k: nat): Segment
  {
    SmoothTo(PointAt(k), PointAt(k + 2))
  }

  /**
   * The commands of `makeCurvePath()` for `curvePoints` = n, drawing from position k:
   * the start point (2 draws), three cubic points (6 draws), the unused stroke
   * colour (3 draws), then two points (4 draws) per pass of the loop.
   */
  function CurveSegments(k: nat, n: int): seq<Segment>
    decreases n
  {
    if n <= 2 then [MoveTo(PointAt(k)), CurveTo(PointAt(k + 2), PointAt(k + 4), PointAt(k + 6))]
    else CurveSegments(k, n - 1) + [SmoothAt(k + 11 + 4 * (n - 3))]
  }

  /**
   * One `M`, one `C`, then max(0, n - 2) `S` commands, each drawn 4 positions
   * after the one before, past the 3 draws of the unused colour.
   */
  lemma {:induction false} CurveSegmentsShape(k: nat, n: int)
    ensures var segs := CurveSegments(k, n);
      && |segs| == 2 + Passes(2, n)
      && segs[0] == MoveTo(PointAt(k))
      && segs[1] == CurveTo(PointAt(k + 2), PointAt(k + 4), PointAt(k + 6))
      && forall j :: 2 <= j < |segs| ==> segs[j] == SmoothAt(k + 11 + 4 * (j - 2))
    decreases n
  {
    if n > 2 {
      CurveSegmentsShape(k, n - 1);
    }
  }

  /**
   * The string `makeCurvePath()` returns, built as it builds it: the `M` and
   * `C` commands, then one `S` command appended per pass of the loop.
   */
  function CurveText(k: nat, n: int): seq<Tok>
    decreases n
  {
    if n <= 2 then
      SegmentText(MoveTo(PointAt(k)))
        + SegmentText(CurveTo(PointAt(k + 2), PointAt(k + 4), PointAt(k + 6)))
    else CurveText(k, n - 1) + SegmentText(SmoothAt(k + 11 + 4 * (n - 3)))
  }

  /** The characters a piece of path text contributes to its separators: none for a number. */
  function SepPart(t: Tok): string
  {
    match t
    case Lit(sep) => SepText(sep)
    case Num(_) => ""
  }

  /** The fixed characters of a path text: its separators, spelled out, without the printed numbers. */
  function Skeleton(t: seq<Tok>): string
  {
    if t == [] then "" else SepPart(t[0]) + Skeleton(t[1..])
  }

  /** Text written after other text keeps its separators after theirs. */
  lemma {:induction false} SkeletonAppend(a: seq<Tok>, b: seq<Tok>)
    ensures Skeleton(a + b) == Skeleton(a) + Skeleton(b)
  {
    if a == [] {
      assert a + b == b;
    } else {
      assert (a + b)[1..] == a[1..] + b;
      SkeletonAppend(a[1..], b);
    }
  }

  /** A separator then a number: the separator's characters. */
  lemma SepThenNum(sep: Sep, p: Point, rest: seq<Tok>)
    ensures Skeleton([Lit(sep), Num(p)] + rest) == SepText(sep) + Skeleton(rest)
  {
    var t := [Lit(sep), Num(p)] + rest;
    assert t[1..][1..] == rest;
  }

  /** The separators of each command as `makeCurvePath` writes them. */
  lemma SegmentSkeleton(seg: Segment)
    ensures Skeleton(SegmentText(seg)) == match seg
      case MoveTo(_) => "M "
      case CurveTo(_, _, _) => " C " + ", " + ", "
      case SmoothTo(_, _) => " S " + ", "
  {
    match seg
    case MoveTo(p) =>
      SepThenNum(MoveCmd, p, []);
      assert SegmentText(seg) == [Lit(MoveCmd), Num(p)] + [];
    case CurveTo(x, y, z) =>
      SepThenNum(Comma, z, []);
      SepThenNum(Comma, y, [Lit(Comma), Num(z)]);
      SepThenNum(CurveCmd, x, [Lit(Comma), Num(y), Lit(Comma), Num(z)]);
      assert SegmentText(seg) == [Lit(CurveCmd), Num(x)] + [Lit(Comma), Num(y)] + [Lit(Comma), Num(z)] + [];
    case SmoothTo(x, y) =>
      SepThenNum(Comma, y, []);
      SepThenNum(SmoothCmd, x, [Lit(Comma), Num(y)]);
      assert SegmentText(seg) == [Lit(SmoothCmd), Num(x)] + [Lit(Comma), Num(y)] + [];
  }

  /** m copies of s, one after another. */
  function Repeat(s: string, m: nat): (r: string)
    ensures |r| == m * |s|
  {
    if m == 0 then "" else Repeat(s, m - 1) + s
  }

  /**
   * Whatever the numbers, the separators of `makeCurvePath()`'s text read
   * "M ", " C ", ", ", ", ", then " S ", ", " once per pass of the loop.
   */
  lemma {:induction false} CurveSkeleton(k: nat, n: int)
    ensures Skeleton(CurveText(k, n)) == "M " + " C " + ", " + ", " + Repeat(" S " + ", ", Passes(2, n))
    decreases n
  {
    if n <= 2 {
      var m, c := MoveTo(PointAt(k)), CurveTo(PointAt(k + 2), PointAt(k + 4), PointAt(k + 6));
      SkeletonAppend(SegmentText(m), SegmentText(c));
      SegmentSkeleton(m);
      SegmentSkeleton(c);
    } else {
      var s := SmoothAt(k + 11 + 4 * (n - 3));
      CurveSkeleton(k, n - 1);
      SkeletonAppend(CurveText(k, n - 1), SegmentText(s));
      SegmentSkeleton(s);
      assert Passes(2, n) == Passes(2, n - 1) + 1;
    }
  }

  /** Each pass of the loop (the i-th, for i >= 2) appends the text of one `S` command. */
  lemma CurveTextStep(k: nat, i: int)
    requires i >= 2
    ensures CurveText(k, i + 1) == CurveText(k, i) + SegmentText(SmoothAt(k + 11 + 4 * (i - 2)))
  {
  }

  /** That string is the text of the commands `CurveSegments` lists. */
  lemma {:induction false} CurveTextSegments(k: nat, n: int)
    ensures CurveText(k, n) == PathText(CurveSegments(k, n))
    decreases n
  {
    if n <= 2 {
      var m, c := MoveTo(PointAt(k)), CurveTo(PointAt(k + 2), PointAt(k + 4), PointAt(k + 6));
      PathTextAppend([], m);
      assert [] + [m] == [m];
      PathTextAppend([m], c);
      assert [m] + [c] == CurveSegments(k, n);
    } else {
      CurveTextSegments(k, n - 1);
      PathTextAppend(CurveSegments(k, n - 1), SmoothAt(k + 11 + 4 * (n - 3)));
    }
  }

  /** The written path reads back as one `M`, one `C`, then max(0, n - 2) `S` commands. */
  lemma CurvePathShape(k: nat, n: int)
    ensures var p := ParsePath(CurveText(k, n));
      && p.Some?
      && |p.value| == (if n > 2 then n else 2)
      && p.value[0].MoveTo? && p.value[1].CurveTo?
      && forall j :: 2 <= j < |p.value| ==> p.value[j].SmoothTo?
  {
    CurveTextSegments(k, n);
    ParsePathText(CurveSegments(k, n));
    CurveSegmentsShape(k, n);
  }
}
