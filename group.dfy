/**
 * The curves `createCurve` makes and the group of `lineCount` of them that
 * `init` builds: path text, stroke colour, stroke width and fill.
 */
module Group {
  import opened Wrappers
  import Random
  import opened Colour
  import opened CurvePath

  /** The fill attribute: 'none', or the contrasting colour of the stroke. */
  datatype Fill =
    | NoFill
      /** What `contrastingColour` computes from: the stroke's parsed channels. */
    | ContrastOf(channels: Channels)

  /** A path element with its `stroke`, `strokeWidth` and `fill` attributes. */
  datatype Curve = Curve(path: seq<Tok>, stroke: string, strokeWidth: string, fill: Fill)

  /** `contrastingColour(stroke)`, up to its hex-parse step. */
  function ContrastingColour(stroke: string): Fill
  {
    ContrastOf(ParseChannels(stroke))
  }

  /** Raw draws one `createCurve()` consumes: its stroke colour, then `makeCurvePath()`. */
  function CurveCost(n: int): nat
  {
    3 + CurveDraws(n)
  }

  /** Where the i-th of a run of curves drawn from position k begins: each starts where the one before ends. */
  function CurveStart(k: nat, i: nat, n: int): nat
    decreases i
  {
    if i == 0 then k else CurveStart(k, i - 1, n) + CurveCost(n)
  }

  /** The next block of draws begins where the previous one ends. */
  lemma CurveStartNext(k: nat, i: nat, n: int)
    ensures CurveStart(k, i + 1, n) == CurveStart(k, i, n) + CurveCost(n)
  {
  }

  /** `createCurve()` for `curvePoints` = n and the given `doFill`, drawing from position k. */
  function CurveAt(src: Random.Supply, k: nat, n: int, doFill: bool): Curve
  {
    var stroke := ColourAt(src, k);
    Curve(CurveText(k + 3, n), stroke, "1%",
      if doFill then ContrastingColour(stroke) else NoFill)
  }

  /**
   * The fill is 'none' exactly when `doFill` is false; otherwise it is computed
   * from the very channels the stroke colour was drawn with.
   */
  lemma FillFollowsDoFill(src: Random.Supply, k: nat, n: int, doFill: bool)
    ensures CurveAt(src, k, n, doFill).fill == NoFill <==> !doFill
    ensures doFill ==>
      CurveAt(src, k, n, doFill).fill
        == ContrastOf(Channels(Some(Channel(Random.At(src, k))), Some(Channel(Random.At(src, k + 1))), Some(Channel(Random.At(src, k + 2)))))
  {
    ColourAtChannels(src, k);
    ChannelsRoundTrip(Channel(Random.At(src, k)), Channel(Random.At(src, k + 1)), Channel(Random.At(src, k + 2)));
  }

  /** The values f(0), ..., f(m - 1): what a counting loop appends, one per pass. */
  function Blocks<T>(f: nat -> T, m: nat): (s: seq<T>)
    ensures |s| == m
    decreases m
  {
    if m == 0 then [] else Blocks(f, m - 1) + [f(m - 1)]
  }

  /** Element i of such a run is f(i). */
  lemma {:induction false} BlockElement<T>(f: nat -> T, m: nat, i: nat)
    requires i < m
    ensures Blocks(f, m)[i] == f(i)
    decreases m
  {
    if i < m - 1 {
      BlockElement(f, m - 1, i);
    }
  }

  /**
   * The group of m curves the first loop of `init` adds: curve i is the one
   * `createCurve()` makes from the i-th block of draws after position k.
   */
  function GroupOf(src: Random.Supply, k: nat, m: nat, n: int, doFill: bool): (g: seq<Curve>)
    ensures |g| == m
    decreases m
  {
    if m == 0 then [] else GroupOf(src, k, m - 1, n, doFill) + [CurveAt(src, CurveStart(k, m - 1, n), n, doFill)]
  }

  /** The group is the run of curves i |-> the one drawn from the i-th block. */
  lemma {:induction false} GroupBlocks(src: Random.Supply, k: nat, m: nat, n: int, doFill: bool)
    ensures GroupOf(src, k, m, n, doFill) == Blocks(i => CurveAt(src, CurveStart(k, i, n), n, doFill), m)
    decreases m
  {
    if m > 0 {
      GroupBlocks(src, k, m - 1, n, doFill);
    }
  }

  /** Curve i of the group is the one drawn from the i-th block after position k. */
  lemma GroupElement(src: Random.Supply, k: nat, m: nat, n: int, doFill: bool, i: nat)
    requires i < m
    ensures |GroupOf(src, k, m, n, doFill)| == m
    ensures GroupOf(src, k, m, n, doFill)[i] == CurveAt(src, CurveStart(k, i, n), n, doFill)
  {
    GroupBlocks(src, k, m, n, doFill);
    BlockElement(i => CurveAt(src, CurveStart(k, i, n), n, doFill), m, i);
  }

  /** Every curve of the group is filled 'none' exactly when `doFill` is false. */
  lemma GroupFill(src: Random.Supply, k: nat, m: nat, n: int, doFill: bool)
    ensures forall i :: 0 <= i < m ==> (GroupOf(src, k, m, n, doFill)[i].fill == NoFill <==> !doFill)
  {
    forall i | 0 <= i < m
      ensures GroupOf(src, k, m, n, doFill)[i].fill == NoFill <==> !doFill
    {
      GroupElement(src, k, m, n, doFill, i);
      FillFollowsDoFill(src, CurveStart(k, i, n), n, doFill);
    }
  }

  /** A curve's path reads back as one `M`, one `C` and max(0, n - 2) `S` commands. */
  lemma CurvePathCommands(src: Random.Supply, k: nat, n: int, doFill: bool)
    ensures var p := ParsePath(CurveAt(src, k, n, doFill).path);
      && p.Some?
      && |p.value| == (if n > 2 then n else 2)
      && p.value[0].MoveTo? && p.value[1].CurveTo?
      && forall j :: 2 <= j < |p.value| ==> p.value[j].SmoothTo?
  {
    CurvePathShape(k + 3, n);
  }

  /** So does the path of every curve of the group. */
  lemma GroupPaths(src: Random.Supply, k: nat, m: nat, n: int, doFill: bool, i: nat)
    requires i < m
    ensures var p := ParsePath(GroupOf(src, k, m, n, doFill)[i].path);
      && p.Some?
      && |p.value| == (if n > 2 then n else 2)
      && p.value[0].MoveTo? && p.value[1].CurveTo?
      && forall j :: 2 <= j < |p.value| ==> p.value[j].SmoothTo?
  {
    GroupElement(src, k, m, n, doFill, i);
    CurvePathCommands(src, CurveStart(k, i, n), n, doFill);
  }
}
