/**
 * What one `doAnimation()` issues: an `animate` request per child of the group,
 * each to a fresh path and stroke, and only the request for child 0 carrying
 * the callback that runs `doAnimation()` again.
 */
module Animation {
  import opened Wrappers
  import opened Colour
  import opened CurvePath
  import opened Params
  import opened Group

  /** `group[child].animate({d: path, stroke: stroke}, duration[, callback])`. */
  datatype Request = Request(child: nat, path: seq<Tok>, stroke: string, duration: Option<Value>, hasCallback: bool)

  /** How `doAnimation()` ended: normally, or with a TypeError because `group[0]` is undefined. */
  datatype Outcome = Returned | TypeError

  /** The outcome of `doAnimation()`, the requests it issued and the supply position after it. */
  datatype Step = Step(outcome: Outcome, requests: seq<Request>, next: nat)

  /** The request for child i when the supply is at position k: path first, then stroke. */
  function RequestFrom(src: Random.Supply, k: nat, i: nat, n: int, duration: Option<Value>): Request
  {
    Request(i, CurveText(k, n), ColourAt(src, k + CurveDraws(n)), duration, i == 0)
  }

  /** The first m requests of one round, drawing from position k. */
  function Round(src: Random.Supply, k: nat, m: nat, n: int, duration: Option<Value>): (r: seq<Request>)
    ensures |r| == m
    decreases m
  {
    if m == 0 then [] else Round(src, k, m - 1, n, duration) + [RequestFrom(src, CurveStart(k, m - 1, n), m - 1, n, duration)]
  }

  /** The round is the run of requests i |-> the one for child i from the i-th block. */
  lemma {:induction false} RoundBlocks(src: Random.Supply, k: nat, m: nat, n: int, duration: Option<Value>)
    ensures Round(src, k, m, n, duration) == Blocks(i => RequestFrom(src, CurveStart(k, i, n), i, n, duration), m)
    decreases m
  {
    if m > 0 {
      RoundBlocks(src, k, m - 1, n, duration);
    }
  }

  /** Request i of a round is for child i, to the path and stroke of the i-th block of draws. */
  lemma RoundElement(src: Random.Supply, k: nat, m: nat, n: int, duration: Option<Value>, i: nat)
    requires i < m
    ensures |Round(src, k, m, n, duration)| == m
    ensures Round(src, k, m, n, duration)[i] == RequestFrom(src, CurveStart(k, i, n), i, n, duration)
  {
    RoundBlocks(src, k, m, n, duration);
    BlockElement(i => RequestFrom(src, CurveStart(k, i, n), i, n, duration), m, i);
  }

  /** Each pass of the request loop appends the request for the next child. */
  lemma RoundNext(src: Random.Supply, k: nat, i: nat, n: int, duration: Option<Value>)
    ensures Round(src, k, i + 1, n, duration)
      == Round(src, k, i, n, duration) + [RequestFrom(src, CurveStart(k, i, n), i, n, duration)]
  {
  }

  /** The number of requests that re-trigger `doAnimation()`. */
  function Callbacks(reqs: seq<Request>): nat
  {
    if reqs == [] then 0 else Callbacks(reqs[..|reqs| - 1]) + (if reqs[|reqs| - 1].hasCallback then 1 else 0)
  }

  /** A round of requests each addressed to its own index, only the first carrying the callback. */
  predicate Scheduled(reqs: seq<Request>)
  {
    forall i :: 0 <= i < |reqs| ==> reqs[i].child == i && (reqs[i].hasCallback <==> i == 0)
  }

  /** Such a round schedules exactly one continuation when it is not empty. */
  lemma {:induction false} OneContinuation(reqs: seq<Request>)
    requires Scheduled(reqs)
    ensures Callbacks(reqs) == if reqs == [] then 0 else 1
  {
    if reqs != [] {
      OneContinuation(reqs[..|reqs| - 1]);
    }
  }

  /**
   * A round of m requests addresses children 0 .. m - 1 in order, and only the
   * request for child 0 carries the callback: a round of m > 0 requests
   * schedules exactly one continuation, so rounds never multiply.
   */
  lemma RoundSchedule(src: Random.Supply, k: nat, m: nat, n: int, duration: Option<Value>)
    ensures var r := Round(src, k, m, n, duration);
      && |r| == m
      && Scheduled(r)
      && Callbacks(r) == if m > 0 then 1 else 0
  {
    var r := Round(src, k, m, n, duration);
    assert Scheduled(r) by {
      forall i | 0 <= i < m
        ensures r[i].child == i && (r[i].hasCallback <==> i == 0)
      {
        RoundElement(src, k, m, n, duration, i);
      }
    }
    OneContinuation(r);
  }

  /**
   * `doAnimation()` with flag `animating`, the group `group` (`None` before the
   * first `init`), parameters p and the supply at position k.
   */
  function AnimationRound(animating: bool, group: Option<seq<Curve>>, p: Params, src: Random.Supply, k: nat): Step
  {
    if !animating then Step(Returned, [], k)
    else if group.None? || group.value == [] then Step(TypeError, [], k)
    else
      var m, n, duration := |group.value|, LoopBound(Get(p, CurvePoints)), Get(p, AnimationTime);
      Step(Returned, Round(src, k, m, n, duration), CurveStart(k, m, n))
  }

  /**
   * With the flag off nothing is issued; with it on and no child 0 the call
   * throws before drawing anything; otherwise one request per child, of which
   * only child 0's re-triggers the next round.
   */
  lemma AnimationRoundShape(animating: bool, group: Option<seq<Curve>>, p: Params, src: Random.Supply, k: nat)
    ensures var s := AnimationRound(animating, group, p, src, k);
      && (!animating ==> s == Step(Returned, [], k))
      && (animating && (group.None? || group.value == []) ==> s == Step(TypeError, [], k))
      && (animating && group.Some? && group.value != [] ==>
        && s.outcome == Returned
        && |s.requests| == |group.value|
        && (forall i :: 0 <= i < |s.requests| ==>
              s.requests[i].child == i && (s.requests[i].hasCallback <==> i == 0))
        && Callbacks(s.requests) == 1
        && s.next == CurveStart(k, |group.value|, LoopBound(Get(p, CurvePoints))))
  {
    if animating && group.Some? && group.value != [] {
      var m, n, duration := |group.value|, LoopBound(Get(p, CurvePoints)), Get(p, AnimationTime);
      var s := AnimationRound(animating, group, p, src, k);
      assert s.requests == Round(src, k, m, n, duration);
      RoundSchedule(src, k, m, n, duration);
    }
  }
}
