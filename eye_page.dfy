/**
 * The eye-movement assessment page: eight spaced targets placed by rejection
 * sampling, one click per target, and the mean reaction time.
 *
 * `Math.random` is replaced by a supplied sequence of draws, one pair in [0, 1)
 * per candidate; `Math.hypot(dx, dy) > 18` is compared as `dx² + dy² > 324`.
 */
module EyePage {
  import opened Options
  import opened JsNumbers

  const TotalTargets := 8
  /** The square of the minimum separation of 18 (percent of the assessment area). */
  const MinSeparationSquared := 324.0

  /** A target: position in percent of the area, and its index. */
  datatype Target = Target(x: real, y: real, id: nat)

  /** A pair of `Math.random()` results. */
  type Draw = (real, real)

  predicate IsDraw(d: Draw) {
    0.0 <= d.0 < 1.0 && 0.0 <= d.1 < 1.0
  }

  predicate AllDraws(draws: seq<Draw>) {
    forall k :: 0 <= k < |draws| ==> IsDraw(draws[k])
  }

  /** `Math.random() * 70 + 15`. */
  function Coordinate(u: real): real {
    u * 70.0 + 15.0
  }

  function SquaredDistance(x1: real, y1: real, x2: real, y2: real): real {
    (x1 - x2) * (x1 - x2) + (y1 - y2) * (y1 - y2)
  }

  /** `arr.every(t => Math.hypot(t.x - x, t.y - y) > 18)`. */
  predicate FarFromAll(arr: seq<Target>, x: real, y: real) {
    forall t :: t in arr ==> SquaredDistance(t.x, t.y, x, y) > MinSeparationSquared
  }

  predicate InBounds(t: Target) {
    15.0 <= t.x < 85.0 && 15.0 <= t.y < 85.0
  }

  /** What an accepted-target array always satisfies: at most eight targets, each inside
      the inset square, ids equal to positions, and every pair more than 18 apart. */
  predicate ValidLayout(ts: seq<Target>) {
    && |ts| <= TotalTargets
    && (forall i :: 0 <= i < |ts| ==> InBounds(ts[i]) && ts[i].id == i)
    && (forall i, j :: 0 <= i < j < |ts| ==>
          SquaredDistance(ts[i].x, ts[i].y, ts[j].x, ts[j].y) > MinSeparationSquared)
  }

  /** One iteration of the loop: the candidate from draw `d` is pushed if it is far from
      every accepted target, and otherwise dropped. */
  function Consider(arr: seq<Target>, d: Draw): seq<Target> {
    var x, y := Coordinate(d.0), Coordinate(d.1);
    if FarFromAll(arr, x, y) then arr + [Target(x, y, |arr|)] else arr
  }

  /** An iteration keeps the layout valid, and it either leaves the array as it was or
      appends exactly one target. */
  lemma ConsiderKeepsLayout(arr: seq<Target>, d: Draw)
    requires ValidLayout(arr) && |arr| < TotalTargets && IsDraw(d)
    ensures ValidLayout(Consider(arr, d))
    ensures Consider(arr, d) == arr || (|Consider(arr, d)| == |arr| + 1 && Consider(arr, d)[..|arr|] == arr)
  {
    var x, y := Coordinate(d.0), Coordinate(d.1);
    if FarFromAll(arr, x, y) {
      var r := arr + [Target(x, y, |arr|)];
      forall i, j | 0 <= i < j < |r|
        ensures SquaredDistance(r[i].x, r[i].y, r[j].x, r[j].y) > MinSeparationSquared
      {
        if j == |arr| {
          assert r[i] in arr;
        }
      }
    }
  }

  /** The loop run on a sequence of draws, from an array of accepted targets: `None` when
      the draws run out before eight targets are accepted. */
  function Sample(arr: seq<Target>, draws: seq<Draw>): Option<seq<Target>>
    decreases |draws|
  {
    if |arr| >= TotalTargets then Some(arr)
    else if draws == [] then None
    else Sample(Consider(arr, draws[0]), draws[1..])
  }

  /** Whatever the loop returns has eight targets in a valid layout, and keeps the
      targets it started from. */
  lemma {:induction false} SampleValid(arr: seq<Target>, draws: seq<Draw>)
    requires ValidLayout(arr) && AllDraws(draws)
    ensures Sample(arr, draws).Some? ==>
      var ts := Sample(arr, draws).value;
      |ts| == TotalTargets && ValidLayout(ts) && arr <= ts
    decreases |draws|
  {
    if |arr| < TotalTargets && draws != [] {
      ConsiderKeepsLayout(arr, draws[0]);
      assert AllDraws(draws[1..]) by {
        forall k | 0 <= k < |draws[1..]| ensures IsDraw(draws[1..][k]) {
          assert draws[1..][k] == draws[k + 1];
        }
      }
      SampleValid(Consider(arr, draws[0]), draws[1..]);
    }
  }

  /** `generateTargets`: draws candidates until eight are accepted; `None` when the
      supplied draws run out first. */
  method GenerateTargets(draws: seq<Draw>) returns (r: Option<seq<Target>>)
    requires AllDraws(draws)
    ensures r == Sample([], draws)
    ensures r.Some? ==> |r.value| == TotalTargets && ValidLayout(r.value)
  {
    var arr: seq<Target> := [];
    var i := 0;
    while |arr| < TotalTargets
      invariant 0 <= i <= |draws|
      invariant ValidLayout(arr)
      invariant Sample(arr, draws[i..]) == Sample([], draws)
      decreases |draws| - i
    {
      if i == |draws| {
        return None;
      }
      var x := Coordinate(draws[i].0);
      var y := Coordinate(draws[i].1);
      assert draws[i..][1..] == draws[i + 1..];
      ConsiderKeepsLayout(arr, draws[i]);
      if forall t :: t in arr ==> SquaredDistance(t.x, t.y, x, y) > MinSeparationSquared {
        arr := arr + [Target(x, y, |arr|)];
      }
      i := i + 1;
    }
    r := Some(arr);
    SampleValid([], draws);
  }

  /** `averageReaction`: the sum divided by `reactionTimes.length || 1`. */
  function AverageReaction(reactionTimes: seq<real>): real {
    Sum(reactionTimes) / (if |reactionTimes| == 0 then 1 else |reactionTimes|) as real
  }

  /** The `|| 1` divisor makes the average the mean, and 0 before any click. */
  lemma AverageReactionIsMean(reactionTimes: seq<real>)
    ensures AverageReaction(reactionTimes) == Mean(reactionTimes)
    ensures reactionTimes == [] ==> AverageReaction(reactionTimes) == 0.0
  {
  }

  /** The assessment state. */
  class EyeAssessment {
    var targets: seq<Target>
    var currentIndex: nat
    var started: bool
    var completed: bool
    var reactionTimes: seq<real>

    /** Before the first start nothing is recorded; while running, one reaction time has
        been recorded per target already clicked; once completed, all eight are. */
    ghost predicate Valid()
      reads this
    {
      && (targets == [] || (|targets| == TotalTargets && ValidLayout(targets)))
      && !(started && completed)
      && (started ==> |targets| == TotalTargets && currentIndex < TotalTargets && |reactionTimes| == currentIndex)
      && (completed ==> |targets| == TotalTargets && currentIndex == TotalTargets - 1 && |reactionTimes| == TotalTargets)
      && (!started && !completed ==> currentIndex == 0 && reactionTimes == [])
    }

    constructor ()
      ensures Valid()
      ensures targets == [] && currentIndex == 0 && !started && !completed && reactionTimes == []
    {
      targets := [];
      currentIndex := 0;
      started := false;
      completed := false;
      reactionTimes := [];
    }

    /** "Begin Assessment" / "Re-run Assessment". `ok` is false when the supplied draws
        ran out before eight targets were placed, and then nothing changes. */
    method StartAssessment(draws: seq<Draw>) returns (ok: bool)
      requires Valid() && !started && AllDraws(draws)
      modifies this
      ensures Valid()
      ensures ok == Sample([], draws).Some?
      ensures ok ==> targets == Sample([], draws).value
      ensures ok ==> currentIndex == 0 && reactionTimes == [] && started && !completed
      ensures !ok ==> targets == old(targets) && currentIndex == old(currentIndex) && started == old(started)
                      && completed == old(completed) && reactionTimes == old(reactionTimes)
    {
      var generated := GenerateTargets(draws);
      if generated.None? {
        return false;
      }
      targets := generated.value;
      currentIndex := 0;
      reactionTimes := [];
      started := true;
      completed := false;
      ok := true;
    }

    /** A click on the current target, `reaction` seconds after it appeared. */
    method HandleTargetClick(reaction: real)
      requires Valid() && started
      modifies this
      ensures Valid()
      ensures reactionTimes == old(reactionTimes) + [reaction]
      ensures targets == old(targets)
      ensures old(currentIndex) + 1 == TotalTargets ==>
                completed && !started && currentIndex == old(currentIndex)
      ensures old(currentIndex) + 1 < TotalTargets ==>
                started && !completed && currentIndex == old(currentIndex) + 1
    {
      reactionTimes := reactionTimes + [reaction];
      if currentIndex + 1 == TotalTargets {
        completed := true;
        started := false;
      } else {
        currentIndex := currentIndex + 1;
      }
    }
  }
}
