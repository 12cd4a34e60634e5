/**
 * The eye-testing page: a menu, a tracking phase that samples the distance
 * between the pointer and a moving dot, a fixation phase that collects
 * response times, and a result screen computed from both lists.
 */
module EyeTestPage {
  import opened Options
  import opened JsNumbers

  datatype Phase = Menu | Tracking | Fixation | Result

  /** The phase the page's buttons and timers lead to from each phase. */
  function NextPhase(p: Phase): Phase {
    match p
    case Menu => Tracking
    case Tracking => Fixation
    case Fixation => Result
    case Result => Menu
  }

  /** A step of the page either keeps the phase or moves it one step around the cycle. */
  predicate PhaseStep(before: Phase, after: Phase) {
    after == before || after == NextPhase(before)
  }

  const NormalSummary := "✅ Normal eye coordination."
  const WarningSummary := "⚠️ Possible focus or tracking issue. Recommend further eye evaluation."

  datatype EyeResult = EyeResult(trackingAccuracy: int, fixationSpeed: real, summary: string)

  /** `computeResults`: the mean pointer distance and the mean fixation time, and what they give. */
  function ComputeResults(mouseDist: seq<real>, fixationTimes: seq<real>): (r: EyeResult)
    ensures r.fixationSpeed == Mean(fixationTimes)
    ensures r.summary == WarningSummary || r.summary == NormalSummary
    ensures r.summary == WarningSummary <==> Mean(mouseDist) > 150.0 || Mean(fixationTimes) > 1200.0
  {
    var avgDist := Mean(mouseDist);
    var avgFix := Mean(fixationTimes);
    var summary := if avgDist > 150.0 || avgFix > 1200.0 then WarningSummary else NormalSummary;
    EyeResult(Round(100.0 - avgDist / 10.0), avgFix, summary)
  }

  /** The tracking score of a mean pointer distance. */
  lemma TrackingAccuracyOfDistance(mouseDist: seq<real>, fixationTimes: seq<real>)
    ensures ComputeResults(mouseDist, fixationTimes).trackingAccuracy == Round(100.0 - Mean(mouseDist) / 10.0)
    ensures mouseDist == [] ==> ComputeResults(mouseDist, fixationTimes).trackingAccuracy == 100
  {
    if mouseDist == [] {
      RoundWhole(100);
    }
  }

  /** A larger mean pointer distance never earns a higher tracking score. */
  lemma TrackingAccuracyAntitone(d1: seq<real>, d2: seq<real>, f: seq<real>)
    requires Mean(d1) <= Mean(d2)
    ensures ComputeResults(d2, f).trackingAccuracy <= ComputeResults(d1, f).trackingAccuracy
  {
    RoundMonotone(100.0 - Mean(d2) / 10.0, 100.0 - Mean(d1) / 10.0);
  }

  /** When every distance sample is within `d` pixels of the dot, the score is at least
      `100 - d / 10`, rounded. */
  lemma TrackingAccuracyBound(mouseDist: seq<real>, f: seq<real>, d: real)
    requires |mouseDist| > 0
    requires forall i :: 0 <= i < |mouseDist| ==> 0.0 <= mouseDist[i] <= d
    ensures ComputeResults(mouseDist, f).trackingAccuracy >= Round(100.0 - d / 10.0)
  {
    MeanWithin(mouseDist, 0.0, d);
    RoundMonotone(100.0 - d / 10.0, 100.0 - Mean(mouseDist) / 10.0);
  }

  /** What the 1200 ms timeout of a fixation round leaves of the fixation times when the
      `target` it reads is `seen`: the elapsed time is appended only when that is set. */
  function AfterRoundTimeout(seen: Option<string>, times: seq<real>, elapsed: real): seq<real> {
    if seen.Some? then times + [elapsed] else times
  }

  /** The user's actions during the fixation phase: the "Start Fixation Test" button (with
      the letter the round draws and the time its timeout measures), the letter button,
      and a pointer move. */
  datatype FixationEvent = PressStart(letter: string, elapsed: real) | PressLetter | Move(dist: real)

  /** The page state. */
  class EyeTestSession {
    var phase: Phase
    var mouseDist: seq<real>
    var fixationTimes: seq<real>
    var target: Option<string>
    var results: Option<EyeResult>

    /** Samples are only taken in their own phase, and the result screen shows the
        results of the lists as they are. */
    ghost predicate Valid()
      reads this
    {
      && (phase == Menu ==> mouseDist == [] && fixationTimes == [])
      && (phase == Tracking ==> fixationTimes == [])
      && (phase == Result ==> results == Some(ComputeResults(mouseDist, fixationTimes)))
    }

    constructor ()
      ensures Valid()
      ensures phase == Menu && mouseDist == [] && fixationTimes == [] && target == None && results == None
    {
      phase := Menu;
      mouseDist := [];
      fixationTimes := [];
      target := None;
      results := None;
    }

    /** `handleMouseMove`: `dist` is the pointer's distance to the dot. */
    method HandleMouseMove(dist: real)
      requires Valid()
      modifies this
      ensures Valid()
      ensures mouseDist == if old(phase) == Tracking then old(mouseDist) + [dist] else old(mouseDist)
      ensures phase == old(phase) && fixationTimes == old(fixationTimes) && results == old(results)
      ensures target == old(target)
    {
      if phase == Tracking {
        mouseDist := mouseDist + [dist];
      }
    }

    /** The "Start Test" button of the menu. */
    method StartTest()
      requires Valid() && phase == Menu
      modifies this
      ensures Valid() && PhaseStep(old(phase), phase)
      ensures phase == Tracking
      ensures mouseDist == old(mouseDist) && fixationTimes == old(fixationTimes) && results == old(results)
      ensures target == old(target)
    {
      phase := Tracking;
    }

    /** The "Continue" button of the tracking phase. */
    method Continue()
      requires Valid() && phase == Tracking
      modifies this
      ensures Valid() && PhaseStep(old(phase), phase)
      ensures phase == Fixation
      ensures mouseDist == old(mouseDist) && fixationTimes == old(fixationTimes) && results == old(results)
      ensures target == old(target)
    {
      phase := Fixation;
    }

    /** The "Start Fixation Test" button as written. The round shows `letter` at once; its
        1200 ms timeout then tests the `target` of the render whose button was pressed. That
        button is shown only while `target` is null, so the timeout never records a time,
        never clears the letter and never schedules the next round. */
    method StartFixationAsWritten(letter: string, elapsed: real)
      requires Valid() && phase == Fixation && target.None?
      modifies this
      ensures Valid()
      ensures target == Some(letter)
      ensures phase == Fixation && fixationTimes == old(fixationTimes)
      ensures mouseDist == old(mouseDist) && results == old(results)
    {
      var seen := target;
      target := Some(letter);
      fixationTimes := AfterRoundTimeout(seen, fixationTimes, elapsed);
      target := if seen.Some? then None else target;
    }

    /** The letter button, shown while a letter is set: it clears the letter. */
    method PressLetter()
      requires Valid() && phase == Fixation && target.Some?
      modifies this
      ensures Valid()
      ensures target == None
      ensures phase == old(phase) && fixationTimes == old(fixationTimes)
      ensures mouseDist == old(mouseDist) && results == old(results)
    {
      target := None;
    }

    /** Any sequence of actions in the fixation phase of the page as written: each button
        is pressed only while it is shown. The phase is never left and no fixation time
        is ever recorded, so the result screen is unreachable. */
    method FixationAsWritten(events: seq<FixationEvent>)
      requires Valid() && phase == Fixation
      modifies this
      ensures Valid()
      ensures phase == Fixation && fixationTimes == old(fixationTimes)
      ensures mouseDist == old(mouseDist) && results == old(results)
    {
      var i := 0;
      while i < |events|
        invariant 0 <= i <= |events|
        invariant Valid() && phase == Fixation && fixationTimes == old(fixationTimes)
        invariant mouseDist == old(mouseDist) && results == old(results)
      {
        match events[i] {
          case PressStart(letter, elapsed) =>
            if target.None? {
              StartFixationAsWritten(letter, elapsed);
            }
          case PressLetter =>
            if target.Some? {
              PressLetter();
            }
          case Move(dist) =>
            HandleMouseMove(dist);
        }
        i := i + 1;
      }
    }

    /** One fixation round as intended: its timeout reads the letter it has just shown,
        records the response time `ms` and clears the letter. */
    method RecordFixation(ms: real)
      requires Valid() && phase == Fixation
      modifies this
      ensures Valid()
      ensures fixationTimes == old(fixationTimes) + [ms] && target == None
      ensures phase == old(phase) && mouseDist == old(mouseDist) && results == old(results)
    {
      fixationTimes := fixationTimes + [ms];
      target := None;
    }

    /** The fixation test as intended: five rounds, each recording its response time,
        and then the result screen for the lists as they stand. */
    method FixationIntended(times: seq<real>)
      requires Valid() && phase == Fixation && |times| == 5
      modifies this
      ensures Valid()
      ensures phase == Result && fixationTimes == old(fixationTimes) + times
      ensures results == Some(ComputeResults(old(mouseDist), old(fixationTimes) + times))
      ensures mouseDist == old(mouseDist)
    {
      var i := 0;
      while i < |times|
        invariant 0 <= i <= |times|
        invariant Valid() && phase == Fixation && fixationTimes == old(fixationTimes) + times[..i]
        invariant mouseDist == old(mouseDist)
      {
        RecordFixation(times[i]);
        assert times[..i + 1] == times[..i] + [times[i]];
        i := i + 1;
      }
      assert times[..i] == times;
      ShowResults();
    }

    /** The end of the fixation rounds: the page enters the result phase, and the effect
        that watches the phase computes the results. */
    method ShowResults()
      requires Valid() && phase == Fixation
      modifies this
      ensures Valid() && PhaseStep(old(phase), phase)
      ensures phase == Result
      ensures results == Some(ComputeResults(mouseDist, fixationTimes))
      ensures mouseDist == old(mouseDist) && fixationTimes == old(fixationTimes)
      ensures target == old(target)
    {
      phase := Result;
      results := Some(ComputeResults(mouseDist, fixationTimes));
    }

    /** The "Restart" button: back to the menu with both lists emptied; the old
        results object is left in place. */
    method Restart()
      requires Valid() && phase == Result
      modifies this
      ensures Valid() && PhaseStep(old(phase), phase)
      ensures phase == Menu && mouseDist == [] && fixationTimes == []
      ensures results == old(results)
      ensures target == old(target)
    {
      phase := Menu;
      mouseDist := [];
      fixationTimes := [];
    }
  }
}
