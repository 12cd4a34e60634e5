/**
 * The behavioural-feedback endpoint of the eye-movement assessment
 * (`POST /api/eye`): accuracy and mean reaction time from the session's
 * telemetry, then a five-rule, first-match-wins classification.
 */
module EyeFeedback {
  import opened Options
  import opened JsNumbers
  import opened Web

  /** The five feedback levels. */
  datatype Level = Excellent | Good | Impulsive | Poor | Mixed

  /** The `level` string of the response. */
  function LevelName(l: Level): string {
    match l
    case Excellent => "excellent"
    case Good => "good"
    case Impulsive => "impulsive"
    case Poor => "poor"
    case Mixed => "mixed"
  }

  /** The one feedback message that goes with each level. */
  function FeedbackText(l: Level): string {
    match l
    case Excellent => "⚡ Excellent focus, coordination, and reaction control!"
    case Good => "✅ Good focus and reaction speed. Slight distractibility observed."
    case Impulsive => "⚠️ Frequent clicks outside the target indicate impulsivity or low attention stability."
    case Poor => "😴 Slow reaction times and poor accuracy may indicate fatigue or low visual tracking ability."
    case Mixed => "🤔 Irregular performance pattern. Could reflect inconsistent attention or hesitation."
  }

  /** Percentage of hits among all attempts, rounded; 0 when there were no attempts. */
  function Accuracy(hits: int, misses: int): (r: int)
    ensures hits + misses <= 0 ==> r == 0
    ensures 0 <= hits && 0 <= misses && 0 < hits + misses ==> 0 <= r <= 100
  {
    var total := hits + misses;
    if total > 0 then
      var q := hits as real / total as real;
      assert 0 <= hits && 0 <= misses ==> q * total as real <= 1.0 * total as real;
      Round(q * 100.0)
    else 0
  }

  /** The condition of rule `k` of the chain, counted from 0; the last rule always holds. */
  predicate RuleHolds(k: nat, accuracy: int, avgTime: real, driftClicks: int) {
    match k
    case 0 => accuracy >= 90 && avgTime <= 3.0 && driftClicks < 3
    case 1 => accuracy >= 70 && avgTime <= 5.0
    case 2 => driftClicks > 5 && avgTime < 4.0
    case 3 => avgTime > 7.0 && accuracy < 60
    case _ => true
  }

  /** The level each rule assigns, in rule order. */
  const RuleLevels: seq<Level> := [Excellent, Good, Impulsive, Poor, Mixed]

  /** The first rule, from rule `from` on, whose condition holds. */
  function FirstMatch(from: nat, accuracy: int, avgTime: real, driftClicks: int): (k: nat)
    requires from < |RuleLevels|
    ensures from <= k < |RuleLevels| && RuleHolds(k, accuracy, avgTime, driftClicks)
    ensures forall j :: from <= j < k ==> !RuleHolds(j, accuracy, avgTime, driftClicks)
    decreases |RuleLevels| - from
  {
    if RuleHolds(from, accuracy, avgTime, driftClicks) then from
    else FirstMatch(from + 1, accuracy, avgTime, driftClicks)
  }

  /** The if / else-if chain choosing the level. */
  function Classify(accuracy: int, avgTime: real, driftClicks: int): Level {
    if accuracy >= 90 && avgTime <= 3.0 && driftClicks < 3 then Excellent
    else if accuracy >= 70 && avgTime <= 5.0 then Good
    else if driftClicks > 5 && avgTime < 4.0 then Impulsive
    else if avgTime > 7.0 && accuracy < 60 then Poor
    else Mixed
  }

  /** The chain applies exactly the level of the first rule whose condition holds. */
  lemma ClassifyIsFirstMatch(accuracy: int, avgTime: real, driftClicks: int)
    ensures Classify(accuracy, avgTime, driftClicks) == RuleLevels[FirstMatch(0, accuracy, avgTime, driftClicks)]
  {
    var k := FirstMatch(0, accuracy, avgTime, driftClicks);
    assert forall j :: 0 <= j < k ==> !RuleHolds(j, accuracy, avgTime, driftClicks);
    if k > 0 { assert !RuleHolds(0, accuracy, avgTime, driftClicks); }
    if k > 1 { assert !RuleHolds(1, accuracy, avgTime, driftClicks); }
    if k > 2 { assert !RuleHolds(2, accuracy, avgTime, driftClicks); }
    if k > 3 { assert !RuleHolds(3, accuracy, avgTime, driftClicks); }
  }

  /** Distinct levels have distinct names, so the `level` string of a response determines the level. */
  lemma LevelNamesDistinct(l1: Level, l2: Level)
    requires l1 != l2
    ensures LevelName(l1) != LevelName(l2)
  {
    assert LevelName(Excellent)[0] == 'e' && LevelName(Good)[0] == 'g';
    assert LevelName(Impulsive)[0] == 'i' && LevelName(Poor)[0] == 'p';
    assert LevelName(Mixed)[0] == 'm';
  }

  /** The request body `{ hits, misses, driftClicks, reactionTimes, score }`. */
  datatype Telemetry = Telemetry(hits: int, misses: int, driftClicks: int, reactionTimes: seq<real>, score: int)

  /** The success body: the computed fields and the echoed `driftClicks` and `score`. */
  function Report(t: Telemetry): (body: map<string, Json>)
    ensures body.Keys == {"averageTime", "accuracy", "feedback", "level", "driftClicks", "score"}
  {
    var accuracy := Accuracy(t.hits, t.misses);
    var avgTime := Mean(t.reactionTimes);
    var level := Classify(accuracy, avgTime, t.driftClicks);
    map[
      "averageTime" := JNum(avgTime),
      "accuracy" := JNum(accuracy as real),
      "feedback" := JStr(FeedbackText(level)),
      "level" := JStr(LevelName(level)),
      "driftClicks" := JNum(t.driftClicks as real),
      "score" := JNum(t.score as real)
    ]
  }

  /** The scores of the body are the accuracy and the mean reaction time. */
  lemma ReportScores(t: Telemetry)
    ensures Report(t)["accuracy"] == JNum(Accuracy(t.hits, t.misses) as real)
    ensures Report(t)["averageTime"] == JNum(Mean(t.reactionTimes))
  {
  }

  /** `driftClicks` and `score` are echoed unchanged. */
  lemma ReportEchoes(t: Telemetry)
    ensures Report(t)["driftClicks"] == JNum(t.driftClicks as real)
    ensures Report(t)["score"] == JNum(t.score as real)
  {
  }

  /** The level and the feedback of the body are the name and the message of one level,
      the one the rule chain picks. */
  lemma ReportLevel(t: Telemetry)
    ensures var l := Classify(Accuracy(t.hits, t.misses), Mean(t.reactionTimes), t.driftClicks);
      Report(t)["level"] == JStr(LevelName(l)) && Report(t)["feedback"] == JStr(FeedbackText(l))
  {
  }

  /** `POST /api/eye`; `None` is a body that could not be read, which answers 500. */
  function Post(body: Option<Telemetry>): (resp: Response)
    ensures body.None? ==> resp == Response(500, map["message" := JStr("Error generating behavioral feedback")])
    ensures body.Some? ==> resp == Response(200, Report(body.value))
  {
    match body
    case None => Response(500, map["message" := JStr("Error generating behavioral feedback")])
    case Some(t) => Response(200, Report(t))
  }

  /** Nine hits and one miss score 90; a session without attempts scores 0. */
  lemma AccuracyExamples()
    ensures Accuracy(9, 1) == 90
    ensures Accuracy(0, 0) == 0
  {
  }

  /** Rule order decides overlaps: this sample meets rule 2 and rule 3 and gets rule 2's level. */
  lemma GoodBeforeImpulsive()
    ensures RuleHolds(1, 80, 3.5, 6) && RuleHolds(2, 80, 3.5, 6)
    ensures Classify(80, 3.5, 6) == Good
    ensures Classify(80, 4.0, 6) == Good
  {
  }

  /** The boundaries of rule 1 are inclusive for accuracy and time and strict for drift clicks. */
  lemma ExcellentBoundary()
    ensures Classify(90, 3.0, 2) == Excellent
    ensures Classify(90, 3.0, 3) == Good
  {
  }

  /** The end-to-end sample: 8 hits, 2 misses and reaction times 2, 2.5 and 3 seconds. */
  lemma SampleSession()
    ensures var resp := Post(Some(Telemetry(8, 2, 1, [2.0, 2.5, 3.0], 80)));
      && resp.body["accuracy"] == JNum(80.0)
      && resp.body["averageTime"] == JNum(2.5)
      && resp.body["level"] == JStr("good")
  {
    var t := Telemetry(8, 2, 1, [2.0, 2.5, 3.0], 80);
    SampleScores();
    ReportScores(t);
    ReportLevel(t);
  }

  /** The scores of the sample session, before the body is built. */
  lemma SampleScores()
    ensures Accuracy(8, 2) == 80
    ensures Mean([2.0, 2.5, 3.0]) == 2.5
    ensures Classify(80, 2.5, 1) == Good
  {
    var rt := [2.0, 2.5, 3.0];
    assert rt[..2] == [2.0, 2.5] && rt[..2][..1] == [2.0] && rt[..2][..1][..0] == [];
    assert Sum(rt[..2][..1]) == 2.0;
    assert Sum(rt[..2]) == 4.5;
    assert Sum(rt) == 7.5;
  }
}
