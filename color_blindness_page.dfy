/**
 * The Ishihara-style page that fetches its plates: one answer per plate under a
 * seven-second countdown, then a score over the plate count and a deficiency
 * type chosen from the failures on the plates that detect each type.
 *
 * The plate list comes from `GET /api/color-blindness`; the fetch is the
 * constructor's argument. The countdown is the `Tick` event.
 */
module ColorBlindnessPage {
  import opened JsStrings
  import opened JsNumbers
  import ColorPlates

  /** A plate as the plate endpoint serves it. */
  datatype Plate = Plate(id: int, img: string, answer: string)

  /** The five plates `GET /api/color-blindness` serves: 12 is seen by everyone, 29 detects
      protan, 8 and 5 deutan, and 42 tritan deficiencies. */
  const ServedPlates: seq<Plate> := [
    Plate(1, "/plates/12.png", "12"),
    Plate(2, "/plates/29.png", "29"),
    Plate(3, "/plates/8.png", "8"),
    Plate(4, "/plates/42.png", "42"),
    Plate(5, "/plates/5.png", "5")
  ]

  /** A recorded response: the plate shown and the text typed for it. */
  datatype Answered = Answered(plate: Plate, answer: string)

  predicate IsRight(r: Answered) {
    ColorPlates.AnswerMatches(r.plate.answer, r.answer)
  }

  /** The counters of `getResult`. */
  datatype Tally = Tally(correct: nat, protan: nat, deutan: nat, tritan: nat)

  function Total(t: Tally): nat {
    t.correct + t.protan + t.deutan + t.tritan
  }

  /** The body of the `forEach`: a right answer counts as correct; a wrong one counts as a
      failure of each type whose plate it was. */
  function TallyStep(t: Tally, r: Answered): Tally {
    if IsRight(r) then t.(correct := t.correct + 1)
    else
      var a := r.plate.answer;
      Tally(t.correct,
        t.protan + (if a == "29" then 1 else 0),
        t.deutan + (if a in ["8", "5"] then 1 else 0),
        t.tritan + (if a == "42" then 1 else 0))
  }

  /** The counters after the `forEach` over `responses`. */
  function TallyOf(responses: seq<Answered>): Tally
    decreases |responses|
  {
    if responses == [] then Tally(0, 0, 0, 0)
    else TallyStep(TallyOf(responses[..|responses| - 1]), responses[|responses| - 1])
  }

  /** A response adds to at most one counter: it adds one when it is right or was given
      on a detecting plate, and nothing when it is a wrong answer to any other plate. */
  lemma StepTotal(t: Tally, r: Answered)
    ensures Total(TallyStep(t, r)) ==
      Total(t) + (if IsRight(r) || r.plate.answer in ["29", "8", "5", "42"] then 1 else 0)
  {
    var a := r.plate.answer;
    if !IsRight(r) {
      assert a == "29" ==> a != "8" && a != "5" && a != "42";
      assert a == "42" ==> a != "8" && a != "5";
    }
  }

  /** `correct` plus all failure counts never exceed the number of responses. */
  lemma {:induction false} TallyBound(responses: seq<Answered>)
    ensures Total(TallyOf(responses)) <= |responses|
    decreases |responses|
  {
    if responses != [] {
      TallyBound(responses[..|responses| - 1]);
      StepTotal(TallyOf(responses[..|responses| - 1]), responses[|responses| - 1]);
    }
  }

  /** The deficiency types and their `type` strings. */
  datatype Deficiency = NoDeficiency | Protan | Deutan | Tritan

  function TypeName(d: Deficiency): string {
    match d
    case NoDeficiency => "None"
    case Protan => "Protan (Red)"
    case Deutan => "Deutan (Green)"
    case Tritan => "Tritan (Blue-Yellow)"
  }

  /** The type chosen below the threshold. */
  function ChooseType(t: Tally): Deficiency {
    if t.protan > t.deutan && t.protan > t.tritan then Protan
    else if t.deutan > t.protan && t.deutan > t.tritan then Deutan
    else if t.tritan > 0 then Tritan
    else NoDeficiency
  }

  /** Protan and deutan need a strict maximum; tritan needs only one failure once neither
      has one; no type at all exactly when there are no tritan failures and the protan
      and deutan counts tie. */
  lemma ChooseTypeRules(t: Tally)
    ensures ChooseType(t) == Protan <==> t.protan > t.deutan && t.protan > t.tritan
    ensures ChooseType(t) == Deutan <==> t.deutan > t.protan && t.deutan > t.tritan
    ensures ChooseType(t) == Tritan <==>
      !(t.protan > t.deutan && t.protan > t.tritan) && !(t.deutan > t.protan && t.deutan > t.tritan) && t.tritan > 0
    ensures ChooseType(t) == NoDeficiency <==> t.tritan == 0 && t.protan == t.deutan
  {
  }

  /** A three-way tie of failures is reported as tritan. */
  lemma TieIsTritan(n: nat)
    requires n > 0
    ensures ChooseType(Tally(0, n, n, n)) == Tritan
  {
  }

  /** What `getResult` returns. */
  datatype Report = Report(score: int, result: string, kind: string)

  const NormalResult := "Normal Color Vision"

  /** The percentage of right answers over the number of plates, before rounding. */
  function RawScore(t: Tally, plateCount: nat): real
    requires plateCount > 0
  {
    t.correct as real / plateCount as real * 100.0
  }

  /** The scoring after the `forEach`: the threshold is applied to the unrounded score, and
      the rounded score is reported. */
  function Evaluate(t: Tally, plateCount: nat): Report
    requires plateCount > 0
  {
    var score := RawScore(t, plateCount);
    if score < 80.0 then
      var d := ChooseType(t);
      Report(Round(score), "Possible " + TypeName(d) + " Color Vision Deficiency", TypeName(d))
    else
      Report(Round(score), NormalResult, TypeName(NoDeficiency))
  }

  /** The raw score times the plate count is a hundred times the right answers. */
  lemma RawScoreScaled(t: Tally, plateCount: nat)
    requires plateCount > 0
    ensures RawScore(t, plateCount) * plateCount as real == t.correct as real * 100.0
    ensures RawScore(t, plateCount) == t.correct as real * 100.0 / plateCount as real
  {
  }

  /** The 80% threshold, in whole numbers. */
  lemma RawScoreThreshold(t: Tally, plateCount: nat)
    requires plateCount > 0
    ensures RawScore(t, plateCount) < 80.0 <==> t.correct * 100 < 80 * plateCount
  {
    RawScoreScaled(t, plateCount);
    DivBelow(t.correct as real * 100.0, plateCount as real, 80.0);
  }

  /** No more right answers than plates keeps the raw score within 0 to 100. */
  lemma RawScoreRange(t: Tally, plateCount: nat)
    requires plateCount > 0 && t.correct <= plateCount
    ensures 0.0 <= RawScore(t, plateCount) <= 100.0
  {
    var n := plateCount as real;
    RawScoreScaled(t, plateCount);
    assert RawScore(t, plateCount) * n <= 100.0 * n;
  }

  /** Normal vision exactly when at least 80% of the plates were answered right, and then
      no type; the score is the rounded percentage, between 0 and 100 when there are no
      more right answers than plates. */
  lemma EvaluateRules(t: Tally, plateCount: nat)
    requires plateCount > 0
    ensures Evaluate(t, plateCount).result == NormalResult <==> t.correct * 100 >= 80 * plateCount
    ensures t.correct * 100 >= 80 * plateCount ==> Evaluate(t, plateCount).kind == "None"
    ensures t.correct * 100 < 80 * plateCount ==> Evaluate(t, plateCount).kind == TypeName(ChooseType(t))
    ensures t.correct * 100 < 80 * plateCount ==>
      Evaluate(t, plateCount).result == "Possible " + Evaluate(t, plateCount).kind + " Color Vision Deficiency"
    ensures Evaluate(t, plateCount).score == Round(t.correct as real * 100.0 / plateCount as real)
    ensures t.correct <= plateCount ==> 0 <= Evaluate(t, plateCount).score <= 100
  {
    var score := RawScore(t, plateCount);
    RawScoreScaled(t, plateCount);
    RawScoreThreshold(t, plateCount);
    assert ("Possible " + TypeName(ChooseType(t)) + " Color Vision Deficiency")[0] == 'P';
    if t.correct <= plateCount {
      RawScoreRange(t, plateCount);
      RoundMonotone(score, 100.0);
      RoundWhole(100);
      RoundMonotone(0.0, score);
      RoundWhole(0);
    }
  }

  /** With the five served plates, vision is normal exactly when four or five answers are right. */
  lemma ServedPlatesThreshold(t: Tally)
    ensures Evaluate(t, |ServedPlates|).result == NormalResult <==> t.correct >= 4
  {
    EvaluateRules(t, |ServedPlates|);
  }

  /** The threshold sees the unrounded score: 79.6% is reported as 80 and still flagged. */
  lemma UnroundedThreshold()
    ensures Evaluate(Tally(199, 0, 0, 1), 250).score == 80
    ensures Evaluate(Tally(199, 0, 0, 1), 250).result != NormalResult
  {
    EvaluateRules(Tally(199, 0, 0, 1), 250);
    assert RawScore(Tally(199, 0, 0, 1), 250) == 79.6;
  }

  /** The page state. */
  class ColorBlindnessTest {
    var plates: seq<Plate>
    var current: nat
    var answer: string
    var responses: seq<Answered>
    var timeLeft: int
    var finished: bool

    /** Before any plate is loaded nothing happens; afterwards one response per plate
        already shown, each recording its plate, and one per plate once finished. */
    ghost predicate Valid()
      reads this
    {
      && (plates == [] ==> current == 0 && responses == [] && !finished)
      && (plates != [] ==> current < |plates|)
      && (!finished ==> |responses| == current && 0 <= timeLeft <= 7)
      && (finished ==> |responses| == |plates| && current == |plates| - 1 && answer == "")
      && (forall i :: 0 <= i < |responses| ==> responses[i].plate == plates[i])
    }

    /** The page once the plate fetch has answered with `fetched`. */
    constructor (fetched: seq<Plate>)
      ensures Valid()
      ensures plates == fetched && current == 0 && answer == "" && responses == []
      ensures timeLeft == 7 && !finished
    {
      plates := fetched;
      current := 0;
      answer := "";
      responses := [];
      timeLeft := 7;
      finished := false;
    }

    /** `handleNext`: record the current plate and answer, clear the answer, restart the
        countdown, and move on or finish. */
    method HandleNext()
      requires Valid() && plates != [] && !finished
      modifies this
      ensures Valid()
      ensures responses == old(responses) + [Answered(old(plates[current]), old(answer))]
      ensures answer == "" && timeLeft == 7 && plates == old(plates)
      ensures old(current) + 1 < |plates| ==> current == old(current) + 1 && !finished
      ensures old(current) + 1 == |plates| ==> current == old(current) && finished
    {
      responses := responses + [Answered(plates[current], answer)];
      answer := "";
      timeLeft := 7;
      if current + 1 < |plates| {
        current := current + 1;
      } else {
        finished := true;
      }
    }

    /** The countdown effect: at 0 it submits, otherwise a second passes. */
    method Tick()
      requires Valid() && plates != [] && !finished
      modifies this
      ensures Valid()
      ensures old(timeLeft) == 0 ==>
        && responses == old(responses) + [Answered(old(plates[current]), old(answer))]
        && answer == "" && timeLeft == 7
        && (old(current) + 1 < |plates| ==> current == old(current) + 1 && !finished)
        && (old(current) + 1 == |plates| ==> current == old(current) && finished)
      ensures old(timeLeft) > 0 ==>
        timeLeft == old(timeLeft) - 1 && current == old(current) && answer == old(answer)
        && responses == old(responses) && !finished
      ensures plates == old(plates)
    {
      if timeLeft == 0 {
        HandleNext();
      } else {
        timeLeft := timeLeft - 1;
      }
    }

    /** Typing in the answer field, which is shown only while the test runs. */
    method SetAnswer(text: string)
      requires Valid() && !finished
      modifies this
      ensures Valid()
      ensures answer == text
      ensures plates == old(plates) && current == old(current) && responses == old(responses)
      ensures timeLeft == old(timeLeft) && finished == old(finished)
    {
      answer := text;
    }

    /** "Restart Test": the plates and the (already empty) answer stay. */
    method Restart()
      requires Valid() && finished
      modifies this
      ensures Valid()
      ensures current == 0 && responses == [] && !finished && timeLeft == 7
      ensures plates == old(plates) && answer == ""
    {
      current := 0;
      responses := [];
      finished := false;
      timeLeft := 7;
    }

    /** `getResult`: the `forEach` over the responses, then the scoring. */
    method GetResult() returns (r: Report)
      requires plates != []
      ensures r == Evaluate(TallyOf(responses), |plates|)
    {
      var rs := responses;
      var correct, protanFails, deutanFails, tritanFails := 0, 0, 0, 0;
      var i := 0;
      while i < |rs|
        invariant 0 <= i <= |rs|
        invariant Tally(correct, protanFails, deutanFails, tritanFails) == TallyOf(rs[..i])
      {
        var response := rs[i];
        assert rs[..i + 1][..i] == rs[..i];
        ghost var next := TallyStep(Tally(correct, protanFails, deutanFails, tritanFails), response);
        if IsRight(response) {
          correct := correct + 1;
        } else {
          var a := response.plate.answer;
          if a == "29" {
            protanFails := protanFails + 1;
          }
          if a in ["8", "5"] {
            deutanFails := deutanFails + 1;
          }
          if a == "42" {
            tritanFails := tritanFails + 1;
          }
        }
        assert Tally(correct, protanFails, deutanFails, tritanFails) == next;
        i := i + 1;
      }
      assert rs[..i] == rs;
      r := Evaluate(Tally(correct, protanFails, deutanFails, tritanFails), |plates|);
    }
  }

  /** A finished session counts as many responses as there are plates. */
  lemma FinishedTallyBound(t: ColorBlindnessTest)
    requires t.Valid() && t.finished
    ensures Total(TallyOf(t.responses)) <= |t.plates|
  {
    TallyBound(t.responses);
  }
}
