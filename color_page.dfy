/**
 * The colour-vision page with a fixed five-plate list: one answer per plate, a
 * seven-second countdown that submits by itself, a results list of
 * "✅ Correct" / "❌ Wrong" entries and a summary from the number of wrong ones.
 *
 * The countdown is the `Tick` event: one second passing, or the submission the
 * effect makes once the time is 0.
 */
module ColorPage {
  import opened JsStrings
  import opened ColorPlates

  const GoodFeedback := "🌈 Great job! Your color perception seems normal for this plate."
  const BadFeedback := "👀 Hmm, you might be having difficulty distinguishing certain colors here."

  const ExcellentSummary := "✅ Excellent! No color vision issues detected."
  const SlightSummary := "⚠️ Slight inconsistency found. Possibly mild color confusion."
  const MultipleSummary := "🚨 Multiple mistakes detected. A detailed color vision test is recommended."

  /** `results.filter(r => r.includes("❌")).length`. */
  function WrongCount(results: seq<string>): nat
    decreases |results|
  {
    if results == [] then 0
    else WrongCount(results[..|results| - 1]) + (if Contains(results[|results| - 1], "❌") then 1 else 0)
  }

  /** `computeSummary`: no wrong entry, one or two, or three and more. */
  function Summary(results: seq<string>): (r: string)
    ensures WrongCount(results) == 0 ==> r == ExcellentSummary
    ensures 1 <= WrongCount(results) <= 2 ==> r == SlightSummary
    ensures WrongCount(results) >= 3 ==> r == MultipleSummary
  {
    var wrong := WrongCount(results);
    if wrong == 0 then ExcellentSummary
    else if wrong <= 2 then SlightSummary
    else MultipleSummary
  }

  /** The number of wrong verdicts. */
  function Misses(marks: seq<bool>): (n: nat)
    ensures n <= |marks|
    decreases |marks|
  {
    if marks == [] then 0
    else Misses(marks[..|marks| - 1]) + (if marks[|marks| - 1] then 0 else 1)
  }

  /** Counting "❌" entries counts exactly the wrong verdicts. */
  lemma {:induction false} WrongCountIsMisses(results: seq<string>, marks: seq<bool>)
    requires Entries(results, marks)
    ensures WrongCount(results) == Misses(marks)
    decreases |results|
  {
    if results != [] {
      var n := |results| - 1;
      assert Entries(results[..n], marks[..n]);
      WrongCountIsMisses(results[..n], marks[..n]);
      ContainsChar(results[n], WrongMark);
      assert marks[..n] == marks[..|marks| - 1];
    }
  }

  /** The page state. `marks` and `answers` record, for the proofs, each verdict and what
      was in the input field at each submission. */
  class ColorTest {
    var step: nat
    var input: string
    var results: seq<string>
    var feedback: string
    var finished: bool
    var timeLeft: int
    ghost var marks: seq<bool>
    ghost var answers: seq<string>

    /** One entry per plate already submitted, each the verdict on what was submitted;
        five entries once finished; a running countdown is never negative. */
    ghost predicate Valid()
      reads this
    {
      && step < |Plates|
      && Entries(results, marks) && Graded(marks, answers)
      && (!finished ==> |results| == step && 0 <= timeLeft <= 7)
      && (finished ==> step == |Plates| - 1 && |results| == |Plates|)
    }

    constructor ()
      ensures Valid()
      ensures step == 0 && input == "" && results == [] && feedback == "" && !finished && timeLeft == 7
    {
      step := 0;
      input := "";
      results := [];
      feedback := "";
      finished := false;
      timeLeft := 7;
      marks := [];
      answers := [];
    }

    /** `handleNext`: grade the input against the current plate, record the verdict and
        move to the next plate, or finish after the last one. */
    method HandleNext()
      requires Valid() && !finished
      modifies this
      ensures Valid()
      ensures results == old(results) + [ResultText(IsCorrect(old(step), old(input)))]
      ensures marks == old(marks) + [IsCorrect(old(step), old(input))] && answers == old(answers) + [old(input)]
      ensures feedback == if IsCorrect(old(step), old(input)) then GoodFeedback else BadFeedback
      ensures input == ""
      ensures old(step) + 1 < |Plates| ==> step == old(step) + 1 && timeLeft == 7 && !finished
      ensures old(step) + 1 == |Plates| ==> step == old(step) && timeLeft == old(timeLeft) && finished
    {
      var correct := IsCorrect(step, input);
      EntriesAppend(results, marks, correct);
      GradedAppend(marks, answers, input);
      results := results + [ResultText(correct)];
      marks := marks + [correct];
      answers := answers + [input];
      feedback := if correct then GoodFeedback else BadFeedback;
      input := "";
      if step + 1 < |Plates| {
        step := step + 1;
        timeLeft := 7;
      } else {
        finished := true;
      }
    }

    /** The countdown effect: at 0 it submits, otherwise a second passes. */
    method Tick()
      requires Valid() && !finished
      modifies this
      ensures Valid()
      ensures old(timeLeft) == 0 ==>
        && results == old(results) + [ResultText(IsCorrect(old(step), old(input)))]
        && marks == old(marks) + [IsCorrect(old(step), old(input))] && answers == old(answers) + [old(input)]
        && feedback == (if IsCorrect(old(step), old(input)) then GoodFeedback else BadFeedback)
        && input == ""
        && (old(step) + 1 < |Plates| ==> step == old(step) + 1 && timeLeft == 7 && !finished)
        && (old(step) + 1 == |Plates| ==> step == old(step) && timeLeft == 0 && finished)
      ensures old(timeLeft) > 0 ==>
        timeLeft == old(timeLeft) - 1 && step == old(step) && results == old(results) && input == old(input)
        && feedback == old(feedback) && !finished && marks == old(marks) && answers == old(answers)
    {
      if timeLeft == 0 {
        HandleNext();
      } else {
        timeLeft := timeLeft - 1;
      }
    }

    /** The Next / Finish button, which is enabled unless the input is empty with time left. */
    method PressNext()
      requires Valid() && !finished && !NextDisabled(input, timeLeft)
      modifies this
      ensures Valid()
      ensures results == old(results) + [ResultText(IsCorrect(old(step), old(input)))]
      ensures marks == old(marks) + [IsCorrect(old(step), old(input))] && answers == old(answers) + [old(input)]
      ensures feedback == if IsCorrect(old(step), old(input)) then GoodFeedback else BadFeedback
      ensures input == ""
      ensures old(step) + 1 < |Plates| ==> step == old(step) + 1 && timeLeft == 7 && !finished
      ensures old(step) + 1 == |Plates| ==> step == old(step) && timeLeft == old(timeLeft) && finished
      ensures old(input) == "" ==> old(timeLeft) == 0
    {
      HandleNext();
    }

    /** Typing in the input field. */
    method SetInput(text: string)
      requires Valid()
      modifies this
      ensures Valid()
      ensures input == text
      ensures step == old(step) && results == old(results) && feedback == old(feedback)
      ensures finished == old(finished) && timeLeft == old(timeLeft)
      ensures marks == old(marks) && answers == old(answers)
    {
      input := text;
    }

    /** "Restart Test". */
    method Restart()
      requires Valid() && finished
      modifies this
      ensures Valid()
      ensures step == 0 && input == "" && results == [] && feedback == "" && !finished && timeLeft == 7
    {
      step := 0;
      input := "";
      results := [];
      finished := false;
      feedback := "";
      timeLeft := 7;
      marks := [];
      answers := [];
    }

    /** The summary shown once the test is finished is decided by the number of plates
        answered wrongly. */
    lemma SummaryOfFinished()
      requires Valid() && finished
      ensures Misses(marks) == 0 ==> Summary(results) == ExcellentSummary
      ensures 1 <= Misses(marks) <= 2 ==> Summary(results) == SlightSummary
      ensures Misses(marks) >= 3 ==> Summary(results) == MultipleSummary
    {
      WrongCountIsMisses(results, marks);
    }
  }
}
