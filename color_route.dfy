/**
 * The second copy of the plate session, kept under `api/color` as a page
 * component: the same five plates, countdown and grading as the colour page,
 * without the feedback line, the summary and the restart button.
 */
module ColorRoute {
  import opened ColorPlates

  /** The session state. `marks` and `answers` record, for the proofs, each verdict and
      what was in the input field at each submission. */
  class PlateSession {
    var step: nat
    var input: string
    var results: seq<string>
    var finished: bool
    var timeLeft: int
    ghost var marks: seq<bool>
    ghost var answers: seq<string>

    /** One entry per plate already submitted, each the verdict on what was submitted;
        five entries once finished; a running countdown is never negative. */
    ghost predicate Valid()
      reads this
    {
      && step < |Plates|
      && Entries(results, marks) && Graded(marks, answers)
      && (!finished ==> |results| == step && 0 <= timeLeft <= 7)
      && (finished ==> step == |Plates| - 1 && |results| == |Plates|)
    }

    constructor ()
      ensures Valid()
      ensures step == 0 && input == "" && results == [] && !finished && timeLeft == 7
    {
      step := 0;
      input := "";
      results := [];
      finished := false;
      timeLeft := 7;
      marks := [];
      answers := [];
    }

    /** `handleNext`: record the verdict on the input and move on, or finish after the
        last plate. */
    method HandleNext()
      requires Valid() && !finished
      modifies this
      ensures Valid()
      ensures results == old(results) + [ResultText(IsCorrect(old(step), old(input)))]
      ensures marks == old(marks) + [IsCorrect(old(step), old(input))] && answers == old(answers) + [old(input)]
      ensures input == ""
      ensures old(step) + 1 < |Plates| ==> step == old(step) + 1 && timeLeft == 7 && !finished
      ensures old(step) + 1 == |Plates| ==> step == old(step) && timeLeft == old(timeLeft) && finished
    {
      var correct := IsCorrect(step, input);
      EntriesAppend(results, marks, correct);
      GradedAppend(marks, answers, input);
      results := results + [ResultText(correct)];
      marks := marks + [correct];
      answers := answers + [input];
      input := "";
      if step + 1 < |Plates| {
        step := step + 1;
        timeLeft := 7;
      } else {
        finished := true;
      }
    }

    /** The countdown effect: at 0 it submits, otherwise a second passes. */
    method Tick()
      requires Valid() && !finished
      modifies this
      ensures Valid()
      ensures old(timeLeft) == 0 ==>
        && results == old(results) + [ResultText(IsCorrect(old(step), old(input)))]
        && marks == old(marks) + [IsCorrect(old(step), old(input))] && answers == old(answers) + [old(input)]
        && input == ""
        && (old(step) + 1 < |Plates| ==> step == old(step) + 1 && timeLeft == 7 && !finished)
        && (old(step) + 1 == |Plates| ==> step == old(step) && timeLeft == 0 && finished)
      ensures old(timeLeft) > 0 ==>
        timeLeft == old(timeLeft) - 1 && step == old(step) && results == old(results) && input == old(input)
        && !finished && marks == old(marks) && answers == old(answers)
    {
      if timeLeft == 0 {
        HandleNext();
      } else {
        timeLeft := timeLeft - 1;
      }
    }

    /** The Next / Finish button, which is enabled unless the input is empty with time left. */
    method PressNext()
      requires Valid() && !finished && !NextDisabled(input, timeLeft)
      modifies this
      ensures Valid()
      ensures results == old(results) + [ResultText(IsCorrect(old(step), old(input)))]
      ensures marks == old(marks) + [IsCorrect(old(step), old(input))] && answers == old(answers) + [old(input)]
      ensures input == ""
      ensures old(step) + 1 < |Plates| ==> step == old(step) + 1 && timeLeft == 7 && !finished
      ensures old(step) + 1 == |Plates| ==> step == old(step) && timeLeft == old(timeLeft) && finished
      ensures old(input) == "" ==> old(timeLeft) == 0
    {
      HandleNext();
    }

    /** Typing in the input field. */
    method SetInput(text: string)
      requires Valid()
      modifies this
      ensures Valid()
      ensures input == text
      ensures step == old(step) && results == old(results) && finished == old(finished)
      ensures timeLeft == old(timeLeft) && marks == old(marks) && answers == old(answers)
    {
      input := text;
    }
  }
}
