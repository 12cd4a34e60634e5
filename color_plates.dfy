/**
 * What the two plate sessions share: the rule that decides whether a typed answer
 * matches a plate, and the five-plate list, result texts and Next-button rule of
 * the colour page and its duplicate under `api/color`.
 */
module ColorPlates {
  import opened JsStrings

  /** A typed answer matches the plate's number when it equals it after trimming; the
      plate's own answer is compared as it is. */
  predicate AnswerMatches(expected: string, given: string) {
    Trim(given) == expected
  }

  /** Whitespace around the typed answer never changes the verdict. */
  lemma MatchIgnoresEdgeWhitespace(expected: string, given: string)
    ensures AnswerMatches(expected, Trim(given)) <==> AnswerMatches(expected, given)
  {
    TrimIdempotent(given);
  }

  /** An answer without whitespace at its ends matches exactly the same text. */
  lemma ExactAnswerMatches(expected: string, given: string)
    requires NoEdgeWhitespace(given)
    ensures AnswerMatches(expected, given) <==> given == expected
  {
  }

  /** A plate of the page: the image path and the number it shows. */
  datatype Plate = Plate(src: string, answer: string)

  const Plates: seq<Plate> := [
    Plate("/plates/5.png", "5"),
    Plate("/plates/8.png", "8"),
    Plate("/plates/12.png", "12"),
    Plate("/plates/29.png", "29"),
    Plate("/plates/42.png", "42")
  ]

  const CorrectText := "✅ Correct"
  const WrongText := "❌ Wrong"
  const WrongMark := '❌'

  /** Whether `input` is the right answer for the plate at `step`. */
  predicate IsCorrect(step: nat, input: string)
    requires step < |Plates|
  {
    AnswerMatches(Plates[step].answer, input)
  }

  /** Each plate is answered correctly by its own number. */
  lemma PlateNumberIsCorrect(step: nat)
    requires step < |Plates|
    ensures IsCorrect(step, Plates[step].answer)
  {
    var a := Plates[step].answer;
    assert a[0] in "0123456789" && a[|a| - 1] in "0123456789";
    assert NoEdgeWhitespace(a);
  }

  /** The entry appended to the results list. */
  function ResultText(correct: bool): (r: string)
    ensures WrongMark in r <==> !correct
  {
    if correct then CorrectText else WrongText
  }

  /** `disabled={!input && timeLeft > 0}`: with time left, an empty answer cannot be
      submitted by the button. */
  predicate NextDisabled(input: string, timeLeft: int) {
    input == "" && timeLeft > 0
  }

  /** The results list holds the verdict text of each submission, in order. */
  predicate Entries(results: seq<string>, marks: seq<bool>) {
    && |results| == |marks|
    && forall i :: 0 <= i < |results| ==> results[i] == ResultText(marks[i])
  }

  /** The verdict on each answer, graded against the plate it was submitted for. */
  function Grades(answers: seq<string>): (ms: seq<bool>)
    requires |answers| <= |Plates|
    ensures |ms| == |answers|
    decreases |answers|
  {
    if answers == [] then []
    else
      var n := |answers| - 1;
      Grades(answers[..n]) + [IsCorrect(n, answers[n])]
  }

  /** Each verdict is the grading of the answer submitted for that plate. */
  lemma {:induction false} GradesPointwise(answers: seq<string>, i: nat)
    requires |answers| <= |Plates| && i < |answers|
    ensures Grades(answers)[i] == IsCorrect(i, answers[i])
    decreases |answers|
  {
    var n := |answers| - 1;
    if i < n {
      GradesPointwise(answers[..n], i);
      assert answers[..n][i] == answers[i];
    }
  }

  /** The verdicts recorded so far are the grades of the answers submitted so far. */
  predicate Graded(marks: seq<bool>, answers: seq<string>) {
    |answers| <= |Plates| && marks == Grades(answers)
  }

  /** Appending a verdict keeps the results list in step with the verdicts. */
  lemma EntriesAppend(results: seq<string>, marks: seq<bool>, m: bool)
    requires Entries(results, marks)
    ensures Entries(results + [ResultText(m)], marks + [m])
  {
  }

  /** Grading the next plate's answer keeps the verdicts in step with the answers. */
  lemma GradedAppend(marks: seq<bool>, answers: seq<string>, answer: string)
    requires Graded(marks, answers) && |marks| < |Plates|
    ensures Graded(marks + [IsCorrect(|marks|, answer)], answers + [answer])
  {
    assert (answers + [answer])[..|answers|] == answers;
  }
}
