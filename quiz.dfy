/**
 * Scoring of the multiple-choice quizzes. Each question is rendered as a
 * group of radio buttons whose values are the question's answer letters;
 * on submit the quiz reads, per question, the value of the checked button
 * (undefined when none is checked), counts the answers equal to the
 * question's correct letter and colours every other question red.
 *
 * Nothing ever clears a red colour (the line that would colour a correct
 * answer is commented out), so the colours are an input of a submission as
 * well as its output.
 */
module Quiz {
  import opened Wrappers

  /** A question as scoring sees it: the letters offered and the correct one. */
  datatype Question = Question(letters: seq<string>, correctAnswer: string)

  /** The letters every question of both quizzes offers. */
  const Letters: seq<string> := ["a", "b", "c", "d"]

  /** The correct letter is one of the letters offered, so a perfect score is possible. */
  predicate WellFormed(q: Question)
  {
    q.correctAnswer in q.letters
  }

  /** A selection is correct exactly when a button is checked and its value is the correct letter. */
  predicate IsCorrect(answer: Option<string>, q: Question)
  {
    answer == Some(q.correctAnswer)
  }

  /** How many of the answers are correct, counted from the front. */
  function CorrectCount(answers: seq<Option<string>>, questions: seq<Question>): nat
    requires |answers| == |questions|
    decreases |questions|
  {
    if |questions| == 0 then 0
    else
      var n := |questions| - 1;
      CorrectCount(answers[..n], questions[..n]) + (if IsCorrect(answers[n], questions[n]) then 1 else 0)
  }

  /** The questions answered correctly. */
  function CorrectSet(answers: seq<Option<string>>, questions: seq<Question>): set<nat>
    requires |answers| == |questions|
  {
    set i: nat | i < |questions| && IsCorrect(answers[i], questions[i])
  }

  /** The count is the number of correctly answered questions. */
  lemma {:induction false} CorrectCountIsSize(answers: seq<Option<string>>, questions: seq<Question>)
    requires |answers| == |questions|
    ensures CorrectCount(answers, questions) == |CorrectSet(answers, questions)|
    decreases |questions|
  {
    if |questions| > 0 {
      var n := |questions| - 1;
      var a, q := answers[..n], questions[..n];
      CorrectCountIsSize(a, q);
      var prefix := CorrectSet(a, q);
      if IsCorrect(answers[n], questions[n]) {
        assert CorrectSet(answers, questions) == prefix + {n};
      } else {
        assert CorrectSet(answers, questions) == prefix;
      }
    }
  }

  /** The score never exceeds the number of questions. */
  lemma {:induction false} CorrectCountBound(answers: seq<Option<string>>, questions: seq<Question>)
    requires |answers| == |questions|
    ensures CorrectCount(answers, questions) <= |questions|
    decreases |questions|
  {
    if |questions| > 0 {
      var n := |questions| - 1;
      CorrectCountBound(answers[..n], questions[..n]);
    }
  }

  /** Full marks exactly when every question is answered correctly. */
  lemma {:induction false} FullMarks(answers: seq<Option<string>>, questions: seq<Question>)
    requires |answers| == |questions|
    ensures CorrectCount(answers, questions) == |questions|
        <==> forall i :: 0 <= i < |questions| ==> IsCorrect(answers[i], questions[i])
    decreases |questions|
  {
    if |questions| > 0 {
      var n := |questions| - 1;
      var a, q := answers[..n], questions[..n];
      FullMarks(a, q);
      CorrectCountBound(a, q);
      if forall i :: 0 <= i < |questions| ==> IsCorrect(answers[i], questions[i]) {
        assert forall i :: 0 <= i < n ==> IsCorrect(a[i], q[i]) by {
          forall i | 0 <= i < n ensures IsCorrect(a[i], q[i]) {
            assert a[i] == answers[i] && q[i] == questions[i];
          }
        }
      }
      if CorrectCount(answers, questions) == |questions| {
        forall i | 0 <= i < |questions| ensures IsCorrect(answers[i], questions[i]) {
          if i < n { assert a[i] == answers[i] && q[i] == questions[i]; }
        }
      }
    }
  }

  /** A blank sheet scores nothing. */
  lemma {:induction false} BlankScoresZero(answers: seq<Option<string>>, questions: seq<Question>)
    requires |answers| == |questions|
    requires forall i :: 0 <= i < |answers| ==> answers[i] == None
    ensures CorrectCount(answers, questions) == 0
    decreases |questions|
  {
    if |questions| > 0 {
      var n := |questions| - 1;
      var a := answers[..n];
      assert forall i :: 0 <= i < n ==> a[i] == answers[i];
      BlankScoresZero(a, questions[..n]);
    }
  }

  /**
   * The submit handler. `redBefore` are the colours left by earlier
   * submissions. The score counts the correct answers; a question ends up red
   * when it was red already or is answered wrongly or not at all. On a
   * question not yet red, red means exactly "not counted".
   */
  method ShowResults(answers: seq<Option<string>>, questions: seq<Question>, redBefore: seq<bool>)
    returns (numCorrect: nat, red: seq<bool>)
    requires |answers| == |questions| == |redBefore|
    ensures numCorrect == CorrectCount(answers, questions)
    ensures numCorrect <= |questions|
    ensures |red| == |questions|
    ensures forall i :: 0 <= i < |questions| ==> red[i] == (redBefore[i] || !IsCorrect(answers[i], questions[i]))
    ensures forall i :: 0 <= i < |questions| && answers[i] == None ==> red[i]
    ensures forall i :: 0 <= i < |questions| && !redBefore[i] ==> (red[i] <==> !IsCorrect(answers[i], questions[i]))
  {
    numCorrect := 0;
    red := redBefore;
    var i := 0;
    while i < |questions|
      invariant 0 <= i <= |questions|
      invariant numCorrect == CorrectCount(answers[..i], questions[..i])
      invariant |red| == |questions|
      invariant forall j :: 0 <= j < i ==> red[j] == (redBefore[j] || !IsCorrect(answers[j], questions[j]))
      invariant forall j :: i <= j < |questions| ==> red[j] == redBefore[j]
    {
      assert answers[..i + 1][..i] == answers[..i] && questions[..i + 1][..i] == questions[..i];
      if answers[i] == Some(questions[i].correctAnswer) {
        numCorrect := numCorrect + 1;
      } else {
        red := red[i := true];
      }
      i := i + 1;
    }
    assert answers[..i] == answers && questions[..i] == questions;
    CorrectCountBound(answers, questions);
  }
}
