/**
 * The pre-test quiz: five questions, each offering the letters a to d, and
 * its submit handler.
 */
module PreTest {
  import opened Wrappers
  import Quiz

  /** The answer key of the five questions. */
  const MyQuestions: seq<Quiz.Question> := [
    Quiz.Question(Quiz.Letters, "c"),
    Quiz.Question(Quiz.Letters, "b"),
    Quiz.Question(Quiz.Letters, "c"),
    Quiz.Question(Quiz.Letters, "b"),
    Quiz.Question(Quiz.Letters, "c")
  ]

  /** The one sheet that scores full marks. */
  const PerfectSheet: seq<Option<string>> := [Some("c"), Some("b"), Some("c"), Some("b"), Some("c")]

  /** There are five questions and every correct answer is one of the letters a to d. */
  lemma QuestionsWellFormed()
    ensures |MyQuestions| == 5
    ensures forall i :: 0 <= i < |MyQuestions| ==>
      MyQuestions[i].letters == Quiz.Letters && Quiz.WellFormed(MyQuestions[i])
  {
  }

  /**
   * The submit handler with this quiz's key: the score counts the correct
   * answers, is at most five, and is five for exactly one sheet.
   */
  method ShowResults(answers: seq<Option<string>>, redBefore: seq<bool>)
    returns (numCorrect: nat, red: seq<bool>)
    requires |answers| == 5 && |redBefore| == 5
    ensures numCorrect == Quiz.CorrectCount(answers, MyQuestions)
    ensures numCorrect <= 5
    ensures numCorrect == 5 <==> answers == PerfectSheet
    ensures |red| == 5
    ensures forall i :: 0 <= i < 5 ==> red[i] == (redBefore[i] || !Quiz.IsCorrect(answers[i], MyQuestions[i]))
    ensures forall i :: 0 <= i < 5 && answers[i] == None ==> red[i]
  {
    numCorrect, red := Quiz.ShowResults(answers, MyQuestions, redBefore);
    Quiz.FullMarks(answers, MyQuestions);
  }
}
