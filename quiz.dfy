/**
 * The quiz player of the workspace: a small state machine that walks
 * through the questions of one quiz, records the chosen option of each,
 * and the scoring and badge rules shown on the quiz list.
 */
module QuizView {
  import opened Domain

  datatype Mode = Selection | Playing

  /** The number of positions where the recorded answer is the question's correct option. */
  function CorrectCount(answers: seq<int>, questions: seq<QuizQuestion>): (c: nat)
    requires |answers| <= |questions|
    ensures c <= |answers|
    ensures c == |answers| <==> forall i :: 0 <= i < |answers| ==> answers[i] == questions[i].correctAnswer
    ensures c == 0 <==> forall i :: 0 <= i < |answers| ==> answers[i] != questions[i].correctAnswer
  {
    if answers == [] then 0
    else
      var n := |answers| - 1;
      CorrectCount(answers[..n], questions) + (if answers[n] == questions[n].correctAnswer then 1 else 0)
  }

  /**
   * `Math.round(correct / n * 100)` in integer arithmetic: the percentage
   * rounded half up, so that `2n * s <= 200 * correct + n < 2n * (s + 1)`.
   */
  function Percentage(correct: nat, n: nat): (s: int)
    requires 0 < n && correct <= n
    ensures (2 * n) * s <= 200 * correct + n < (2 * n) * (s + 1)
    ensures 0 <= s <= 100
    ensures correct == n ==> s == 100
    ensures correct == 0 ==> s == 0
  {
    var s := (200 * correct + n) / (2 * n);
    DivBounds(200 * correct + n, 2 * n);
    RoundedBounds(correct, n, s);
    s
  }

  lemma DivBounds(a: int, m: int)
    requires 0 < m
    ensures m * (a / m) <= a < m * (a / m + 1)
  {
    assert a == m * (a / m) + a % m;
    assert m * (a / m + 1) == m * (a / m) + m;
  }

  /** What the rounding bounds say about a rounded percentage. */
  lemma RoundedBounds(correct: nat, n: nat, s: int)
    requires 0 < n && correct <= n
    requires (2 * n) * s <= 200 * correct + n < (2 * n) * (s + 1)
    ensures 0 <= s <= 100
    ensures correct == n ==> s == 100
    ensures correct == 0 ==> s == 0
  {
    var m := 2 * n;
    assert 200 * correct + n <= m * 100 + n < m * 101;
    ProductBelow(m, s, 101);
    assert 0 < m * (s + 1);
    ProductBelow(m, 0, s + 1);
    if correct == n {
      assert m * 100 <= 200 * correct + n;
      ProductBelow(m, 99, s);
    }
    if correct == 0 {
      assert m * s < m * 1;
      ProductBelow(m, s, 1);
    }
  }

  /** Multiplying by a positive factor keeps the order, the fact the bounds above rest on. */
  lemma ProductBelow(m: int, a: int, b: int)
    requires 0 < m
    ensures a < b <==> m * a < m * b
  {
    if a < b {
      assert m * b == m * a + m * (b - a);
    } else {
      assert m * a == m * b + m * (a - b);
    }
  }

  /** `calculateScore`: the share of correct answers over all questions, as a rounded percentage. */
  function CalculateScore(answers: seq<int>, questions: seq<QuizQuestion>): (s: int)
    requires 0 < |questions| && |answers| <= |questions|
    ensures 0 <= s <= 100
    ensures (|answers| == |questions| && forall i :: 0 <= i < |answers| ==> answers[i] == questions[i].correctAnswer)
      ==> s == 100
    ensures (forall i :: 0 <= i < |answers| ==> answers[i] != questions[i].correctAnswer) ==> s == 0
  {
    Percentage(CorrectCount(answers, questions), |questions|)
  }

  /** More correct answers never give a lower score. */
  lemma PercentageMonotone(c1: nat, c2: nat, n: nat)
    requires 0 < n && c1 <= c2 <= n
    ensures Percentage(c1, n) <= Percentage(c2, n)
  {
    var s1, s2 := Percentage(c1, n), Percentage(c2, n);
    assert (2 * n) * s1 < (2 * n) * (s2 + 1);
    ProductBelow(2 * n, s1, s2 + 1);
  }

  datatype Band = Green | Yellow | Red

  /** The colour of a score badge. */
  function ScoreBand(score: int): (b: Band)
    ensures b == Green <==> 80 <= score
    ensures b == Yellow <==> 60 <= score < 80
    ensures b == Red <==> score < 60
  {
    if score >= 80 then Green else if score >= 60 then Yellow else Red
  }

  /** The badge on a quiz card: shown only for a completed quiz that carries a score. */
  function Badge(q: Quiz): (r: Option<Band>)
    ensures r.Some? <==> q.completedAt.Some? && q.score.Some?
    ensures r.Some? ==> r.value == ScoreBand(q.score.value)
  {
    if q.completedAt.Some? && q.score.Some? then Some(ScoreBand(q.score.value)) else None
  }

  /** The local state of the quiz view. */
  class QuizPlayer {
    var currentQuizIndex: nat
    var currentQuestionIndex: nat
    var selectedAnswer: Option<int>
    var showResult: bool
    var mode: Mode
    var answers: seq<int>

    /** While playing, one answer has been recorded for each question already passed. */
    ghost predicate Valid()
      reads this
    {
      mode == Playing ==> |answers| == currentQuestionIndex
    }

    constructor ()
      ensures currentQuizIndex == 0 && currentQuestionIndex == 0
      ensures selectedAnswer == None && !showResult
      ensures mode == Selection && answers == []
      ensures Valid()
    {
      currentQuizIndex, currentQuestionIndex := 0, 0;
      selectedAnswer, showResult := None, false;
      mode, answers := Selection, [];
    }

    /** `handleStartQuiz`: play quiz `quizIndex` from its first question with nothing recorded. */
    method StartQuiz(quizIndex: nat)
      modifies this
      ensures currentQuizIndex == quizIndex && currentQuestionIndex == 0
      ensures selectedAnswer == None && !showResult
      ensures mode == Playing && answers == []
      ensures Valid()
    {
      currentQuizIndex := quizIndex;
      currentQuestionIndex := 0;
      selectedAnswer := None;
      showResult := false;
      mode := Playing;
      answers := [];
    }

    /** A click on an option selects it, unless the correction is already shown. */
    method ClickOption(index: int)
      modifies this
      ensures selectedAnswer == if old(showResult) then old(selectedAnswer) else Some(index)
      ensures currentQuizIndex == old(currentQuizIndex) && currentQuestionIndex == old(currentQuestionIndex)
      ensures showResult == old(showResult) && mode == old(mode) && answers == old(answers)
    {
      if !showResult {
        selectedAnswer := Some(index);
      }
    }

    /** `handleShowResult`: reveal the correction. */
    method RevealAnswer()
      modifies this
      ensures showResult
      ensures currentQuizIndex == old(currentQuizIndex) && currentQuestionIndex == old(currentQuestionIndex)
      ensures selectedAnswer == old(selectedAnswer) && mode == old(mode) && answers == old(answers)
    {
      showResult := true;
    }

    /** "Quitter le quiz": back to the list, the progress is kept. */
    method Quit()
      modifies this
      ensures mode == Selection
      ensures currentQuizIndex == old(currentQuizIndex) && currentQuestionIndex == old(currentQuestionIndex)
      ensures selectedAnswer == old(selectedAnswer) && showResult == old(showResult) && answers == old(answers)
      ensures Valid()
    {
      mode := Selection;
    }

    /**
     * `handleNextQuestion` for a quiz of `questionCount` questions: without a
     * selection nothing happens; otherwise the selection is recorded, and
     * the player moves to the next question or, after the last one, back to
     * the quiz list.
     */
    method NextQuestion(questionCount: nat)
      modifies this
      ensures old(selectedAnswer).None? ==> unchanged(this)
      ensures old(selectedAnswer).Some? ==> answers == old(answers) + [old(selectedAnswer).value]
      ensures old(selectedAnswer).Some? && old(currentQuestionIndex) < questionCount - 1 ==>
        && currentQuestionIndex == old(currentQuestionIndex) + 1
        && selectedAnswer == None && !showResult && mode == old(mode)
      ensures old(selectedAnswer).Some? && old(currentQuestionIndex) >= questionCount - 1 ==>
        && mode == Selection && currentQuestionIndex == old(currentQuestionIndex)
        && selectedAnswer == old(selectedAnswer) && showResult == old(showResult)
      ensures currentQuizIndex == old(currentQuizIndex)
      ensures old(currentQuestionIndex) < questionCount ==> currentQuestionIndex < questionCount
      ensures old(Valid()) ==> Valid()
      ensures (old(mode == Playing && Valid() && currentQuestionIndex < questionCount && selectedAnswer.Some?)
        && mode == Selection) ==> |answers| == questionCount
    {
      if selectedAnswer.Some? {
        answers := answers + [selectedAnswer.value];
        if currentQuestionIndex < questionCount - 1 {
          currentQuestionIndex := currentQuestionIndex + 1;
          selectedAnswer := None;
          showResult := false;
        } else {
          mode := Selection;
        }
      }
    }
  }

  /**
   * A full run of a two-question quiz: the answers recorded at the end fit
   * the questions, so the run can be scored.
   */
  method PlayTwoQuestions(q: Quiz, first: int, second: int) returns (score: int)
    requires |q.questions| == 2
    ensures score == CalculateScore([first, second], q.questions)
    ensures 0 <= score <= 100
  {
    var player := new QuizPlayer();
    player.StartQuiz(0);
    player.ClickOption(first);
    player.RevealAnswer();
    player.NextQuestion(|q.questions|);
    player.ClickOption(second);
    player.RevealAnswer();
    player.NextQuestion(|q.questions|);
    assert player.mode == Selection && player.answers == [first, second];
    score := CalculateScore(player.answers, q.questions);
  }
}
