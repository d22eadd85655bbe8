/**
 * One ten-question stage of the times table of its number, as `class Stage`
 * of game.js: the current question, how many were answered and how many of
 * those were right.
 */
module Stages {
  import opened Options
  import opened Decimal

  const QuestionsPerStage := 10

  /** The question a × b, with the answer expected. */
  datatype Question = Question(a: int, b: int, answer: int)

  /** A question of the `multiplyBy` table: a is the table, b is in 1..9, the answer is their product. */
  predicate IsQuestionFor(multiplyBy: int, q: Question)
  {
    q.a == multiplyBy && 1 <= q.b <= 9 && q.answer == q.a * q.b
  }

  class Stage {
    const number: int
    const multiplyBy: int
    const totalQuestions: nat
    var currentQuestion: nat
    var correctAnswers: nat
    var question: Question

    /** The stage drills its own number, has ten questions and never scores more than it asked. */
    ghost predicate Valid()
      reads this
    {
      && multiplyBy == number
      && totalQuestions == QuestionsPerStage
      && correctAnswers <= currentQuestion
      && IsQuestionFor(multiplyBy, question)
    }

    /** A stage starts with both counters at 0 and its first question drawn (`draw` stands for the random b). */
    constructor (number: int, draw: int)
      requires 1 <= draw <= 9
      ensures Valid()
      ensures this.number == number && currentQuestion == 0 && correctAnswers == 0
      ensures question == Question(number, draw, number * draw)
    {
      this.number := number;
      multiplyBy := number;
      totalQuestions := QuestionsPerStage;
      currentQuestion, correctAnswers := 0, 0;
      question := Question(number, draw, number * draw);
    }

    /** generateQuestion: replaces the question by multiplyBy × draw. */
    method GenerateQuestion(draw: int)
      requires 1 <= draw <= 9
      modifies this`question
      ensures question == Question(multiplyBy, draw, multiplyBy * draw)
      ensures old(Valid()) ==> Valid()
    {
      question := Question(multiplyBy, draw, multiplyBy * draw);
    }

    /**
     * checkAnswer: `parsed` is the answer as parseInt read it (None for NaN).
     * Counts the question as asked and, when the answer is right, as correct.
     */
    method CheckAnswer(parsed: Option<int>) returns (isCorrect: bool)
      modifies this`currentQuestion, this`correctAnswers
      ensures isCorrect <==> parsed == Some(question.answer)
      ensures currentQuestion == old(currentQuestion) + 1
      ensures correctAnswers == old(correctAnswers) + (if isCorrect then 1 else 0)
      ensures old(Valid()) ==> Valid()
    {
      isCorrect := parsed == Some(question.answer);
      if isCorrect {
        correctAnswers := correctAnswers + 1;
      }
      currentQuestion := currentQuestion + 1;
    }

    /** isComplete */
    predicate IsComplete()
      reads this
    {
      currentQuestion >= totalQuestions
    }

    /** getProgress: the label "asked/total", from which both counts can be read back. */
    function GetProgress(): (s: string)
      reads this
      ensures ProgressCounts(s) == Some((currentQuestion, totalQuestions))
    {
      ProgressLabelRoundTrip(currentQuestion, totalQuestions);
      NatToString(currentQuestion) + "/" + NatToString(totalQuestions)
    }
  }

  predicate AllDigits(s: string)
  {
    forall i :: 0 <= i < |s| ==> IsDigit(s[i])
  }

  /** The position of the first '/' in `s`, if any. */
  function SlashIndex(s: string): (r: Option<nat>)
    ensures r.Some? ==> r.value < |s| && s[r.value] == '/' && forall i :: 0 <= i < r.value ==> s[i] != '/'
    ensures r.None? ==> forall i :: 0 <= i < |s| ==> s[i] != '/'
  {
    if |s| == 0 then None
    else if s[0] == '/' then Some(0)
    else match SlashIndex(s[1..])
      case Some(k) => Some(k + 1)
      case None => None
  }

  /** Reads a label "asked/total" of two decimal numbers back into its counts. */
  function ProgressCounts(s: string): Option<(nat, nat)>
  {
    match SlashIndex(s)
    case None => None
    case Some(k) =>
      if 0 < k < |s| - 1 && AllDigits(s[..k]) && AllDigits(s[k + 1..])
      then Some((ParseNat(s[..k]), ParseNat(s[k + 1..])))
      else None
  }

  lemma ProgressLabelRoundTrip(asked: nat, total: nat)
    ensures ProgressCounts(NatToString(asked) + "/" + NatToString(total)) == Some((asked, total))
  {
    var a, t := NatToString(asked), NatToString(total);
    var s := a + "/" + t;
    assert s[|a|] == '/';
    assert forall i :: 0 <= i < |a| ==> s[i] == a[i];
    assert SlashIndex(s) == Some(|a|);
    assert s[..|a|] == a;
    assert s[|a| + 1..] == t;
    ParseNatToString(asked);
    ParseNatToString(total);
  }

  /** The number of answers that match the product of the stage number and the draw of their question. */
  function Score(number: int, draws: seq<int>, answers: seq<Option<int>>): nat
    requires |draws| == |answers|
  {
    if |answers| == 0 then 0
    else Score(number, draws[..|draws| - 1], answers[..|answers| - 1])
         + (if answers[|answers| - 1] == Some(number * draws[|draws| - 1]) then 1 else 0)
  }

  /**
   * Plays one stage through as the game does: start it on draws[0], then for
   * each answer check it, and ask the next drawn question while the stage is
   * not complete. The stage is incomplete after each of the first nine answers
   * and complete right after the tenth, and the score counts exactly the
   * answers equal to number × draw.
   */
  method PlayStage(number: int, draws: seq<int>, answers: seq<Option<int>>) returns (completion: seq<bool>, score: nat)
    requires |draws| == QuestionsPerStage && |answers| == QuestionsPerStage
    requires forall i :: 0 <= i < |draws| ==> 1 <= draws[i] <= 9
    ensures |completion| == QuestionsPerStage
    ensures forall i :: 0 <= i < |completion| ==> (completion[i] <==> i == QuestionsPerStage - 1)
    ensures score == Score(number, draws, answers) <= QuestionsPerStage
  {
    var stage := new Stage(number, draws[0]);
    completion := [];
    while |completion| < QuestionsPerStage
      invariant stage.Valid() && stage.number == number
      invariant |completion| <= QuestionsPerStage
      invariant stage.currentQuestion == |completion|
      invariant stage.correctAnswers == Score(number, draws[..|completion|], answers[..|completion|])
      invariant |completion| < QuestionsPerStage ==> stage.question.b == draws[|completion|]
      invariant forall i :: 0 <= i < |completion| ==> (completion[i] <==> i == QuestionsPerStage - 1)
    {
      var i := |completion|;
      var _ := stage.CheckAnswer(answers[i]);
      assert draws[..i + 1][..i] == draws[..i] && answers[..i + 1][..i] == answers[..i];
      var done := stage.IsComplete();
      completion := completion + [done];
      if !done {
        stage.GenerateQuestion(draws[i + 1]);
      }
    }
    assert draws[..QuestionsPerStage] == draws && answers[..QuestionsPerStage] == answers;
    score := stage.correctAnswers;
  }
}
