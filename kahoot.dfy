/** The quiz game (`src/components/kahoot.js`): a fixed list of questions, a
    current question, a score, a countdown value, a time-out flag and the
    selected option, changed by the answer, retry and next handlers.

    Each handler sets several pieces of React state from the values it read
    when it started; none of them reads a piece it has already set, so applying
    the setters one after the other, as the methods below do, gives the same
    state as React's batched update. */
module Kahoot {
  import opened Util

  datatype Question = Question(question: string, options: seq<string>, correctAnswer: nat)

  /** The two questions the game asks. */
  const Questions: seq<Question> := [
    Question("What's the capital of France?", ["London", "Paris", "Berlin"], 1),
    Question("What's the largest ocean in the world?", ["Atlantic Ocean", "Indian Ocean", "Pacific Ocean"], 2)
  ]

  /** The countdown starts at, and is reset to, ten seconds. */
  const TimeLimit: int := 10

  /** The game's state at one moment. */
  datatype Snapshot = Snapshot(currentQuestion: nat, score: nat, timeLeft: int, showTimeout: bool,
                               selectedOption: Option<int>)

  /** What the player can do: pick an option, or, on the time-out screen, retry or go on. */
  datatype Event = Answer(option: int) | Retry | Next

  const Initial: Snapshot := Snapshot(0, 0, TimeLimit, false, None)

  /** `goToNextQuestion`: moves to the next question with a fresh countdown and
      no selection, unless the current question is the last one. */
  function Advance(s: Snapshot): (r: Snapshot)
    requires s.currentQuestion < |Questions|
    ensures r.currentQuestion < |Questions| && r.score == s.score && r.showTimeout == s.showTimeout
    ensures s.currentQuestion < |Questions| - 1 ==>
              r.currentQuestion == s.currentQuestion + 1 && r.timeLeft == TimeLimit && r.selectedOption == None
    ensures s.currentQuestion == |Questions| - 1 ==> r == s
  {
    if s.currentQuestion < |Questions| - 1 then
      s.(currentQuestion := s.currentQuestion + 1, timeLeft := TimeLimit, selectedOption := None)
    else
      s
  }

  /** One handler run: `handleAnswer`, `handleRetry` or `handleNext`. */
  function Step(s: Snapshot, e: Event): (r: Snapshot)
    requires s.currentQuestion < |Questions|
    ensures r.currentQuestion < |Questions|
    ensures r.score == s.score + (if e.Answer? && e.option == Questions[s.currentQuestion].correctAnswer then 1 else 0)
  {
    match e
    case Answer(option) =>
      var scored := if option == Questions[s.currentQuestion].correctAnswer then s.score + 1 else s.score;
      Advance(s.(selectedOption := Some(option), score := scored))
    case Retry =>
      s.(showTimeout := false, timeLeft := TimeLimit)
    case Next =>
      Advance(s.(showTimeout := false))
  }

  /** The state after a series of handler runs. */
  function Play(s: Snapshot, events: seq<Event>): (r: Snapshot)
    requires s.currentQuestion < |Questions|
    ensures r.currentQuestion < |Questions|
    ensures s.score <= r.score <= s.score + |events|
    ensures s.currentQuestion <= r.currentQuestion
    decreases |events|
  {
    if events == [] then s else Play(Step(s, events[0]), events[1..])
  }

  /** How many of the answers in `events` match the question on screen when
      they are given. */
  function CorrectAnswers(s: Snapshot, events: seq<Event>): (n: nat)
    requires s.currentQuestion < |Questions|
    ensures n <= |events|
    decreases |events|
  {
    if events == [] then 0
    else
      var hit := if events[0].Answer? && events[0].option == Questions[s.currentQuestion].correctAnswer then 1 else 0;
      hit + CorrectAnswers(Step(s, events[0]), events[1..])
  }

  /** The score only ever counts correct answers: after any series of
      handler runs it has grown by exactly their number. */
  lemma {:induction false} ScoreCountsCorrectAnswers(s: Snapshot, events: seq<Event>)
    requires s.currentQuestion < |Questions|
    ensures Play(s, events).score == s.score + CorrectAnswers(s, events)
    decreases |events|
  {
    if events != [] {
      ScoreCountsCorrectAnswers(Step(s, events[0]), events[1..]);
    }
  }

  /** The end-of-game branch does nothing, so at the last question the game
      stays put, and answering it correctly `n` more times scores `n` more points. */
  lemma {:induction false} LastQuestionKeepsScoring(s: Snapshot, n: nat)
    requires s.currentQuestion == |Questions| - 1
    ensures var r := Play(s, seq(n, _ => Answer(Questions[|Questions| - 1].correctAnswer)));
            && r.currentQuestion == |Questions| - 1
            && r.score == s.score + n
            && (n > 0 ==> r.selectedOption == Some(Questions[|Questions| - 1].correctAnswer as int))
    decreases n
  {
    var c := Questions[|Questions| - 1].correctAnswer;
    if n > 0 {
      var events := seq(n, _ => Answer(c));
      assert events[1..] == seq(n - 1, _ => Answer(c));
      LastQuestionKeepsScoring(Step(s, Answer(c)), n - 1);
    }
  }

  /** The correct option of every question from the `q`-th on, in order. */
  function AnswerKey(q: nat): (key: seq<Event>)
    requires q <= |Questions|
    ensures |key| == |Questions| - q
    ensures forall i | 0 <= i < |key| :: key[i] == Answer(Questions[q + i].correctAnswer)
    decreases |Questions| - q
  {
    if q == |Questions| then [] else [Answer(Questions[q].correctAnswer)] + AnswerKey(q + 1)
  }

  /** From any state, answering each remaining question with its correct
      option scores one point per remaining question and ends on the last
      question; from the start, that is the full score of one per question. */
  lemma {:induction false} AnswerKeyScoresAll(s: Snapshot)
    requires s.currentQuestion < |Questions|
    ensures var r := Play(s, AnswerKey(s.currentQuestion));
            && r.score == s.score + (|Questions| - s.currentQuestion)
            && r.currentQuestion == |Questions| - 1
    decreases |Questions| - s.currentQuestion
  {
    var key := AnswerKey(s.currentQuestion);
    var next := Step(s, key[0]);
    if s.currentQuestion < |Questions| - 1 {
      assert key[1..] == AnswerKey(s.currentQuestion + 1);
      AnswerKeyScoresAll(next);
    } else {
      assert key[1..] == [];
    }
  }

  /* ------------------------------------------------------------------ state */

  /** The component's state. */
  class Game {
    var currentQuestion: nat
    var score: nat
    var timeLeft: int
    var showTimeout: bool
    var selectedOption: Option<int>

    function Snap(): Snapshot
      reads this
    {
      Snapshot(currentQuestion, score, timeLeft, showTimeout, selectedOption)
    }

    /** The current question is one of the questions. */
    ghost predicate Valid()
      reads this
    {
      currentQuestion < |Questions|
    }

    constructor ()
      ensures Valid() && Snap() == Initial
    {
      currentQuestion, score, timeLeft, showTimeout, selectedOption := 0, 0, TimeLimit, false, None;
    }

    /** `goToNextQuestion`. */
    method GoToNextQuestion()
      requires Valid()
      modifies this
      ensures Valid() && Snap() == Advance(old(Snap()))
      ensures old(currentQuestion) < |Questions| - 1 ==>
                currentQuestion == old(currentQuestion) + 1 && timeLeft == TimeLimit && selectedOption == None
      ensures old(currentQuestion) == |Questions| - 1 ==> Snap() == old(Snap())
      ensures score == old(score) && showTimeout == old(showTimeout)
    {
      if currentQuestion < |Questions| - 1 {
        currentQuestion := currentQuestion + 1;
        timeLeft := TimeLimit;
        selectedOption := None;
      }
    }

    /** `handleAnswer(option)`: records the selection, scores a point for the
        correct option, and moves on. */
    method HandleAnswer(option: int)
      requires Valid()
      modifies this
      ensures Valid() && Snap() == Step(old(Snap()), Answer(option))
      ensures score == old(score) + (if option == Questions[old(currentQuestion)].correctAnswer then 1 else 0)
      ensures old(currentQuestion) < |Questions| - 1 ==> selectedOption == None
      ensures old(currentQuestion) == |Questions| - 1 ==>
                selectedOption == Some(option) && currentQuestion == old(currentQuestion)
      ensures showTimeout == old(showTimeout)
    {
      selectedOption := Some(option);
      if option == Questions[currentQuestion].correctAnswer {
        score := score + 1;
      }
      GoToNextQuestion();
    }

    /** `handleRetry`: leaves the time-out screen with a fresh countdown on the same question. */
    method HandleRetry()
      requires Valid()
      modifies this
      ensures Valid() && Snap() == Step(old(Snap()), Retry)
      ensures !showTimeout && timeLeft == TimeLimit
      ensures currentQuestion == old(currentQuestion) && score == old(score) && selectedOption == old(selectedOption)
    {
      showTimeout := false;
      timeLeft := TimeLimit;
    }

    /** `handleNext`: leaves the time-out screen and moves on as `goToNextQuestion` does. */
    method HandleNext()
      requires Valid()
      modifies this
      ensures Valid() && Snap() == Step(old(Snap()), Next)
      ensures !showTimeout && score == old(score)
    {
      showTimeout := false;
      GoToNextQuestion();
    }
  }
}
