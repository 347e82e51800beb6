/**
 * The word-quiz controller: seven pieces of component state and the handlers that move
 * between the Initial, Loading, Playing and Finished screens.
 *
 * Each handler is specified by a function from the state before to the state after
 * (`Began`, `Completed`, `Typed`, `Submitted`, `Advanced`); class `App` holds the state
 * as fields and its methods are proved to perform exactly those steps. The async
 * `startGame` is split at its one `await` into `BeginStart` and `CompleteStart`.
 * The handlers do not look at the current screen themselves; which of them can run is
 * decided by what the screen renders, and those render conditions are the preconditions.
 */
module QuizApp {
  import opened Wrappers
  import opened Types
  import opened Text
  import GeminiService

  /** What the `catch` of `startGame` receives: an `Error` with its message, or any other value. */
  datatype Thrown = ErrorObject(message: string) | OtherValue

  const UnknownErrorMessage: string := "알 수 없는 오류가 발생했습니다."
  const CorrectMessage: string := "정답입니다!"
  const IncorrectPrefix: string := "오답입니다. 정답: "
  const NoFeedback: Feedback := Feedback(FeedbackType.None, "")

  /** The component state: `gameState`, `quizData`, `currentQuestionIndex`, `userAnswer`, `score`, `feedback`, `error`. */
  datatype Session = Session(
    gameState: GameState,
    quizData: seq<QuizQuestion>,
    currentQuestionIndex: nat,
    userAnswer: string,
    score: nat,
    feedback: Feedback,
    error: Option<string>)

  /** The values the state hooks start with. */
  const InitialSession: Session := Session(Initial, [], 0, "", 0, NoFeedback, Option.None)

  /** The message `startGame` stores for a thrown value. */
  function ErrorMessage(thrown: Thrown): (message: string)
    ensures thrown.ErrorObject? ==> message == thrown.message
    ensures thrown.OtherValue? ==> message == UnknownErrorMessage
  {
    match thrown
    case ErrorObject(message) => message
    case OtherValue => UnknownErrorMessage
  }

  /**
   * The answer check: the trimmed, lower-cased input equals the lower-cased word (the word is
   * not trimmed). Put differently: the trimmed answer has the word's length and matches it
   * character by character, ignoring ASCII case.
   */
  function IsCorrect(answer: string, word: string): (ok: bool)
    ensures ok <==> |Trim(answer)| == |word|
                    && forall i :: 0 <= i < |word| ==> LowerChar(Trim(answer)[i]) == LowerChar(word[i])
  {
    Lower(Trim(answer)) == Lower(word)
  }

  predicate EndsWith(s: string, suffix: string) {
    |suffix| <= |s| && s[|s| - |suffix|..] == suffix
  }

  /** 1 once the current question has been answered, 0 before. */
  function Answered(s: Session): nat {
    if s.feedback.kind == FeedbackType.None then 0 else 1
  }

  /**
   * What holds in every reachable state. While loading, no answer is judged. While playing,
   * the index addresses a question (the fetched list may be empty, and then nothing has been
   * answered). The game finishes only at the last question, after it was answered. The score
   * never exceeds the number of questions answered so far.
   */
  predicate Inv(s: Session) {
    && (s.gameState == Loading ==> s.feedback.kind == FeedbackType.None)
    && (s.gameState == Playing ==>
          if s.quizData == [] then s.currentQuestionIndex == 0 && s.feedback.kind == FeedbackType.None
          else s.currentQuestionIndex < |s.quizData|)
    && (s.gameState == Finished ==>
          s.quizData != [] && s.currentQuestionIndex == |s.quizData| - 1 && s.feedback.kind != FeedbackType.None)
    && (s.gameState == Playing || s.gameState == Finished ==> s.score <= s.currentQuestionIndex + Answered(s))
  }

  /** First half of `startGame` (before the `await`); its button is shown only on the Initial and Finished screens. */
  function Began(s: Session): (t: Session)
    requires s.gameState == Initial || s.gameState == Finished
    ensures t.gameState == Loading && t.error == Option.None && t.feedback == NoFeedback
    ensures t.quizData == s.quizData && t.currentQuestionIndex == s.currentQuestionIndex
    ensures t.score == s.score && t.userAnswer == s.userAnswer
    ensures Inv(t)
  {
    s.(gameState := Loading, error := Option.None, feedback := NoFeedback)
  }

  /** Second half of `startGame`: the fetched questions start a new game; a thrown value returns to Initial. */
  function Completed(s: Session, outcome: Result<seq<QuizQuestion>, Thrown>): (t: Session)
    requires s.gameState == Loading
    ensures outcome.Success? ==>
      && t.gameState == Playing && t.quizData == outcome.value
      && t.currentQuestionIndex == 0 && t.score == 0 && t.userAnswer == ""
    ensures outcome.Failure? ==>
      && t.gameState == Initial && t.error == Option.Some(ErrorMessage(outcome.error))
      && t.quizData == s.quizData && t.currentQuestionIndex == s.currentQuestionIndex
      && t.score == s.score && t.userAnswer == s.userAnswer
    ensures t.feedback == s.feedback
    ensures outcome.Success? ==> t.error == s.error
    ensures Inv(s) ==> Inv(t)
  {
    match outcome
    case Success(data) =>
      s.(quizData := data, currentQuestionIndex := 0, score := 0, userAnswer := "", gameState := Playing)
    case Failure(thrown) =>
      s.(error := Option.Some(ErrorMessage(thrown)), gameState := Initial)
  }

  /**
   * The answer field's `onChange`; the field is enabled only while playing and unanswered,
   * and the Playing screen cannot render without a current question.
   */
  function Typed(s: Session, text: string): (t: Session)
    requires s.gameState == Playing && s.currentQuestionIndex < |s.quizData| && s.feedback.kind == FeedbackType.None
    ensures t.userAnswer == text && t == s.(userAnswer := text)
    ensures Inv(s) ==> Inv(t)
  {
    s.(userAnswer := text)
  }

  /**
   * `handleAnswerSubmit`: judges the typed answer against the current word once; after
   * that it is locked until the next question. The form exists only on the Playing
   * screen, which cannot render without a current question.
   */
  function Submitted(s: Session): (t: Session)
    requires s.gameState == Playing && s.currentQuestionIndex < |s.quizData|
    ensures s.feedback.kind != FeedbackType.None ==> t == s
    ensures && t.gameState == s.gameState && t.quizData == s.quizData
            && t.currentQuestionIndex == s.currentQuestionIndex
            && t.userAnswer == s.userAnswer && t.error == s.error
    ensures s.feedback.kind == FeedbackType.None ==>
      && t.feedback.kind != FeedbackType.None
      && (t.feedback.kind == FeedbackType.Correct <==>
            IsCorrect(s.userAnswer, s.quizData[s.currentQuestionIndex].word))
      && (t.feedback.kind == FeedbackType.Correct ==> t.score == s.score + 1)
      && (t.feedback.kind == FeedbackType.Incorrect ==>
            t.score == s.score && EndsWith(t.feedback.message, s.quizData[s.currentQuestionIndex].word))
    ensures Inv(s) ==> Inv(t)
  {
    if s.feedback.kind != FeedbackType.None then s
    else
      var correctAnswer := s.quizData[s.currentQuestionIndex].word;
      if IsCorrect(s.userAnswer, correctAnswer) then
        s.(feedback := Feedback(FeedbackType.Correct, CorrectMessage), score := s.score + 1)
      else
        s.(feedback := Feedback(FeedbackType.Incorrect, IncorrectPrefix + correctAnswer))
  }

  /**
   * `handleNextQuestion`: moves to the next question, or to the Finished screen from the
   * last one. Its button replaces the submit button once the answer has been judged.
   */
  function Advanced(s: Session): (t: Session)
    requires s.gameState == Playing && s.feedback.kind != FeedbackType.None
    ensures s.currentQuestionIndex < |s.quizData| - 1 ==>
      && t.gameState == Playing && t.currentQuestionIndex == s.currentQuestionIndex + 1
      && t.userAnswer == "" && t.feedback == NoFeedback
      && t.quizData == s.quizData && t.score == s.score && t.error == s.error
    ensures s.currentQuestionIndex >= |s.quizData| - 1 ==> t == s.(gameState := Finished)
    ensures t.gameState == Finished <==> s.currentQuestionIndex >= |s.quizData| - 1
    ensures Inv(s) ==> Inv(t)
  {
    if s.currentQuestionIndex < |s.quizData| - 1 then
      s.(currentQuestionIndex := s.currentQuestionIndex + 1, userAnswer := "", feedback := NoFeedback)
    else
      s.(gameState := Finished)
  }

  /** The bounds the Playing and Finished screens rely on, once some questions were fetched. */
  lemma BoundsWhilePlaying(s: Session)
    requires Inv(s) && (s.gameState == Playing || s.gameState == Finished) && s.quizData != []
    ensures 0 <= s.currentQuestionIndex < |s.quizData|
    ensures s.score <= s.currentQuestionIndex + 1 <= |s.quizData|
  {
  }

  /**
   * An accepted empty reply leads to Playing with no questions. There the Playing screen has no
   * current question to show, and no handler can run: there is no start button (not
   * Initial or Finished), no next button (nothing judged), and nothing to type or submit.
   */
  lemma EmptyGameIsStuck(s: Session)
    requires Inv(s) && s.gameState == Playing && s.quizData == []
    ensures s.gameState != Initial && s.gameState != Finished
    ensures s.feedback.kind == FeedbackType.None
    ensures !(s.currentQuestionIndex < |s.quizData|)
  {
  }

  /** A successful start begins a fresh game on exactly the fetched questions. */
  lemma StartSucceeds(s: Session, data: seq<QuizQuestion>)
    requires s.gameState == Initial || s.gameState == Finished
    ensures Completed(Began(s), Success(data)) == Session(Playing, data, 0, "", 0, NoFeedback, Option.None)
  {
  }

  /** A failed start shows the message on the Initial screen; only the feedback was reset. */
  lemma StartFails(s: Session, thrown: Thrown)
    requires s.gameState == Initial || s.gameState == Finished
    ensures Completed(Began(s), Failure(thrown))
         == s.(gameState := Initial, error := Option.Some(ErrorMessage(thrown)), feedback := NoFeedback)
  {
  }

  /**
   * Starting against the service: every failure shows the service's one fixed message and
   * keeps the previous questions; an accepted reply of string-valued items becomes the
   * question list, same length and order.
   */
  lemma StartWithService(s: Session, apiKey: Option<string>, reply: GeminiService.Reply)
    requires s.gameState == Initial || s.gameState == Finished
    ensures var r := GeminiService.FetchQuizData(apiKey, reply);
      r.Failure? ==>
        var t := Completed(Began(s), Failure(ErrorObject(r.error)));
        t.gameState == Initial && t.error == Option.Some(GeminiService.FetchFailedMessage) && t.quizData == s.quizData
    ensures var r := GeminiService.FetchQuizData(apiKey, reply);
      r.Success? && (forall i :: 0 <= i < |r.value| ==> GeminiService.HasStringFields(r.value[i])) ==>
        var t := Completed(Began(s), Success(GeminiService.AsQuizQuestions(r.value)));
        t.gameState == Playing && |t.quizData| == |reply.value.items|
        && forall i :: 0 <= i < |t.quizData| ==> t.quizData[i] == GeminiService.AsQuizQuestion(reply.value.items[i])
  {
  }

  /** Submitting again before moving on changes nothing. */
  lemma SubmitTwiceIsSubmitOnce(s: Session)
    requires s.gameState == Playing && s.currentQuestionIndex < |s.quizData|
    ensures Submitted(Submitted(s)) == Submitted(s)
  {
  }

  /** One question played: type an answer, submit it, move on. */
  function Round(s: Session, answer: string): (t: Session)
    requires s.gameState == Playing && s.feedback.kind == FeedbackType.None
    requires s.currentQuestionIndex < |s.quizData|
  {
    Advanced(Submitted(Typed(s, answer)))
  }

  /** Plays one round per answer while a question is waiting for one. */
  function PlayRounds(s: Session, answers: seq<string>): Session
    decreases |answers|
  {
    if answers == [] then s
    else if s.gameState == Playing && s.feedback.kind == FeedbackType.None && s.currentQuestionIndex < |s.quizData|
    then PlayRounds(Round(s, answers[0]), answers[1..])
    else s
  }

  /** How many of the answers are correct for the questions at the same positions. */
  function CorrectCount(answers: seq<string>, questions: seq<QuizQuestion>): nat
    requires |answers| <= |questions|
  {
    if answers == [] then 0
    else (if IsCorrect(answers[0], questions[0].word) then 1 else 0) + CorrectCount(answers[1..], questions[1..])
  }

  /** The count is all of the answers exactly when each of them is correct. */
  lemma {:induction false} AllCorrectCount(answers: seq<string>, questions: seq<QuizQuestion>)
    requires |answers| <= |questions|
    ensures CorrectCount(answers, questions) <= |answers|
    ensures CorrectCount(answers, questions) == |answers| <==>
      forall i :: 0 <= i < |answers| ==> IsCorrect(answers[i], questions[i].word)
  {
    if answers != [] {
      AllCorrectCount(answers[1..], questions[1..]);
      assert forall i :: 1 <= i < |answers| ==> answers[i] == answers[1..][i - 1] && questions[i] == questions[1..][i - 1];
    }
  }

  /** The count is zero exactly when none of the answers is correct. */
  lemma {:induction false} NoneCorrectCount(answers: seq<string>, questions: seq<QuizQuestion>)
    requires |answers| <= |questions|
    ensures CorrectCount(answers, questions) == 0 <==>
      forall i :: 0 <= i < |answers| ==> !IsCorrect(answers[i], questions[i].word)
  {
    if answers != [] {
      NoneCorrectCount(answers[1..], questions[1..]);
      assert forall i :: 1 <= i < |answers| ==> answers[i] == answers[1..][i - 1] && questions[i] == questions[1..][i - 1];
    }
  }

  /**
   * From an unanswered question, answering every remaining question finishes the game at
   * the last index with one point added per correct answer.
   */
  lemma {:induction false} PlayToEnd(s: Session, answers: seq<string>)
    requires s.gameState == Playing && s.feedback.kind == FeedbackType.None
    requires s.currentQuestionIndex < |s.quizData|
    requires |answers| == |s.quizData| - s.currentQuestionIndex
    ensures var t := PlayRounds(s, answers);
      && t.gameState == Finished && t.quizData == s.quizData
      && t.currentQuestionIndex == |s.quizData| - 1
      && t.score == s.score + CorrectCount(answers, s.quizData[s.currentQuestionIndex..])
    decreases |answers|
  {
    var r := Round(s, answers[0]);
    var rest := s.quizData[s.currentQuestionIndex..];
    if |answers| > 1 {
      PlayToEnd(r, answers[1..]);
      assert rest[1..] == s.quizData[r.currentQuestionIndex..];
    } else {
      assert PlayRounds(r, answers[1..]) == r;
    }
  }

  /** A full game from the start: the final score is the number of correct answers. */
  lemma FullGame(s: Session, data: seq<QuizQuestion>, answers: seq<string>)
    requires s.gameState == Initial || s.gameState == Finished
    requires data != [] && |answers| == |data|
    ensures var t := PlayRounds(Completed(Began(s), Success(data)), answers);
      t.gameState == Finished && t.score == CorrectCount(answers, data)
    ensures (forall i :: 0 <= i < |data| ==> IsCorrect(answers[i], data[i].word)) ==>
      PlayRounds(Completed(Began(s), Success(data)), answers).score == |data|
    ensures (forall i :: 0 <= i < |data| ==> !IsCorrect(answers[i], data[i].word)) ==>
      PlayRounds(Completed(Began(s), Success(data)), answers).score == 0
  {
    var start := Completed(Began(s), Success(data));
    PlayToEnd(start, answers);
    assert data[0..] == data;
    AllCorrectCount(answers, data);
    NoneCorrectCount(answers, data);
  }

  /** Surrounding spaces and letter case in the answer are ignored. */
  lemma PaddedAnswerAccepted()
    ensures IsCorrect(" Apple ", "apple")
  {
    assert " Apple "[1..] == "Apple ";
    assert LeadingSpace("Apple ") == 0;
    assert LeadingSpace(" Apple ") == 1;
    assert "Apple "[..5] == "Apple";
    assert TrailingSpace("Apple") == 0;
    assert TrailingSpace("Apple ") == 1;
    assert Trim(" Apple ") == "Apple";
    assert Lower("Apple") == "apple";
  }

  /** The word must match whole: a longer answer is wrong. */
  lemma LongerAnswerRejected()
    ensures !IsCorrect("apples", "apple")
  {
    assert LeadingSpace("apples") == 0;
    assert TrailingSpace("apples") == 0;
    assert Trim("apples") == "apples";
  }

  /** The stored word is not trimmed: a word with a leading space never matches a trimmed answer. */
  lemma WordNotTrimmed(answer: string)
    ensures !IsCorrect(answer, " apple")
  {
    assert Lower(" apple")[0] == ' ';
  }

  /** The quiz component: the seven state hooks as fields, one method per handler. */
  class App {
    var gameState: GameState
    var quizData: seq<QuizQuestion>
    var currentQuestionIndex: nat
    var userAnswer: string
    var score: nat
    var feedback: Feedback
    var error: Option<string>

    /** The fields as one value. */
    function State(): Session
      reads this
    {
      Session(gameState, quizData, currentQuestionIndex, userAnswer, score, feedback, error)
    }

    predicate Valid()
      reads this
    {
      Inv(State())
    }

    constructor ()
      ensures Valid() && State() == InitialSession
    {
      gameState := Initial;
      quizData := [];
      currentQuestionIndex := 0;
      userAnswer := "";
      score := 0;
      feedback := NoFeedback;
      error := Option.None;
    }

    /** `startGame` up to its `await`. */
    method BeginStart()
      requires Valid() && (gameState == Initial || gameState == Finished)
      modifies this
      ensures Valid() && State() == Began(old(State()))
    {
      gameState := Loading;
      error := Option.None;
      feedback := NoFeedback;
    }

    /** `startGame` after its `await`, given what `fetchQuizData` returned or threw. */
    method CompleteStart(outcome: Result<seq<QuizQuestion>, Thrown>)
      requires Valid() && gameState == Loading
      modifies this
      ensures Valid() && State() == Completed(old(State()), outcome)
    {
      match outcome {
        case Success(data) =>
          quizData := data;
          currentQuestionIndex := 0;
          score := 0;
          userAnswer := "";
          gameState := Playing;
        case Failure(thrown) =>
          error := Option.Some(ErrorMessage(thrown));
          gameState := Initial;
      }
    }

    /** The answer field's `onChange`. */
    method SetUserAnswer(text: string)
      requires Valid() && gameState == Playing && currentQuestionIndex < |quizData| && feedback.kind == FeedbackType.None
      modifies this
      ensures Valid() && State() == Typed(old(State()), text)
    {
      userAnswer := text;
    }

    /** `handleAnswerSubmit`. */
    method HandleAnswerSubmit()
      requires Valid() && gameState == Playing && currentQuestionIndex < |quizData|
      modifies this
      ensures Valid() && State() == Submitted(old(State()))
    {
      if feedback.kind != FeedbackType.None {
        return;
      }
      var correctAnswer := quizData[currentQuestionIndex].word;
      if IsCorrect(userAnswer, correctAnswer) {
        feedback := Feedback(FeedbackType.Correct, CorrectMessage);
        score := score + 1;
      } else {
        feedback := Feedback(FeedbackType.Incorrect, IncorrectPrefix + correctAnswer);
      }
    }

    /** `handleNextQuestion`. */
    method HandleNextQuestion()
      requires Valid() && gameState == Playing && feedback.kind != FeedbackType.None
      modifies this
      ensures Valid() && State() == Advanced(old(State()))
    {
      if currentQuestionIndex < |quizData| - 1 {
        currentQuestionIndex := currentQuestionIndex + 1;
        userAnswer := "";
        feedback := NoFeedback;
      } else {
        gameState := Finished;
      }
    }
  }
}
