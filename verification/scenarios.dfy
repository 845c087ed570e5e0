/**
 * Whole sessions driven through the public operations of the quiz game,
 * as its callers (the web routes and the terminal loop) drive them. Each
 * method plays a fresh session and reports what the player observes.
 */
module Scenarios {
  import opened AiSupport
  import opened Game

  /**
   * Start, use fifty-fifty, answer correctly: two wrong positions are
   * removed, then the next level's question arrives with nothing removed,
   * and fifty-fifty stays used.
   */
  method FiftyFiftyThenCorrect(db: seq<Question>, hasAiService: bool)
    returns (removed: seq<int>, correct: int, level: int, removedAfter: seq<int>, stillUsed: bool)
    requires HasLevel(db, 1) && HasLevel(db, 2)
    ensures |removed| == 2 && removed[0] != removed[1]
    ensures correct !in removed && removed[0] in {1, 2, 3, 4} && removed[1] in {1, 2, 3, 4}
    ensures level == 2 && removedAfter == [] && stillUsed
  {
    var game := new MillionaireGame(db, hasAiService);
    var _ := game.StartGame();
    var fiftyFifty := game.UseFiftyFifty();
    removed := fiftyFifty.value;
    correct := game.currentQuestion.value.correct;
    var _ := game.CheckAnswer(correct);
    level, removedAfter, stillUsed := game.currentLevel, game.removedAnswers, game.usedFiftyFifty;
  }

  /**
   * Change-question twice: the first use draws a question at the same
   * level, the second is refused and leaves level and question as they were.
   */
  method ChangeQuestionTwice(db: seq<Question>, hasAiService: bool)
    returns (first: LifelineResult<StateView>, second: LifelineResult<StateView>, level: int, sameQuestion: bool)
    requires HasLevel(db, 1)
    ensures first.Success? && first.value.StateView? && first.value.level == 1
    ensures !first.value.supports.changeQuestion && first.value.supports.fiftyFifty && first.value.supports.aiSupport
    ensures second == AlreadyUsed
    ensures level == 1 && sameQuestion
  {
    var game := new MillionaireGame(db, hasAiService);
    var _ := game.StartGame();
    first := game.UseChangeQuestion();
    var before := game.currentQuestion;
    second := game.UseChangeQuestion();
    level, sameQuestion := game.currentLevel, game.currentQuestion == before;
  }

  /**
   * A wrong answer ends the game: the result names the correct position
   * and the explanation of the question on screen, and the level is kept.
   */
  method WrongAnswer(db: seq<Question>, hasAiService: bool, answer: int)
    returns (shown: Question, result: AnswerResult, level: int)
    requires HasLevel(db, 1)
    ensures shown in db && shown.level == 1
    ensures answer != shown.correct ==>
      result == GameOver(shown.correct, answer, shown.explanation) && level == 1
    ensures answer == shown.correct ==> result.Correct? && level == 2
  {
    var game := new MillionaireGame(db, hasAiService);
    var _ := game.StartGame();
    shown := game.currentQuestion.value;
    result := game.CheckAnswer(answer);
    level := game.currentLevel;
  }

  /**
   * The AI hint is given once: the first use succeeds whatever the hint
   * service does, the second is refused, and neither changes the level,
   * the question or the removed positions.
   */
  method AiSupportTwice(db: seq<Question>, hasAiService: bool, call: HintCall)
    returns (shown: Question, first: LifelineResult<string>, second: LifelineResult<string>, untouched: bool)
    requires HasLevel(db, 1)
    ensures shown in db && shown.level == 1
    ensures first.Success? && second == AlreadyUsed && untouched
    ensures !hasAiService ==> first == Success(NoServiceHint(shown.explanation))
    ensures hasAiService && call.ServiceError? ==>
      first == Success("\U{1F916} AI Assistant: " + ApiErrorHint(shown.explanation))
  {
    var game := new MillionaireGame(db, hasAiService);
    var _ := game.StartGame();
    shown := game.currentQuestion.value;
    var question, removed, level := game.currentQuestion, game.removedAnswers, game.currentLevel;
    first := game.UseAiSupport(call);
    second := game.UseAiSupport(call);
    untouched := game.currentQuestion == question && game.removedAnswers == removed && game.currentLevel == level;
  }

  /**
   * A player who always answers correctly moves up one level per answer
   * and wins with the eighth answer, provided every level has a question.
   */
  method PerfectGame(db: seq<Question>, hasAiService: bool) returns (answers: nat, result: AnswerResult)
    requires forall level :: 1 <= level <= MaxLevel ==> HasLevel(db, level)
    ensures answers == MaxLevel && result.Won?
  {
    var game := new MillionaireGame(db, hasAiService);
    var _ := game.StartGame();
    answers, result := 0, NoQuestionError;
    while !result.Won?
      invariant game.Valid() && game.questionsDb == db
      invariant answers <= MaxLevel
      invariant result.Won? ==> answers == MaxLevel
      invariant !result.Won? ==>
        && game.currentLevel == answers + 1
        && game.currentQuestion.Some?
        && game.currentQuestion.value.level == game.currentLevel
      decreases MaxLevel - answers
    {
      result := game.CheckAnswer(game.currentQuestion.value.correct);
      answers := answers + 1;
    }
  }
}
