/**
 * The quiz session of gamelogic.py: one player's progress through eight
 * levels of multiple-choice questions, with three lifelines that can each
 * be used once per game.
 *
 * The question file is given to the constructor as a sequence of records.
 * Random draws are nondeterministic choices among the legal outcomes. The
 * AI hint service is reduced to whether it could be set up and, per call,
 * what it returned.
 */
module Game {
  import opened Strings
  import opened AiSupport

  /** The highest level; a correct answer here wins the game. */
  const MaxLevel: int := 8

  datatype Option<T> = None | Some(value: T)

  /** One record of the question file; answers are addressed as 1..4. */
  datatype Question = Question(
    level: int,
    question: string,
    answer1: string,
    answer2: string,
    answer3: string,
    answer4: string,
    correct: int,
    explanation: string)

  /** Which lifelines are still available. */
  datatype Supports = Supports(fiftyFifty: bool, changeQuestion: bool, aiSupport: bool)

  /** What the player is shown; it holds neither the correct answer nor the explanation. */
  datatype StateView =
    | NoQuestionAvailable
    | StateView(level: int, question: string, answers: map<int, string>,
                removedAnswers: seq<int>, supports: Supports)

  /** The outcome of answering the current question. */
  datatype AnswerResult =
    | NoQuestionError
    | Won(correctAnswer: int)
    | Correct(correctAnswer: int, newState: StateView)
    | GameOver(correctAnswer: int, yourAnswer: int, explanation: string)

  /** The outcome of a lifeline: its result, or the error for a second use. */
  datatype LifelineResult<T> = Success(value: T) | AlreadyUsed

  /**
   * What asking the AI hint service for a hint did: the service answered
   * with a (stripped) text; the service call failed and get_ai_hint caught
   * the error; or get_ai_hint itself raised, which its own error handling
   * leaves almost no room for.
   */
  datatype HintCall = Returned(hint: string) | ServiceError | Raised

  /** Some record of the question file is at `level`. */
  predicate HasLevel(db: seq<Question>, level: int)
  {
    exists q :: q in db && q.level == level
  }

  /** The records of the question file at `level`, in file order. */
  function AtLevel(db: seq<Question>, level: int): (candidates: seq<Question>)
  {
    if db == [] then []
    else AtLevel(db[..|db| - 1], level) + (if db[|db| - 1].level == level then [db[|db| - 1]] else [])
  }

  /** A record is a candidate exactly when it is in the file and at the level. */
  lemma {:induction false} AtLevelMembers(db: seq<Question>, level: int)
    ensures forall q :: q in AtLevel(db, level) <==> q in db && q.level == level
  {
    if db != [] {
      var init := db[..|db| - 1];
      AtLevelMembers(init, level);
      assert db == init + [db[|db| - 1]];
    }
  }

  /** There is a candidate exactly when some record is at the level. */
  lemma AtLevelEmpty(db: seq<Question>, level: int)
    ensures AtLevel(db, level) == [] <==> !HasLevel(db, level)
  {
    AtLevelMembers(db, level);
    if AtLevel(db, level) != [] {
      assert AtLevel(db, level)[0] in AtLevel(db, level);
    }
  }

  /** The candidate list of select_new_question, built in one pass over the file. */
  method QuestionsAtLevel(db: seq<Question>, level: int) returns (candidates: seq<Question>)
    ensures candidates == AtLevel(db, level)
    ensures forall q :: q in candidates <==> q in db && q.level == level
  {
    candidates := [];
    var i := 0;
    while i < |db|
      invariant 0 <= i <= |db|
      invariant candidates == AtLevel(db[..i], level)
    {
      assert db[..i + 1][..i] == db[..i];
      if db[i].level == level {
        candidates := candidates + [db[i]];
      }
      i := i + 1;
    }
    assert db[..|db|] == db;
    AtLevelMembers(db, level);
  }

  /** The positions other than the correct one, in increasing order. */
  function WrongAnswers(correct: int): (wrong: seq<int>)
    ensures forall a :: a in wrong <==> 1 <= a <= 4 && a != correct
    ensures forall j, k :: 0 <= j < k < |wrong| ==> wrong[j] < wrong[k]
    ensures |wrong| == if 1 <= correct <= 4 then 3 else 4
  {
    (if correct != 1 then [1] else []) + (if correct != 2 then [2] else []) +
    (if correct != 3 then [3] else []) + (if correct != 4 then [4] else [])
  }

  /**
   * Removed positions are none, or two distinct wrong positions of the
   * current question.
   */
  predicate RemovedConsistent(removed: seq<int>, current: Option<Question>)
  {
    removed == [] ||
    (&& current.Some?
     && |removed| == 2
     && removed[0] != removed[1]
     && removed[0] in WrongAnswers(current.value.correct)
     && removed[1] in WrongAnswers(current.value.correct))
  }

  /**
   * Consistent removed positions are none or two, all of them answer
   * positions, and never the correct one.
   */
  lemma RemovedNeverCorrect(removed: seq<int>, current: Option<Question>)
    requires RemovedConsistent(removed, current)
    ensures |removed| == 0 || |removed| == 2
    ensures forall a :: a in removed ==> 1 <= a <= 4
    ensures current.Some? ==> current.value.correct !in removed
  {
  }

  /**
   * The hint use_ai_support gives without a hint service: the first
   * sentence of the explanation, closed by a full stop, in a fixed frame.
   */
  function NoServiceHint(explanation: string): (hint: string)
    ensures hint == "\U{1F4A1} Hint: " + FirstSentence(explanation) + "." + " Think carefully about this information."
  {
    var sentences := Split(explanation, SentenceSeparator);
    var firstSentence := if |sentences| > 0 then sentences[0] + "." else Take(explanation, 200);
    "\U{1F4A1} Hint: " + firstSentence + " Think carefully about this information."
  }

  class MillionaireGame {
    const questionsDb: seq<Question>
    /** Whether the AI hint service could be set up (an API key was found). */
    const hasAiService: bool

    var currentLevel: int
    var currentQuestion: Option<Question>
    var removedAnswers: seq<int>
    var usedFiftyFifty: bool
    var usedChangeQuestion: bool
    var usedAiSupport: bool

    /** The invariant of a session apart from the level of the question. */
    ghost predicate Bounded()
      reads this
    {
      && 1 <= currentLevel <= MaxLevel
      && (currentQuestion.Some? ==> currentQuestion.value in questionsDb)
      && RemovedConsistent(removedAnswers, currentQuestion)
    }

    /**
     * The session invariant: the level is in range, the question comes
     * from the file and is at the current level unless the file has no
     * question there (a failed draw keeps the previous question), and the
     * removed positions are wrong positions of the current question.
     */
    ghost predicate Valid()
      reads this
    {
      && Bounded()
      && (currentQuestion.Some? ==>
            currentQuestion.value.level == currentLevel || !HasLevel(questionsDb, currentLevel))
    }

    constructor (questionsDb: seq<Question>, hasAiService: bool)
      ensures Valid()
      ensures this.questionsDb == questionsDb && this.hasAiService == hasAiService
      ensures currentLevel == 1 && currentQuestion == None && removedAnswers == []
      ensures !usedFiftyFifty && !usedChangeQuestion && !usedAiSupport
    {
      this.questionsDb := questionsDb;
      this.hasAiService := hasAiService;
      currentLevel := 1;
      usedFiftyFifty := false;
      usedChangeQuestion := false;
      usedAiSupport := false;
      currentQuestion := None;
      removedAnswers := [];
    }

    /** get_current_state: the player's view of the session. */
    function State(): (view: StateView)
      reads this
      ensures view.NoQuestionAvailable? <==> currentQuestion.None?
      ensures view.StateView? ==>
        && view.level == currentLevel
        && view.question == currentQuestion.value.question
        && view.answers == map[1 := currentQuestion.value.answer1, 2 := currentQuestion.value.answer2,
                               3 := currentQuestion.value.answer3, 4 := currentQuestion.value.answer4]
        && view.removedAnswers == removedAnswers
        && view.supports == Supports(!usedFiftyFifty, !usedChangeQuestion, !usedAiSupport)
    {
      match currentQuestion
      case None => NoQuestionAvailable
      case Some(q) =>
        StateView(currentLevel, q.question,
                  map[1 := q.answer1, 2 := q.answer2, 3 := q.answer3, 4 := q.answer4],
                  removedAnswers,
                  Supports(!usedFiftyFifty, !usedChangeQuestion, !usedAiSupport))
    }

    /**
     * select_new_question: when the file has a question at the current
     * level, one of them becomes the current question and no position is
     * removed; otherwise nothing changes.
     */
    method SelectNewQuestion() returns (found: bool)
      requires Bounded()
      modifies this`currentQuestion, this`removedAnswers
      ensures Valid()
      ensures found <==> HasLevel(questionsDb, currentLevel)
      ensures found ==>
        && currentQuestion.Some?
        && currentQuestion.value in questionsDb
        && currentQuestion.value.level == currentLevel
        && removedAnswers == []
      ensures !found ==>
        currentQuestion == old(currentQuestion) && removedAnswers == old(removedAnswers)
    {
      var levelQuestions := QuestionsAtLevel(questionsDb, currentLevel);
      AtLevelEmpty(questionsDb, currentLevel);
      if levelQuestions != [] {
        var k :| 0 <= k < |levelQuestions|;
        currentQuestion := Some(levelQuestions[k]);
        removedAnswers := [];
        found := true;
      } else {
        found := false;
      }
    }

    /**
     * start_game: back to level 1 with every lifeline available and no
     * position removed, then a level-1 question is drawn.
     */
    method StartGame() returns (view: StateView)
      requires Valid()
      modifies this
      ensures Valid()
      ensures currentLevel == 1 && removedAnswers == []
      ensures !usedFiftyFifty && !usedChangeQuestion && !usedAiSupport
      ensures HasLevel(questionsDb, 1) ==> currentQuestion.Some? && currentQuestion.value.level == 1
      ensures !HasLevel(questionsDb, 1) ==> currentQuestion == old(currentQuestion)
      ensures view == State()
      ensures view.StateView? ==>
        view.level == 1 && view.removedAnswers == [] && view.supports == Supports(true, true, true)
    {
      currentLevel := 1;
      usedFiftyFifty := false;
      usedChangeQuestion := false;
      usedAiSupport := false;
      removedAnswers := [];
      var _ := SelectNewQuestion();
      view := State();
    }

    /**
     * check_answer: a wrong answer (any integer other than the correct
     * position) ends the game and changes nothing; a right answer at the
     * top level wins and changes nothing; a right answer below it moves
     * one level up and draws a question there.
     */
    method CheckAnswer(answer: int) returns (result: AnswerResult)
      requires Valid()
      modifies this`currentLevel, this`currentQuestion, this`removedAnswers
      ensures Valid()
      ensures old(currentQuestion).None? ==> result == NoQuestionError && unchanged(this)
      ensures old(currentQuestion).Some? && answer != old(currentQuestion).value.correct ==>
        && result == GameOver(old(currentQuestion).value.correct, answer, old(currentQuestion).value.explanation)
        && unchanged(this)
      ensures old(currentQuestion).Some? && answer == old(currentQuestion).value.correct && old(currentLevel) >= MaxLevel ==>
        && result == Won(old(currentQuestion).value.correct)
        && unchanged(this)
      ensures old(currentQuestion).Some? && answer == old(currentQuestion).value.correct && old(currentLevel) < MaxLevel ==>
        && currentLevel == old(currentLevel) + 1
        && result == Correct(old(currentQuestion).value.correct, State())
        && (HasLevel(questionsDb, currentLevel) ==>
              && currentQuestion.Some?
              && currentQuestion.value.level == currentLevel
              && removedAnswers == [])
        && (!HasLevel(questionsDb, currentLevel) ==>
              currentQuestion == old(currentQuestion) && removedAnswers == old(removedAnswers))
    {
      if currentQuestion.None? {
        return NoQuestionError;
      }
      var correctAnswer := currentQuestion.value.correct;
      if answer == correctAnswer {
        if currentLevel >= MaxLevel {
          result := Won(correctAnswer);
        } else {
          currentLevel := currentLevel + 1;
          var _ := SelectNewQuestion();
          result := Correct(correctAnswer, State());
        }
      } else {
        result := GameOver(correctAnswer, answer, currentQuestion.value.explanation);
      }
    }

    /**
     * use_fifty_fifty: the first use removes two distinct wrong positions
     * of the current question; a second use is refused and changes nothing.
     * The current question is read only on the first use.
     */
    method UseFiftyFifty() returns (result: LifelineResult<seq<int>>)
      requires Valid()
      requires usedFiftyFifty || currentQuestion.Some?
      modifies this`usedFiftyFifty, this`removedAnswers
      ensures Valid()
      ensures usedFiftyFifty
      ensures old(usedFiftyFifty) ==> result == AlreadyUsed && removedAnswers == old(removedAnswers)
      ensures !old(usedFiftyFifty) ==>
        && result.Success?
        && removedAnswers == result.value
        && |removedAnswers| == 2
        && removedAnswers[0] != removedAnswers[1]
        && removedAnswers[0] in WrongAnswers(currentQuestion.value.correct)
        && removedAnswers[1] in WrongAnswers(currentQuestion.value.correct)
    {
      if usedFiftyFifty {
        return AlreadyUsed;
      }
      usedFiftyFifty := true;
      var wrongAnswers := WrongAnswers(currentQuestion.value.correct);
      assert wrongAnswers[0] in wrongAnswers && wrongAnswers[1] in wrongAnswers && wrongAnswers[0] != wrongAnswers[1];
      var a, b :| a in wrongAnswers && b in wrongAnswers && a != b;
      removedAnswers := [a, b];
      result := Success(removedAnswers);
    }

    /**
     * use_change_question: the first use draws another question at the same
     * level; a second use is refused and changes nothing. The result shows
     * the state after the draw, whether or not it found a question.
     */
    method UseChangeQuestion() returns (result: LifelineResult<StateView>)
      requires Valid()
      modifies this`usedChangeQuestion, this`currentQuestion, this`removedAnswers
      ensures Valid()
      ensures usedChangeQuestion
      ensures old(usedChangeQuestion) ==>
        result == AlreadyUsed && currentQuestion == old(currentQuestion) && removedAnswers == old(removedAnswers)
      ensures !old(usedChangeQuestion) ==>
        && result == Success(State())
        && (HasLevel(questionsDb, currentLevel) ==>
              && currentQuestion.Some?
              && currentQuestion.value.level == currentLevel
              && removedAnswers == [])
        && (!HasLevel(questionsDb, currentLevel) ==>
              currentQuestion == old(currentQuestion) && removedAnswers == old(removedAnswers))
    {
      if usedChangeQuestion {
        return AlreadyUsed;
      }
      usedChangeQuestion := true;
      var _ := SelectNewQuestion();
      result := Success(State());
    }

    /**
     * use_ai_support: the first use gives a hint about the current question
     * and never fails; a second use is refused. Only the flag changes.
     * With a hint service, its answer is passed on (the API-error text when
     * the service call failed), or the simple hint is given when the hint
     * call raised; without a service, the first sentence of the explanation
     * is given.
     */
    method UseAiSupport(call: HintCall) returns (result: LifelineResult<string>)
      requires Valid()
      requires usedAiSupport || currentQuestion.Some?
      modifies this`usedAiSupport
      ensures Valid()
      ensures usedAiSupport
      ensures old(usedAiSupport) ==> result == AlreadyUsed
      ensures !old(usedAiSupport) && hasAiService && call.Returned? ==>
        result == Success("\U{1F916} AI Assistant: " + call.hint)
      ensures !old(usedAiSupport) && hasAiService && call.ServiceError? ==>
        result == Success("\U{1F916} AI Assistant: " + ApiErrorHint(currentQuestion.value.explanation))
      ensures !old(usedAiSupport) && hasAiService && call.Raised? ==>
        result == Success(SimpleHint(currentQuestion.value.explanation))
      ensures !old(usedAiSupport) && !hasAiService ==>
        result == Success(NoServiceHint(currentQuestion.value.explanation))
    {
      if usedAiSupport {
        return AlreadyUsed;
      }
      usedAiSupport := true;
      var explanation := currentQuestion.value.explanation;
      var response: string;
      if hasAiService {
        match call
        case Returned(hint) =>
          response := "\U{1F916} AI Assistant: " + hint;
        case ServiceError =>
          response := "\U{1F916} AI Assistant: " + ApiErrorHint(explanation);
        case Raised =>
          response := SimpleHint(explanation);
      } else {
        response := NoServiceHint(explanation);
      }
      result := Success(response);
    }
  }
}
