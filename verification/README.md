# Millionaire quiz session, modelled in Dafny

A model of the single-player "who wants to be a millionaire" quiz session.
A `MillionaireGame` tracks one player's progress through eight levels of
four-answer questions. It also holds three lifelines, each usable once per
game: fifty-fifty (two wrong answers removed), change-question (a new draw
at the same level) and an AI hint. With a text-generation service
configured, the hint is `"🤖 AI Assistant: "` followed by the service's
answer, or, when the service call fails, by a fixed text showing at most
the first 150 characters of the question's explanation. Without a service,
the hint is the explanation's first sentence in the
`"💡 Hint: … Think carefully about this information."` frame.
`get_simple_hint`'s own frame, `"Here's a hint: … Consider this information
when choosing your answer."`, is used only if the hint call itself raises,
which its own error handling (ai_support.py:44-53) leaves almost no room
for.

Files:

- `strings.dfy` (module `Strings`) defines Python's `str.split`, `join`
  (which undoes the split) and the slice `s[:n]` on `string`. It proves that the first split
  piece is exactly the text before the first separator.
- `ai_support.dfy` (module `AiSupport`) holds the deterministic hint texts of
  `ai_support.py`: `get_simple_hint` and the text `get_ai_hint` returns when
  the generation call fails.
- `game.dfy` (module `Game`) holds the question records, the player's view,
  the result types and the class `MillionaireGame` with its state-changing
  methods and the session invariant `Valid()`.
- `scenarios.dfy` (module `Scenarios`) plays whole sessions through the
  class, as the web routes and the terminal loop do, and states what the
  player observes.

Modelling choices:

- The question file is a constructor parameter, `seq<Question>`.
- `random.choice` and `random.sample` are nondeterministic choices (`:|`)
  among exactly the legal outcomes: any record at the current level, and any
  two distinct wrong positions in either order.
- The hint service becomes a constructor flag `hasAiService` (whether
  `GeminiAISupport(...)` could be built) plus a per-call parameter
  `HintCall`: `Returned(hint)` for the text the service generated,
  `ServiceError` for a failed service call that `get_ai_hint` turns into its
  API-error text, or `Raised` for a hint call that raised anyway (almost
  unreachable).
- The lifeline methods dereference `current_question` only when the lifeline
  is still unused. So `UseFiftyFifty` and `UseAiSupport` require
  `used || currentQuestion.Some?`. In Python that excluded call first sets
  the flag and then fails with a `TypeError` on `None`, so the lifeline is
  used up by a failed call; the precondition excludes this case.
  `UseChangeQuestion` requires only `Valid()`.
- Four behaviours of the code may surprise a caller; the model keeps them
  as written:
  - `check_answer` accepts any integer, and every non-matching one is a
    wrong answer.
  - `check_answer` accepts a position that fifty-fifty removed.
  - A draw that finds no question at the level is not an error. The level
    change stands, and the previous question and removed positions stay.
  - The split always yields a piece, so the "first 200 characters" branch
    is never taken.
- Because of the failed-draw behaviour, "the question is at the current
  level" is not an unconditional invariant. `Valid()` states what does hold:
  the question is at the current level, or the file has no question at that
  level.

## Model

| member | source | states |
|---|---|---|
| `Strings.Split` | ai_support.py:56-57 | `split` on a non-empty separator always yields at least one piece, so `len(sentences) > 0` always holds |
| `Strings.JoinSplit` | ai_support.py:56 | joining the pieces with the separator gives back the original text (the split loses nothing) |
| `Strings.SplitFirstPiece` | ai_support.py:56-58 | piece 0 is a prefix of the text, no separator starts inside it, and it ends at the end of the text or at a separator |
| `Strings.FirstPieceUnique` | ai_support.py:56-58 | at most one prefix has that property, so it pins down the text before the first separator |
| `Strings.FirstPiece` | ai_support.py:56-58 | `sentences[0]` contains no separator and is the whole text when no separator occurs |
| `Strings.FirstPieceBeforeSeparator` | ai_support.py:56-58 | a text `p + sep + r` whose `p` lacks the separator's first character splits first into `p` |
| `Strings.Take` | ai_support.py:53 | `s[:n]` is a prefix of `s` of length `min(n, len(s))` for `n >= 0`, with Python's meaning for negative `n` |
| `AiSupport.FirstSentence` | gamelogic.py:176-177 | the explanation's first sentence is its text before the first `". "` and contains no `". "` |
| `AiSupport.SimpleHint` | ai_support.py:55-61 | `get_simple_hint` is always `"Here's a hint: "` + first sentence + `"."` + the fixed closing sentence; the other template is never used |
| `AiSupport.ApiErrorHint` | ai_support.py:53 | the API-error text is the fixed frame around a prefix of the explanation of at most 150 characters, which is all of it when it is no longer; `UseAiSupport` shows it behind the robot prefix after a failed service call |
| `AiSupport.ParisSimpleHint` | test_ai_support.py:29-31 | the demonstration explanation gives the hint carrying exactly "Paris is the capital and most populous city of France." |
| `Game.AtLevelMembers` | gamelogic.py:36 | a record is a candidate exactly when it is in the file and its level is the current level |
| `Game.AtLevelEmpty` | gamelogic.py:36-37 | the candidate list is empty exactly when no record has the level |
| `Game.QuestionsAtLevel` | gamelogic.py:36 | the filtering pass builds exactly the file-ordered list of records at the level |
| `Game.WrongAnswers` | gamelogic.py:120 | the wrong positions are those of 1..4 other than `correct`, ascending, three of them when `correct` is in 1..4 |
| `Game.RemovedNeverCorrect` | gamelogic.py:120-122 | removed positions are none or two, lie in 1..4, and never include the correct answer |
| `Game.NoServiceHint` | gamelogic.py:174-178 | without a hint service the hint is the bulb prefix + first sentence + `"."` + the fixed closing sentence |
| `Game.MillionaireGame.constructor` | gamelogic.py:7-16 | a new session is at level 1 with no question, nothing removed and every lifeline unused, and satisfies `Valid()` |
| `Game.MillionaireGame.State` | gamelogic.py:54-74 | the view is the error view exactly when there is no question; otherwise it shows the level, the question text, the four answer texts keyed 1..4, the removed positions and availability = not used |
| `Game.MillionaireGame.SelectNewQuestion` | gamelogic.py:35-43 | returns true exactly when the file has a question at the level; then the question is such a record and nothing is removed, otherwise nothing changes; `Valid()` is re-established |
| `Game.MillionaireGame.StartGame` | gamelogic.py:45-52 | level 1, all lifelines unused, nothing removed, a level-1 question when the file has one; the returned view reports all three lifelines available |
| `Game.MillionaireGame.CheckAnswer` | gamelogic.py:76-109 | no question: error and no change; wrong answer: game over with the correct position and explanation of the question at call time, no change; right at the top level: won, no change; right below it: level + 1, new draw, result carries the new view |
| `Game.MillionaireGame.UseFiftyFifty` | gamelogic.py:111-128 | second use: error and nothing changes; first use: flag set and exactly two distinct wrong positions removed and returned; level and question unchanged (frame) |
| `Game.MillionaireGame.UseChangeQuestion` | gamelogic.py:130-141 | second use: error and nothing changes; first use: flag set, a draw at the same level, result is the new view |
| `Game.MillionaireGame.UseAiSupport` | gamelogic.py:143-184 | second use: error; first use: only the flag changes and it always succeeds, with the service's hint, the API-error text when the service call failed, the simple hint when the hint call raised, or the first-sentence hint without a service |
| `Scenarios.FiftyFiftyThenCorrect` | gamelogic.py:76-128 | start, fifty-fifty, correct answer: two wrong positions removed, then level 2 with nothing removed and fifty-fifty still used |
| `Scenarios.ChangeQuestionTwice` | gamelogic.py:130-141 | the first change-question draws at level 1 and shows it used; the second is refused with level and question unchanged |
| `Scenarios.WrongAnswer` | gamelogic.py:101-109 | after start, a wrong answer returns game over with the shown question's correct position and explanation, and the level stays 1 |
| `Scenarios.AiSupportTwice` | gamelogic.py:143-184 | the hint is given once whatever the service does, a second request is refused, and the question, level and removed positions are untouched; without a service it is the first-sentence hint of the shown question, after a failed service call the API-error text for it |
| `Scenarios.PerfectGame` | gamelogic.py:83-93 | when every level has a question, answering correctly each time wins with exactly the eighth answer |

## Left out

- main.py is not part of this model. It holds the HTTP routes and the process-wide session dictionary: a lookup that answers 404 for an unknown session, and JSON reshaping.
- `load_questions` (gamelogic.py:27-33) reads a file. The question list is a constructor parameter instead, and a missing file is not modelled.
- The terminal interface (gamelogic.py:187-346) is left out: printing, reading input, the replay recursion, and the check that refuses a removed answer before calling `check_answer`.
- The construction of `GeminiAISupport` (API key lookup, `genai.configure`), `create_ai_support`, the prompt text and the network call of `get_ai_hint` are left out. Only their observable outcome is modelled: the `hasAiService` flag and the `HintCall` parameter. The `.strip()` of the service's answer is part of that opaque string.
- The `message` strings of every result dictionary are left out. The result datatypes carry only the status and the data fields. The `"correct": True/False` field of `check_answer`'s results (gamelogic.py:87, 96, 104) is not a field either: it is implied by the variant, true for `Won` and `Correct` and false for `GameOver`.
- The warnings that are only printed (gamelogic.py:23-24, 42, 172; ai_support.py:52) are left out.
- The probability distribution of `random.choice` and `random.sample` is not modelled. Only the set of possible outcomes is.
- Python dictionaries of questions are records here. Missing keys and ill-typed fields in the question file are not modelled.
- Aliasing is not modelled: the view and the fifty-fifty result share the `removed_answers` list object in Python, while here they are values.
