/**
 * The deterministic hint texts of the AI support class (ai_support.py):
 * the simple hint built from the first sentence of a question's
 * explanation, and the text the generated-hint call returns when the
 * text-generation service reports an error. The service itself is not
 * part of this model.
 */
module AiSupport {
  import opened Strings

  /** The separator the explanation is split on to find its first sentence. */
  const SentenceSeparator: string := ". "

  const SimpleHintPrefix: string := "Here's a hint: "
  const SimpleHintSuffix: string := " Consider this information when choosing your answer."

  const ApiErrorPrefix: string := "Based on what I know: "
  const ApiErrorSuffix: string := "... Think carefully about this information."

  /** How many characters of the explanation the API-error text shows. */
  const ApiErrorShown: int := 150

  /** The first sentence of an explanation: its text before the first ". ". */
  function FirstSentence(explanation: string): (s: string)
    ensures IsFirstPiece(explanation, SentenceSeparator, s)
    ensures !Occurs(s, SentenceSeparator)
    ensures !Occurs(explanation, SentenceSeparator) ==> s == explanation
  {
    FirstPiece(explanation, SentenceSeparator)
  }

  /**
   * get_simple_hint: the first sentence, closed by a full stop, inside a
   * fixed frame. The split never yields an empty list, so the second
   * template (the first 200 characters) is never used.
   */
  function SimpleHint(explanation: string): (hint: string)
    ensures hint == SimpleHintPrefix + FirstSentence(explanation) + "." + SimpleHintSuffix
  {
    var sentences := Split(explanation, SentenceSeparator);
    if |sentences| > 0 then
      SimpleHintPrefix + (sentences[0] + ".") + SimpleHintSuffix
    else
      "Here's what I can tell you: " + Take(explanation, 200) + "..."
  }

  /**
   * The text get_ai_hint returns when the generation call fails: at most
   * the first 150 characters of the explanation, inside a fixed frame.
   */
  function ApiErrorHint(explanation: string): (hint: string)
    ensures |hint| == |ApiErrorPrefix| + (if |explanation| < ApiErrorShown then |explanation| else ApiErrorShown) + |ApiErrorSuffix|
    ensures ApiErrorPrefix <= hint
    ensures hint[|hint| - |ApiErrorSuffix|..] == ApiErrorSuffix
    ensures hint[|ApiErrorPrefix|..|hint| - |ApiErrorSuffix|] <= explanation
    ensures |explanation| <= ApiErrorShown ==> hint[|ApiErrorPrefix|..|hint| - |ApiErrorSuffix|] == explanation
  {
    var shown := Take(explanation, ApiErrorShown);
    var hint := ApiErrorPrefix + shown + ApiErrorSuffix;
    assert hint[|ApiErrorPrefix|..|hint| - |ApiErrorSuffix|] == shown;
    hint
  }

  /**
   * The explanation the repository's fallback demonstration uses, written
   * as its first sentence, the separator and the rest.
   */
  const ParisExplanation: string :=
    "Paris is the capital and most populous city of France" + ". " +
    "It has been the country's capital since the 12th century."

  /** The fallback demonstration's hint carries exactly its first sentence. */
  lemma ParisSimpleHint()
    ensures SimpleHint(ParisExplanation) ==
      "Here's a hint: " + "Paris is the capital and most populous city of France" + "." +
      " Consider this information when choosing your answer."
  {
    var first := "Paris is the capital and most populous city of France";
    assert '.' !in first by {
      assert first == "Paris is the capital and most" + " populous city of France";
      assert '.' !in "Paris is the capital and most";
      assert '.' !in " populous city of France";
    }
    FirstPieceBeforeSeparator(first, SentenceSeparator, "It has been the country's capital since the 12th century.");
  }
}
