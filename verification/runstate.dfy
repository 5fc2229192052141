/** Classification of a run's state string, compared case-insensitively. */
module RunState {

  /** What the client makes of one observed run state. */
  datatype StateClass =
    | Succeeded          // terminal: the run completed
    | Failed             // terminal: the run failed, with a reason
    | NeedsToolResponse  // the run waits for a tool response, which this client cannot give
    | Pending            // anything else: keep polling

  const SucceededState := "succeeded"
  const FailedState := "failed"
  const ToolResponseRequiredState := "tool_response_required"

  predicate IsUpper(c: char) { 'A' <= c <= 'Z' }

  predicate IsLower(c: char) { 'a' <= c <= 'z' }

  function LowerChar(c: char): char {
    if IsUpper(c) then (c as int + 32) as char else c
  }

  function UpperChar(c: char): char {
    if IsLower(c) then (c as int - 32) as char else c
  }

  /** ASCII lower-casing, character by character. */
  function ToLower(s: string): (r: string)
    ensures |r| == |s|
    ensures forall i :: 0 <= i < |s| ==> r[i] == LowerChar(s[i])
  {
    if s == [] then [] else [LowerChar(s[0])] + ToLower(s[1..])
  }

  /** `s` spells `word` with any mix of ASCII capitals: each letter of `word`
      may appear as itself or as its upper-case form, and every other
      character must appear as itself. */
  predicate IsCasingOf(s: string, word: string) {
    |s| == |word| &&
    forall i :: 0 <= i < |s| ==> s[i] == word[i] || (IsLower(word[i]) && s[i] == UpperChar(word[i]))
  }

  /** The state switch of the poll loop: the state is lower-cased and compared
      with the three known values; everything else means "still running". */
  function Classify(state: string): (c: StateClass)
    ensures c == Succeeded <==> IsCasingOf(state, SucceededState)
    ensures c == Failed <==> IsCasingOf(state, FailedState)
    ensures c == NeedsToolResponse <==> IsCasingOf(state, ToolResponseRequiredState)
  {
    LowerMatchesCasing(state, SucceededState);
    LowerMatchesCasing(state, FailedState);
    LowerMatchesCasing(state, ToolResponseRequiredState);
    var lower := ToLower(state);
    if lower == SucceededState then Succeeded
    else if lower == FailedState then Failed
    else if lower == ToolResponseRequiredState then NeedsToolResponse
    else Pending
  }

  lemma LowerCharMatches(c: char, w: char)
    requires !IsUpper(w)
    ensures LowerChar(c) == w <==> c == w || (IsLower(w) && c == UpperChar(w))
  {
  }

  /** For a word with no capitals, lower-casing a string gives that word exactly
      when the string is one of the word's casings. */
  lemma LowerMatchesCasing(s: string, word: string)
    requires forall i :: 0 <= i < |word| ==> !IsUpper(word[i])
    ensures ToLower(s) == word <==> IsCasingOf(s, word)
  {
    if |s| == |word| {
      forall i | 0 <= i < |s|
        ensures ToLower(s)[i] == word[i] <==> s[i] == word[i] || (IsLower(word[i]) && s[i] == UpperChar(word[i]))
      {
        LowerCharMatches(s[i], word[i]);
      }
      if IsCasingOf(s, word) {
        assert forall i :: 0 <= i < |s| ==> ToLower(s)[i] == word[i];
      }
    }
  }

  /** Lower-casing is idempotent, so a state and its lower-cased form are
      always classified alike. */
  lemma {:induction false} ClassifyIgnoresCase(state: string)
    ensures ToLower(ToLower(state)) == ToLower(state)
    ensures Classify(ToLower(state)) == Classify(state)
  {
    if state != [] {
      ClassifyIgnoresCase(state[1..]);
      assert ToLower(ToLower(state)) == [LowerChar(LowerChar(state[0]))] + ToLower(ToLower(state[1..]));
    }
  }
}
