/**
  How `components/TypingTest.tsx` and `components/TextBox.tsx` fit together: the
  session state is what the text box renders, and the text box's key handler is
  meant to drive `restart`.
*/
module SessionView {
  import TypingTest
  import TextBox

  /** A character is drawn red exactly when it is typed and `IsMistake` holds at
      its position. */
  lemma WrongShadeIsMistake(text: string, input: string, j: nat, finished: bool, hasFocus: bool)
    requires j < |text|
    ensures var v := TextBox.Classify(TextBox.Entries(text)[j], input, finished, hasFocus);
            v.shade == TextBox.Wrong <==> j < |input| && TypingTest.IsMistake(text, j, input[j])
  {
  }

  /** While typing only appends, every character rendered red is a counted mistake. */
  lemma RedIsCounted(s: TypingTest.Session, j: nat, hasFocus: bool)
    requires TypingTest.MarksRecorded(s) && j < |s.text|
    requires TextBox.Classify(TextBox.Entries(s.text)[j], s.input, s.finished, hasFocus).shade == TextBox.Wrong
    ensures j in s.mistakeIndices
  {
    WrongShadeIsMistake(s.text, s.input, j, s.finished, hasFocus);
  }

  // ---------------------------------------------------------------------------
  // The keyboard restart as wired.

  /** `TypingTest` renders `TextBox` without an `onRestart` prop. */
  function ShippedKeyDown(finished: bool, key: string): (o: TextBox.KeyOutcome)
    ensures !o.restarts
    ensures o.preventDefault <==> (finished && key == "Enter") || (!finished && key == "Tab")
  {
    TextBox.HandleKeyDown(finished, key, false)
  }

  /** As shipped, Enter on a finished session is swallowed and nothing restarts,
      although the handler's comment promises a restart. */
  lemma ShippedEnterIgnored(s: TypingTest.Session)
    requires s.finished
    ensures ShippedKeyDown(s.finished, "Enter") == TextBox.KeyOutcome(true, false)
  {
  }

  /** The wiring evidently intended: `restart` passed as `onRestart`. */
  function WiredKeyDown(finished: bool, key: string): (o: TextBox.KeyOutcome)
    ensures o.restarts <==> (finished && key == "Enter") || (!finished && key == "Tab")
  {
    TextBox.HandleKeyDown(finished, key, true)
  }

  /** What the key handler alone does to the session once `restart` is wired to the
      text box. A key it does not prevent still reaches the textarea, and the
      resulting input goes through `HandleChange` as a separate change. */
  function PressKey(s: TypingTest.Session, key: string): (r: TypingTest.Session)
    ensures s.finished && key == "Enter" ==> r == TypingTest.Initial()
    ensures !s.finished && key == "Tab" ==> r == TypingTest.Initial()
    ensures key != "Enter" && key != "Tab" ==> r == s
    ensures s.finished && key == "Tab" ==> r == s
    ensures !s.finished && key == "Enter" ==> r == s
  {
    if WiredKeyDown(s.finished, key).restarts then TypingTest.Restart(s) else s
  }
}
