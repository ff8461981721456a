/** Worked examples of the typing session and its metrics. */
module Scenarios {
  import opened TypingTest

  /** The only position where "cas sat" differs from "cat sat" is index 2. */
  lemma CatSatDiffersOnlyAtTwo(j: nat)
    ensures IsMistake("cat sat", j, if j < 7 then "cas sat"[j] else ' ') <==> j == 2 || j >= 7
  {
  }

  /** Typing "cas sat" for "cat sat" in one change: one mistake, at index 2; the session
      finishes with 7 characters typed, 6 correct and an accuracy of 86. */
  lemma CatSat()
    ensures var s := HandleChange(Initial().(text := "cat sat"), "cas sat", 1000);
            && s.mistakeIndices == {2} && s.mistakes == 1
            && s.typedCharacters == 7 && s.finished
            && SessionStats(s).netCorrect == 6 && SessionStats(s).accuracy == 86
  {
    var s0 := Initial().(text := "cat sat");
    var s := HandleChange(s0, "cas sat", 1000);
    CatSatDiffersOnlyAtTwo(2);
    forall j | j in s.mistakeIndices ensures j == 2 {
      CatSatDiffersOnlyAtTwo(j);
    }
    assert s.mistakeIndices == {2};
    assert s.mistakeIndices - s0.mistakeIndices == {2};
    assert s.mistakes == 1;
    assert Accuracy(7, 1) == 86;
  }

  /** Seven characters with one mistake over 30 seconds: net 6, 3 WPM, accuracy 86. */
  lemma SevenWithOneIn30(s: Session)
    requires s.typedCharacters == 7 && s.mistakes == 1 && s.time == 30
    ensures SessionStats(s) == Stats(6, 3, 86)
  {
    assert Wpm(7, 30) == 3;
    assert Accuracy(7, 1) == 86;
  }

  /** A whole attempt: the quote arrives, "cas" is typed at 1 s, the timer fires at
      31 s, and " sat" completes the quote at 32 s. The stats show 30 s, 3 WPM and an
      accuracy of 86; a later tick no longer moves the time. */
  lemma LoadedAttempt()
    ensures var s := Run(Initial(), [Loaded("cat sat", "A"), Change("cas", 1000), TimerTick(31000),
                                     Change("cas sat", 32000), TimerTick(40000)]);
            && s.text == "cat sat" && s.finished && s.time == 30 && s.mistakes == 1
            && SessionStats(s) == Stats(6, 3, 86)
  {
    var s1 := QuoteLoaded(Initial(), "cat sat", "A");
    var s2 := HandleChange(s1, "cas", 1000);
    CatSatDiffersOnlyAtTwo(2);
    forall j | j in s2.mistakeIndices ensures j == 2 {
      CatSatDiffersOnlyAtTwo(j);
    }
    assert s2.mistakeIndices == {2} && s2.mistakes == 1;
    var s3 := Tick(s2, 31000);
    assert s3.time == 30;
    var s4 := HandleChange(s3, "cas sat", 32000);
    forall j | j in s4.mistakeIndices ensures j == 2 {
      if j !in s3.mistakeIndices {
        CatSatDiffersOnlyAtTwo(j);
      }
    }
    assert s4.mistakeIndices == {2} && s4.mistakes == 1;
    var s5 := Tick(s4, 40000);
    assert s5 == s4;
    assert Run(Initial(), [Loaded("cat sat", "A"), Change("cas", 1000), TimerTick(31000),
                           Change("cas sat", 32000), TimerTick(40000)]) == s5;
    SevenWithOneIn30(s5);
  }

  /** 50 characters in 30 seconds is 20 words per minute. */
  lemma FiftyInThirty()
    ensures Wpm(50, 30) == 20
  {
  }

  /** Nothing typed yet: accuracy 100, and no words per minute before a second passed. */
  lemma FreshStats()
    ensures SessionStats(Initial()) == Stats(0, 0, 100)
  {
  }
}
