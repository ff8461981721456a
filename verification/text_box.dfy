/**
  The pure logic of `components/TextBox.tsx`: the `tokens` memo that groups the
  quote into "non-spaces, then spaces" chunks for rendering, the per-character
  classification, and the keyboard rule for restarting.
*/
module TextBox {
  import opened Wrappers

  /** One rendered character and its position in the quote. */
  datatype CharEntry = CharEntry(ch: char, index: nat)

  type Token = seq<CharEntry>

  /** Every character of `text` tagged with its index, in order. */
  function Entries(text: string): (es: seq<CharEntry>)
    ensures |es| == |text|
    ensures forall i :: 0 <= i < |text| ==> es[i] == CharEntry(text[i], i)
  {
    seq(|text|, i requires 0 <= i < |text| => CharEntry(text[i], i))
  }

  /** The characters of a run of entries. */
  function Chars(es: seq<CharEntry>): (s: string)
    ensures |s| == |es|
    ensures forall i :: 0 <= i < |es| ==> s[i] == es[i].ch
  {
    seq(|es|, i requires 0 <= i < |es| => es[i].ch)
  }

  /** The tokens laid end to end. */
  function Flatten(ts: seq<Token>): seq<CharEntry>
    decreases |ts|
  {
    if |ts| == 0 then [] else Flatten(ts[..|ts| - 1]) + ts[|ts| - 1]
  }

  /** The loop pushes the current token after position `i` when a space is not
      followed by another space, or when a non-space is the last character. */
  predicate ClosesAt(text: string, i: nat)
  {
    && i < |text|
    && if text[i] == ' ' then CharAt(text, i + 1) != Some(' ') else CharAt(text, i + 1) == None
  }

  /** The loop variables `result` and `currentToken`. */
  datatype Scan = Scan(tokens: seq<Token>, current: Token)

  /** One iteration of the loop, at position `i`. */
  function Step(text: string, i: nat, acc: Scan): Scan
    requires i < |text|
  {
    var current := acc.current + [CharEntry(text[i], i)];
    if ClosesAt(text, i) then Scan(acc.tokens + [current], []) else Scan(acc.tokens, current)
  }

  /** The loop from position `i` to the end of the text. */
  function Loop(text: string, i: nat, acc: Scan): Scan
    requires i <= |text|
    decreases |text| - i
  {
    if i == |text| then acc else Loop(text, i + 1, Step(text, i, acc))
  }

  /** The `tokens` memo: the loop, then a push of a leftover non-empty token.
      The tokens partition the text: laid end to end they give every index once, in
      order, with its character; each is non-empty, non-spaces then spaces, and closes
      exactly at its last entry. */
  function Tokenize(text: string): (ts: seq<Token>)
    ensures Flatten(ts) == Entries(text)
    ensures forall k :: 0 <= k < |ts| ==> Closed(text, ts[k])
  {
    var last := Loop(text, 0, Scan([], []));
    LoopKeepsInv(text, 0, Scan([], []));
    LoopLeavesNothing(text);
    assert Entries(text)[..|text|] == Entries(text);
    if |last.current| > 0 then last.tokens + [last.current] else last.tokens
  }

  // ---------------------------------------------------------------------------
  // Shape of a token.

  /** No non-space follows a space: a run of non-spaces, then a run of spaces. */
  predicate SpacesTrail(t: Token)
  {
    forall j, k :: 0 <= j < k < |t| && t[j].ch == ' ' ==> t[k].ch == ' '
  }

  /** No entry of `t` is a position after which the loop closes a token. */
  predicate Open(text: string, t: Token)
  {
    forall j :: 0 <= j < |t| ==> !ClosesAt(text, t[j].index)
  }

  /** A pushed token: non-empty, shaped as above, closed exactly at its last entry. */
  predicate Closed(text: string, t: Token)
  {
    && |t| > 0
    && SpacesTrail(t)
    && Open(text, t[..|t| - 1])
    && ClosesAt(text, t[|t| - 1].index)
  }

  /** The loop invariant. */
  predicate Inv(text: string, i: nat, acc: Scan)
  {
    && i <= |text|
    && Flatten(acc.tokens) + acc.current == Entries(text)[..i]
    && (forall k :: 0 <= k < |acc.tokens| ==> Closed(text, acc.tokens[k]))
    && Open(text, acc.current)
    && SpacesTrail(acc.current)
  }

  lemma {:induction false} StepKeepsInv(text: string, i: nat, acc: Scan)
    requires i < |text| && Inv(text, i, acc)
    ensures Inv(text, i + 1, Step(text, i, acc))
  {
    var e := CharEntry(text[i], i);
    var current := acc.current + [e];
    var prefix := Entries(text)[..i + 1];
    assert prefix == Entries(text)[..i] + [e];
    assert Flatten(acc.tokens) + current == prefix;
    if |acc.current| > 0 {
      // the current token's last entry is position i - 1, which did not close
      var last := acc.current[|acc.current| - 1];
      assert last == (Flatten(acc.tokens) + acc.current)[i - 1];
      assert last == CharEntry(text[i - 1], i - 1);
      assert !ClosesAt(text, i - 1);
      assert last.ch == ' ' ==> text[i] == ' ';
    }
    assert SpacesTrail(current);
    if ClosesAt(text, i) {
      var ts := acc.tokens + [current];
      assert ts[..|ts| - 1] == acc.tokens;
      assert Flatten(ts) == Flatten(acc.tokens) + current;
      assert current[..|current| - 1] == acc.current;
      assert Closed(text, current);
      assert forall k :: 0 <= k < |ts| ==> ts[k] == if k < |acc.tokens| then acc.tokens[k] else current;
    } else {
      assert Open(text, current);
    }
  }

  lemma {:induction false} LoopKeepsInv(text: string, i: nat, acc: Scan)
    requires i <= |text| && Inv(text, i, acc)
    ensures Inv(text, |text|, Loop(text, i, acc))
    decreases |text| - i
  {
    if i < |text| {
      StepKeepsInv(text, i, acc);
      LoopKeepsInv(text, i + 1, Step(text, i, acc));
    }
  }

  /** The last character always closes a token, so the loop leaves nothing over. */
  lemma LoopLeavesNothing(text: string)
    ensures Loop(text, 0, Scan([], [])).current == []
  {
    var last := Loop(text, 0, Scan([], []));
    LoopKeepsInv(text, 0, Scan([], []));
    if |last.current| > 0 {
      var e := last.current[|last.current| - 1];
      assert e == (Flatten(last.tokens) + last.current)[|text| - 1];
      assert false;
    }
  }

  /** Hence the trailing push of the memo never adds a token. */
  lemma TrailingPushDead(text: string)
    ensures Tokenize(text) == Loop(text, 0, Scan([], [])).tokens
  {
    LoopLeavesNothing(text);
  }

  /** Reading the characters of the tokens back gives the text. */
  lemma TokenizeRoundTrip(text: string)
    ensures Chars(Flatten(Tokenize(text))) == text
  {
  }

  lemma EmptyTextNoTokens()
    ensures Tokenize("") == []
  {
  }

  /** The tokens before position `j`, laid end to end, begin the whole flattening. */
  lemma {:induction false} FlattenPrefix(ts: seq<Token>, j: nat)
    requires j <= |ts|
    ensures Flatten(ts[..j]) <= Flatten(ts)
    decreases |ts|
  {
    if j < |ts| {
      var init := ts[..|ts| - 1];
      assert init[..j] == ts[..j];
      FlattenPrefix(init, j);
    } else {
      assert ts[..j] == ts;
    }
  }

  /** Consecutive tokens meet at adjacent positions: the earlier one ends with a space
      and the later one starts with a non-space, so a run of spaces is never split. */
  lemma TokenBoundaries(text: string, k: nat)
    requires k + 1 < |Tokenize(text)|
    ensures var ts := Tokenize(text);
            && |ts[k]| > 0 && |ts[k + 1]| > 0
            && ts[k + 1][0].index == ts[k][|ts[k]| - 1].index + 1
            && ts[k][|ts[k]| - 1].ch == ' '
            && ts[k + 1][0].ch != ' '
  {
    var ts := Tokenize(text);
    var a := ts[k][|ts[k]| - 1];
    var b := ts[k + 1][0];
    assert Closed(text, ts[k]) && Closed(text, ts[k + 1]);
    var two := ts[..k + 2];
    assert two[..k + 1] == ts[..k + 1] && two[..k + 2 - 1] == ts[..k + 1];
    assert ts[..k + 1][..k] == ts[..k];
    assert Flatten(ts[..k + 1]) == Flatten(ts[..k]) + ts[k];
    assert Flatten(two) == Flatten(ts[..k]) + ts[k] + ts[k + 1];
    FlattenPrefix(ts, k + 2);
    var p := |Flatten(ts[..k])| + |ts[k]| - 1;
    assert Flatten(two)[p] == a && Flatten(two)[p + 1] == b;
    assert Entries(text)[p] == a && Entries(text)[p + 1] == b;
    assert a.index == p && b.index == p + 1;
    assert ClosesAt(text, p);
  }

  // ---------------------------------------------------------------------------
  // Per-character classification (the body of `token.map`).

  /** The text colour: grey before it is typed, black when matched, red otherwise. */
  datatype Shade = Pending | Correct | Wrong

  /** How one character is drawn. */
  datatype CharView = CharView(shade: Shade, caret: bool, spaceMistake: bool)

  /** The classification of entry `e` given the input, `finished` and the focus flag. */
  function Classify(e: CharEntry, input: string, finished: bool, hasFocus: bool): (v: CharView)
    ensures v.shade == Pending <==> e.index >= |input|
    ensures v.shade == Correct <==> e.index < |input| && input[e.index] == e.ch
    ensures v.shade == Wrong <==> e.index < |input| && input[e.index] != e.ch
    ensures v.caret <==> e.index == |input| && !finished && hasFocus
    ensures v.spaceMistake <==> e.ch == ' ' && v.shade == Wrong
  {
    var typed := CharAt(input, e.index);
    var isCurrent := e.index == |input|;
    var isSpace := e.ch == ' ';
    CharView(
      if typed.Some? then (if typed.value == e.ch then Correct else Wrong) else Pending,
      isCurrent && !finished && hasFocus,
      typed.Some? && typed.value != e.ch && isSpace)
  }

  /** Over the whole quote, the caret is drawn on at most one character, the one at
      `input.length`; it is drawn there whenever that position is inside the quote, the
      session is not finished and the textarea has focus. */
  lemma CaretAtMostOnce(text: string, input: string, finished: bool, hasFocus: bool)
    ensures |Flatten(Tokenize(text))| == |text|
    ensures forall j :: (0 <= j < |text| &&
              Classify(Flatten(Tokenize(text))[j], input, finished, hasFocus).caret) ==> j == |input|
    ensures |input| < |text| && !finished && hasFocus ==>
              Classify(Flatten(Tokenize(text))[|input|], input, finished, hasFocus).caret
  {
  }

  // ---------------------------------------------------------------------------
  // Keyboard rule (`handleKeyDown`).

  /** What a key press does: whether the default is prevented and whether the
      `onRestart` callback runs. */
  datatype KeyOutcome = KeyOutcome(preventDefault: bool, restarts: bool)

  /** Enter restarts a finished session, Tab an unfinished one; `onRestart?.()` does
      nothing when the parent did not pass the callback (`hasOnRestart` false). */
  function HandleKeyDown(finished: bool, key: string, hasOnRestart: bool): (o: KeyOutcome)
    ensures o.preventDefault <==> (finished && key == "Enter") || (!finished && key == "Tab")
    ensures o.restarts <==> o.preventDefault && hasOnRestart
  {
    if finished && key == "Enter" then KeyOutcome(true, hasOnRestart)
    else if !finished && key == "Tab" then KeyOutcome(true, hasOnRestart)
    else KeyOutcome(false, false)
  }
}
