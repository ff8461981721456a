# type50 typing test — a Dafny model of its core logic

type50 is a browser typing-speed test. It fetches a quote, draws it character by
character, compares what the user types against it, and shows words per minute
and accuracy. This project models the three pieces of pure logic inside its
React components and proves their properties:

- **The typing session** (`components/TypingTest.tsx`, module `TypingTest` in
  `typing_test.dfy`). The component's state hooks become one immutable `Session`
  record. `handleChange` becomes `HandleChange`. The synchronous reset in
  `restart` becomes `Restart`, and the derived `netCorrect`, `wpm` and
  `accuracy` become `NetCorrect`, `Wpm`, `Accuracy` and `SessionStats`. The
  other writers of that state are events too: the timer callback (`Tick`) and
  the end of a quote fetch (`QuoteLoaded`, `QuoteFailed`). A sequence of such
  events is replayed by `Run`. The invariant `Valid` says three
  things: the mistake counter equals the size of the mistake-position set, every
  counted position lies below the high-water mark `typedCharacters`, and so does
  the input length.
- **The text box** (`components/TextBox.tsx`, module `TextBox` in
  `text_box.dfy`). The `tokens` memo becomes `Tokenize`, a recursive rendition
  of the same loop (`Step`, `Loop`) followed by the same trailing push. Its
  proofs show the tokens partition the text. The per-character colour, caret
  and space-mistake flags become `Classify`, and the Enter/Tab rule becomes
  `HandleKeyDown`.
- **The quote payload** (`lib/generateText.ts`, module `GenerateText` in
  `generate_text.dfy`). The parsed reply is a datatype, not JSON. It has the
  response status, an optional `data` key (one object, an array, or `null`) and
  optional top-level `quote`/`author` keys. `Decode` yields the quote or one of
  the two errors the function throws.

`session_view.dfy` (module `SessionView`) connects the text box to the session.
A character is drawn red exactly when `IsMistake` holds at its position. While
typing only appends, every red character is counted (`RedIsCounted`). The
module also models how the key handler is wired (see Findings).
`scenarios.dfy` holds worked examples. `wrappers.dfy` defines `Option` and
`Result`.

The clock is a parameter. `HandleChange` and `Tick` receive the value
`Date.now()` would return, and the metrics read the session's `time` field
(elapsed whole seconds, as the timer last set it). JavaScript's floating-point
`/` and `Math.round` are replaced by exact arithmetic. `Wpm` is
`(24·typed + t) div (2·t)` and `Accuracy` is `(200·net + typed) div (2·typed)`.
The contracts state, in real numbers, that these round the source's formulas
half up in exact arithmetic: the integer `r` with `r − ½ ≤ x < r + ½`.

JavaScript details modelled on purpose:

- `!startTime` is true for `null` and also for `0`. So `HasStarted` needs a set,
  non-zero timestamp.
- `text[i]` past the end of the quote is `undefined`. So every character typed
  beyond the quote counts as a mistake (`IsMistake`).
- `nextChar` past the end is `undefined`. So a trailing space closes a token.

Behaviour of the code worth knowing:

- The direct `{quote, author}` shape needs the `author` key to be present. A
  `null` value there becomes "Unknown". Only the `data` shapes turn a missing
  author into "Unknown".
- `handleChange` has no guard for a finished session; the textarea is made
  read-only instead. `HandleChange` has no guard either.
- Nothing rejects an empty quote. An empty quote finishes on the first change.
- The text can be typed on before a quote arrives. Input typed over the loading
  text is compared with the loading text (`LoadAfterTypingUncounted`), and 14
  characters finish the session before any quote appears (`FinishOnLoadingText`).

## Model

| member | source | states |
|---|---|---|
| TypingTest.HasStarted | components/TypingTest.tsx:69 | `!startTime` is true exactly when the start time is `null` or `0`. |
| TypingTest.IsMistake | components/TypingTest.tsx:77 | A typed character is a mistake exactly when it differs from `text[i]`. Past the end of the text `text[i]` is `undefined`, so every character there is a mistake. |
| TypingTest.Initial | components/TypingTest.tsx:14-22 | The initial hook values form a valid session: empty input, no start time, not finished, nothing typed, no mistakes. |
| TypingTest.RecordMistakes | components/TypingTest.tsx:75-82 | The loop over new characters adds to the set exactly the positions from `i` on whose character is a mistake. Positions already present are kept. The counter grows by exactly the number of positions newly added. |
| TypingTest.HandleChange | components/TypingTest.tsx:65-91 | One change event. The start time is taken on the first change and never replaced. The high-water mark becomes the larger of its old value and the new length. `finished` becomes true exactly when the new length reaches the text length, and stays true. Exactly the mistaken, newly appended positions join the set, and each adds one to the counter. |
| TypingTest.NoGrowthNoMistakes | components/TypingTest.tsx:73-83 | A change that does not lengthen the input leaves the mistake set and counter unchanged. |
| TypingTest.ChangePreservesValid | components/TypingTest.tsx:75-85 | After a change, the counter still equals the size of the set, and every counted position and the input length stay below the high-water mark. |
| TypingTest.MistakesWithinTyped | components/TypingTest.tsx:75-85 | In a valid session, mistakes never exceed the typed-characters high-water mark. |
| TypingTest.Restart | components/TypingTest.tsx:93-102 | Restart gives empty input, no start time, time 0, not finished, zero typed characters, zero mistakes, an empty set, the loading text and no author. The result is valid. |
| TypingTest.NetCorrect | components/TypingTest.tsx:117 | Net correct is never above the typed count. It equals typed minus mistakes when mistakes do not exceed typed, and 0 otherwise. |
| TypingTest.Wpm | components/TypingTest.tsx:118-119 | WPM is 0 unless the time is positive. Otherwise it is `(typed / 5) / (time / 60)` rounded half up in exact arithmetic. |
| TypingTest.Accuracy | components/TypingTest.tsx:120-122 | Accuracy is 100 when nothing has been typed. It is always at most 100. Otherwise it is `net / typed · 100` rounded half up in exact arithmetic. |
| TypingTest.SessionStats | components/TypingTest.tsx:117-122 | The stats bar shows the three formulas of the source. Net correct is typed minus mistakes, clamped at 0. WPM is 0 unless the time is positive, and otherwise `(typed / 5) / (time / 60)` rounded half up. Accuracy is 100 when nothing was typed, and otherwise `net / typed · 100` rounded half up; it never exceeds 100. Rounding is in exact arithmetic. |
| TypingTest.ClampInert | components/TypingTest.tsx:117 | In a valid session the `max(0, …)` clamp never changes net correct: net plus mistakes equals typed. |
| TypingTest.Tick | components/TypingTest.tsx:55-60 | While the session is started and not finished, the time becomes the whole seconds since the start, rounded down. Otherwise the time is unchanged. Nothing but the time ever changes. |
| TypingTest.QuoteLoaded | components/TypingTest.tsx:34-38 | A fetched quote replaces the text and author. Nothing else changes, so input typed earlier stays. |
| TypingTest.QuoteFailed | components/TypingTest.tsx:40-45 | A failed fetch shows the error text with no author. Nothing else changes. |
| TypingTest.RunPreservesValid | components/TypingTest.tsx:34-111 | Any sequence of changes, restarts, timer ticks and quote-fetch outcomes keeps the bookkeeping invariant. |
| TypingTest.ReachableValid | components/TypingTest.tsx:14-22 | Every session reachable from the initial state is valid and has mistakes ≤ typed characters. |
| TypingTest.StepWithoutRestart | components/TypingTest.tsx:85-90 | Any single event other than a restart moves the high-water mark only on a longer input. It never clears `finished`, never replaces a set start time and never drops a counted position. |
| TypingTest.WithoutRestart | components/TypingTest.tsx:69-90 | Over any events with no restart: the high-water mark is the longest input ever seen and never decreases; `finished` is never cleared; a set start time is never overwritten; no counted position is removed. |
| TypingTest.AppendKeepsMarksRecorded | components/TypingTest.tsx:73-83 | While each change only appends to the input, every wrong character still in the input is in the mistake set. |
| TypingTest.EventKeepsMarksRecorded | components/TypingTest.tsx:65-91 | Every event keeps every visible wrong character counted, provided changes only append and a quote arrives only while the input is empty. |
| TypingTest.RunKeepsMarksRecorded | components/TypingTest.tsx:34-111 | Over any run in which changes only append and a fetch outcome arrives only on empty input, every wrong character still in the input stays in the mistake set. |
| TypingTest.ReachableMarksRecorded | components/TypingTest.tsx:14-22 | From the initial session, every such append-only run ends with every visible wrong character counted. |
| TypingTest.LoadAfterTypingUncounted | components/TypingTest.tsx:36-37 | Typing "Lo" on the loading text and then receiving "The end" leaves a wrong character that was never counted. |
| TypingTest.FinishOnLoadingText | components/TypingTest.tsx:88-90 | Fourteen characters typed on the loading text finish the session before any quote arrives. |
| TypingTest.SameLengthEditUncounted | components/TypingTest.tsx:73 | A same-length replacement is not compared. The input can then hold a wrong character that was never counted. |
| TextBox.Tokenize | components/TextBox.tsx:35-60 | The flattened tokens are the indices 0..n-1, each once and in order, each paired with its character. Every token is non-empty, a run of non-spaces followed by a run of spaces, and closes exactly at its last entry. |
| TextBox.LoopLeavesNothing | components/TextBox.tsx:49-53 | The last character always closes a token, so the loop ends with an empty current token. |
| TextBox.TrailingPushDead | components/TextBox.tsx:55-57 | The trailing push never adds a token: the memo's result is the loop's token list. |
| TextBox.TokenizeRoundTrip | components/TextBox.tsx:39-41 | Concatenating the characters of the tokens gives back the text. |
| TextBox.EmptyTextNoTokens | components/TextBox.tsx:35-59 | Empty text has no tokens. |
| TextBox.TokenBoundaries | components/TextBox.tsx:44-51 | Consecutive tokens meet at adjacent indices. The first ends with a space and the second starts with a non-space, so a run of spaces never straddles a boundary. |
| TextBox.Classify | components/TextBox.tsx:106-112 | A character is pending exactly when its index is at or beyond the input length. It is correct when the typed character equals it and wrong when it differs. The caret is at index `input.length` only, and only when not finished and focused. The space-mistake highlight shows exactly on a wrong space. |
| TextBox.CaretAtMostOnce | components/TextBox.tsx:108 | Across all tokens, at most one character carries the caret, the one at `input.length`. It is drawn whenever that index is inside the quote, the session is unfinished and the textarea has focus. |
| TextBox.HandleKeyDown | components/TextBox.tsx:77-88 | Enter is handled only when finished, and Tab only when not finished. Every other (finished, key) pair does nothing. The restart callback runs exactly in the handled cases, and only if it was passed. |
| SessionView.WrongShadeIsMistake | components/TextBox.tsx:107-112 | A character is drawn red exactly when it is typed and the session's mistake test holds at its position. |
| SessionView.RedIsCounted | components/TypingTest.tsx:73-83 | In a session whose visible mistakes are all recorded, every red character's position is in the mistake set. |
| SessionView.ShippedKeyDown | components/TypingTest.tsx:138-145 | As wired, no key press ever restarts. Enter when finished and Tab when not still have their default prevented. |
| SessionView.ShippedEnterIgnored | components/TypingTest.tsx:138-145 | As wired, Enter on a finished session is swallowed without a restart. |
| SessionView.WiredKeyDown | components/TextBox.tsx:76-88 | With the callback passed, a restart happens exactly for Enter when finished or Tab when not. |
| SessionView.PressKey | components/TextBox.tsx:76-88 | With the callback wired, Enter on a finished session and Tab on an unfinished one reset the session to its initial state. For every other key the key handler does nothing else. |
| GenerateText.SelectQuoteData | lib/generateText.ts:31-41 | A `data` key decides alone. One object is taken as is, an array yields its first element, and an empty array or `null` yields nothing. Without `data`, the body is taken only when both `quote` and `author` keys are present. |
| GenerateText.AuthorOrUnknown | lib/generateText.ts:49 | A string author is kept. A `null` or missing author becomes "Unknown". |
| GenerateText.Decode | lib/generateText.ts:26-50 | A non-ok status fails with the fetch error. Otherwise the result fails with the no-data error exactly when no object was selected. A success passes the quote through unchanged and defaults the author. |
| GenerateText.NotOkIsError | lib/generateText.ts:26-28 | A non-ok status is the fetch error, whatever the body. |
| GenerateText.DataTakesPrecedence | lib/generateText.ts:32-34 | With a `data` key, the top-level `quote`/`author` keys do not affect the result. |
| GenerateText.ArrayYieldsFirst | lib/generateText.ts:33-45 | A non-empty array decodes like its first element. An empty array or `null` data is the no-data error. |
| GenerateText.DirectShape | lib/generateText.ts:36-45 | Without `data`, decoding succeeds exactly when both keys are present. A present `null` author becomes "Unknown". |
| GenerateText.RoundTrip | lib/generateText.ts:31-50 | A quote with a string author, sent as a direct object, a `data` object or the head of a `data` array, decodes back unchanged. |
| Scenarios.CatSat | components/TypingTest.tsx:73-122 | Typing "cas sat" for "cat sat" gives one mistake at index 2, 7 typed, finished, net 6 and accuracy 86. |
| Scenarios.LoadedAttempt | components/TypingTest.tsx:36-122 | A quote arrives, "cas" is typed at 1 s, the timer fires at 31 s and " sat" completes the quote at 32 s. The stats show 30 s, 3 WPM, net 6 and accuracy 86, and a later tick no longer moves the time. |
| Scenarios.SevenWithOneIn30 | components/TypingTest.tsx:117-122 | Seven characters typed with one mistake over 30 seconds show net 6, 3 WPM and accuracy 86. |
| Scenarios.FiftyInThirty | components/TypingTest.tsx:118-119 | 50 characters in 30 seconds is 20 WPM. |
| Scenarios.FreshStats | components/TypingTest.tsx:117-122 | An untouched session shows net 0, WPM 0 and accuracy 100. |

## Left out

- The request in `lib/generateText.ts` (URL and query construction, headers, `fetch`, `response.json()`) is network I/O. The parsed reply is the model's input.
- JSON values the reply could hold beyond the modelled shapes are not modelled: array elements that are not objects, and `quote`/`author` values that are neither strings nor `null`. A `quote` value is passed through in the model, as in the code.
- Replies without a string quote: a reply that selects an object without a string `quote` (for example `{data: {author: "x"}}`) decodes to a quote whose `quote` is missing or `null`, as in the code. The `Loaded` event carries only string quotes, so what follows in the component is not modelled: `setText` receives `undefined` or `null`, and the next render throws at `text.length` (`components/TextBox.tsx` line 39) instead of showing the error text. Two reply shapes are not modelled at all. A top-level body that is not an object makes `"data" in json` throw a `TypeError`, a third error besides the two `Decode` yields. A `data` value that is a scalar is also not modelled.
- The scheduling of the quote fetch (`requestAnimationFrame`, the `isCancelled` guard and the `await` in `restart`, `components/TypingTest.tsx` lines 25-53 and 104-114) is asynchronous. Its outcome is modelled by the `Loaded` and `LoadFailed` events, which may arrive at any point of a run. Which outcome a fetch has, and whether a cancelled one is dropped, is not modelled.
- The scheduling of the one-second timer (`setInterval` and its clean-up, lines 55-63) is not modelled. Each firing is a `TimerTick` event carrying the clock reading.
- TypingTest.AppendKeepsMarksRecorded: the promise holds only against a fixed text. A quote that arrives after the user has typed on the loading text can leave red characters that were never counted (`LoadAfterTypingUncounted`).
- SessionView.RedIsCounted: the same limit applies. It needs `MarksRecorded`, which a quote arriving after typing can break.
- Focus handling (`focusInput`, `handleFocus`, `handleBlur`) and the caret animation are UI effects. Focus is the `hasFocus` parameter of `Classify`.
- Styling and presentation (`components/StatsBar.tsx`, `components/Header.tsx`, `app/layout.tsx`, `app/page.tsx`, the JSX of both components) carry no logic.
- TypingTest.HandleChange: React batches state updates. The model assumes each change event sees the state committed after the previous one, as it does for discrete input events.
- TypingTest.Wpm: JavaScript floating-point division and `Math.round` are modelled as exact rational arithmetic. Results can differ on ordinary inputs: 3 characters in 24 seconds gives 2 here, but JavaScript computes `Math.round(0.6 / 0.4)` = `Math.round(1.4999999999999998)` = 1.
- TypingTest.Accuracy: the same exact-arithmetic abstraction. 40 typed with 17 mistakes gives 58 here, but JavaScript computes `Math.round((23 / 40) * 100)` = `Math.round(57.49999999999999)` = 57.
- JavaScript strings are sequences of UTF-16 code units. `value.length`, `split("")` and `text[i]` in both components work on code units, while the model's `char` is a Unicode scalar value. Surrogate pairs are therefore not modelled anywhere: not in `HandleChange`, `Tokenize` or `Classify`.

## Findings

| source | as written | input that shows it | evidently intended | confidence | as-written member | corrected member |
|---|---|---|---|---|---|---|
| components/TypingTest.tsx:138-145 | `TypingTest` renders `TextBox` without an `onRestart` prop. The `onRestart?.()` call in `handleKeyDown` therefore does nothing, and Enter or Tab only has its default prevented. | a finished session and the key "Enter" | Enter after finishing, or Tab while typing, restarts the test, as the comment above `handleKeyDown` (components/TextBox.tsx:76) says | medium, not executed | SessionView.ShippedEnterIgnored | SessionView.PressKey |
