# Anti-Low-End SEO Planner — verified model of the planner's logic

The planner is a single-page React app (`App.tsx`). A user enters a
keyword, a target region and competitor URLs. An external AI gateway turns
these into an article outline, and a rich-text editor shows live writing
statistics. Most of `App.tsx` is markup. This project models the four
pieces of sequential logic inside it and proves properties of them:

- **Competitor-list normalisation** (`Competitors`, on top of `Text`). The
  textarea is split on newlines, lines that are blank once trimmed are
  dropped, and at most the first ten lines are kept.
- **Live statistics** (`Stats`, on top of `Matching`). This is `updateStats`
  as a pure function of the editor's rendered text, its markup and the
  keyword. The "word" count is the UTF-16 length of the trimmed text. The
  keyword count and the `<h1`/`<h2`/`<h3`/`<img` counts are case-insensitive,
  non-overlapping match counts. Density is a percentage, and reading time is
  the ceiling of words / 400.
- **Progress animation** (`Progress`). One timer tick adds a random
  increment in [0, 2), caps the percentage at 98 and advances the status
  message. The effect on screen changes resets the percentage to 0 on
  entering the analysing screen and sets it to 100 elsewhere.
- **Screen state machine** (`Workflow`, composed in `App`). The screens are
  setup, analysing, outline and editor. The start button is guarded. The
  gateway call ends in success (outline screen, outline stored) or failure
  (setup screen, outline kept). The outline screen has two buttons. `App`
  combines the session, the animation and the in-flight gateway call into
  one event-driven machine and proves an invariant over every reachable
  state.

Modules: `Wrappers` (Option), `Text`, `Matching`, `Competitors`, `Stats`,
`Progress`, `Workflow`, `App`.

Two behaviours of the code shape the model:

- Only App.tsx lines 72, 77, 81, 209 and 210 call `setStep`, and none of
  them is reachable from the editor screen. So `Workflow.Edge` has no edge
  out of the editor.
- `new RegExp(keywords, 'gi')` (App.tsx:34) treats regular-expression
  metacharacters in the keyword as operators, and it throws on a malformed
  keyword. The model matches the keyword as a literal string (see Left out).

## Model

| member | source | states |
|---|---|---|
| Text.Trim | App.tsx:33 | trimming keeps one contiguous slice of the input and drops only white space before and after it; the result is empty exactly when every character is ECMAScript white space, and otherwise both of its ends are non-space |
| Text.IsBlank | App.tsx:74 | a competitor line counts as blank exactly when all its characters are white space |
| Text.TrimStart | App.tsx:74 | the result is the suffix of the input starting at its first non-space character; everything dropped is white space |
| Text.TrimEnd | App.tsx:74 | the result is the prefix of the input ending at its last non-space character; everything dropped is white space |
| Text.Split | App.tsx:74 | `split('\n')` yields at least one piece and no piece contains the separator |
| Text.JoinSplit | App.tsx:74 | joining the pieces of a split with the separator gives back the original text |
| Text.SplitJoin | App.tsx:74 | splitting the join of separator-free pieces gives back those pieces |
| Text.Utf16Length | App.tsx:33 | JavaScript `length` counts UTF-16 code units: between the number of characters and twice that, zero only for the empty string |
| Text.Utf16LengthAstral | App.tsx:33 | a character above U+FFFF (a surrogate pair) counts two toward `length`, unlike a character count |
| Text.Utf16LengthConcat | App.tsx:33 | `length` of joined strings is the sum of the parts' lengths, for all strings |
| Matching.Count | App.tsx:35 | the number of non-overlapping matches times the pattern length never exceeds the text length |
| Matching.CountZeroIff | App.tsx:38-41 | the match count is zero exactly when the pattern occurs nowhere, ignoring case |
| Matching.GlobalMatchCount | App.tsx:35 | the global-regex loop (count a match and resume at its end, else move on one character) computes the recursive match count |
| Matching.ScanStep | App.tsx:35 | one step of that loop moves strictly forward within the text, and the matches it counts plus those left after it add up to the matches from where it started |
| Matching.CountIgnoresCase | App.tsx:38-41 | case-folding the searched text changes no count (the `i` flag) |
| Matching.CountConcat | App.tsx:38-41 | counts of two texts add up in their concatenation when no match spans the join |
| Competitors.NonBlank | App.tsx:74 | the filter keeps no line that is blank after trimming |
| Competitors.NonBlankConcat | App.tsx:74 | filtering distributes over concatenation, so kept lines keep their relative order |
| Competitors.NonBlankKeepsExactly | App.tsx:74 | every non-blank line is kept as many times as it occurs, and every blank line is dropped |
| Competitors.Normalize | App.tsx:74 | the URL list has at most 10 entries, none blank, and is the prefix of the non-blank lines of length min(10, their number) |
| Competitors.NormalizeEmptyIff | App.tsx:74 | the URL list is empty exactly when the textarea holds only white space |
| Stats.ReadingTime | App.tsx:42 | reading time is the least whole number of minutes covering the characters at 400 a minute: 0 for 0, 1 for 1..400, 2 for 401 |
| Stats.KeywordCount | App.tsx:34-35 | the keyword count is 0 for an empty keyword; otherwise it is the number of leftmost non-overlapping case-insensitive matches (`Matching.Count`, pinned by its lemmas), 0 exactly when the keyword does not occur |
| Stats.Density | App.tsx:36 | density is non-negative and exactly 0 without words or without matches; otherwise density times the word count equals 100 times the keyword count |
| Stats.TagCount | App.tsx:38-41 | a tag count is the number of leftmost non-overlapping case-insensitive matches of the tag (`Matching.Count`), zero exactly when the tag does not occur |
| Stats.OneTagCountsOne | App.tsx:38-41 | markup consisting of one tag pattern has a count of exactly one for that pattern |
| Stats.Compute | App.tsx:31-44 | the snapshot's words are the UTF-16 length of the trimmed text, 0 exactly for blank text; the keyword count is the keyword's match count, 0 for an empty keyword and otherwise 0 exactly when the keyword is absent; reading time and density follow the rules above; each heading or image count is the match count of its tag, 0 exactly when the tag is absent |
| Stats.InitialIsEmptyEditor | App.tsx:18-25 | the all-zero starting snapshot is exactly what an update computes for an empty editor, whatever the keyword |
| Stats.UpdateIgnoresPrevious | App.tsx:29-45 | with a mounted editor the new snapshot does not depend on the previous one, so updating twice equals updating once |
| Stats.TagCountsIgnoreCase | App.tsx:38-41 | heading and image counts do not depend on the case of the markup |
| Stats.TagCountsAdd | App.tsx:38-41 | heading and image counts add up over joined markup when no tag spans the join |
| Stats.BmpLength | App.tsx:33 | for text inside the Basic Multilingual Plane the word count is the number of characters |
| Progress.TickAsWritten | App.tsx:55-61 | the source's tick: progress is min(prev + r, 98), never below prev when prev ≤ 98; the message index never falls and, from at most 2, stays at most 2 |
| Progress.Tick | App.tsx:55-61 | the intended tick: progress is min(prev + r, 98), never below prev when prev ≤ 98; message index never falls and stays at most 3 |
| Progress.AdvanceMessage | App.tsx:57-59 | the three message checks never lower the index, never pass 3, and only raise it to a message the new percentage calls for; from index 2 past 85 they reach 3 exactly when the last check tests index 2, so with the source's index 3 an index of at most 2 stays at most 2 |
| Progress.OnScreenChange | App.tsx:49-64 | entering the analysing screen resets to 0 % and the first message; any other screen shows exactly 100 % |
| Progress.TickKeepsSync | App.tsx:56-60 | a tick keeps the percentage in [0, 98] and the message matching the thresholds it passed |
| Progress.TickAsWrittenKeepsCappedSync | App.tsx:56-60 | the source's tick keeps the message equal to the thresholds passed, but never beyond the third message |
| Progress.TickOfKeepsSync | App.tsx:54-61 | whichever message check runs, a tick keeps its own message agreement, never lowers the percentage and never passes that check's last message |
| Progress.StatusFollowsProgress | App.tsx:51-59 | with the intended check the status line reads "構建內容大綱..." exactly when the percentage is past 85 |
| Progress.StatusNeverFourthAsWritten | App.tsx:51-59 | with the source's check the status line never reads "構建內容大綱...", whatever the percentage |
| Progress.RunMonotoneAndSynced | App.tsx:54-61 | over any run of ticks the percentage never falls, never exceeds 98, and the message matches it |
| Progress.FourthMessageUnreachableAsWritten | App.tsx:52-59 | with the source's check the message index, starting at most 2, never reaches 3 over any run of ticks |
| Progress.LastThresholdIgnoredAsWritten | App.tsx:59 | at 85 % with the third message, a tick of 1 reaches 86 % yet the source keeps the third message; the intended tick shows the fourth |
| Progress.FourthMessageReached | App.tsx:59 | with the intended check, once the increments carry progress past 85 the fourth message shows |
| Workflow.Initial | App.tsx:7-11 | the page opens on the setup screen with no outline, and the start button is disabled |
| Workflow.CanStart | App.tsx:71 | the guard, also the button's `disabled` condition at line 148: a start that it refuses would have had no keyword or no competitor URL |
| Workflow.StartAnalysis | App.tsx:71-75 | with either field empty nothing changes and no call is made; otherwise the analysing screen shows and nothing else changes, and the gateway receives the keyword, the region and exactly the normalised URL list |
| Workflow.Settle | App.tsx:76-81 | success stores the outline and shows the outline screen; failure returns to setup with the outline unchanged; nothing else changes |
| Workflow.Reconfigure | App.tsx:209 | the outline screen's first button shows the setup screen and changes nothing else |
| Workflow.OpenEditor | App.tsx:210 | the outline screen's second button shows the editor and changes nothing else |
| Workflow.StartAnalysisThenSettle | App.tsx:70-83 | a start without both fields is a no-op; with both, success yields the outline screen with the new outline and failure the setup screen with the old one |
| Workflow.BlankCompetitorsStillStart | App.tsx:71-74 | a competitor field of only white space passes the guard and the gateway is called with an empty URL list |
| App.WithSession | App.tsx:47-68 | the progress effect reruns only when the screen changes: 0 % on entering analysing, 100 % on any other screen |
| App.Init | App.tsx:7-14 | page load shows the setup screen at 100 % with no outline, no call in flight and the start button disabled |
| App.Dispatch | App.tsx:137-210 | a control not on the shown screen changes nothing, neither does a gateway result with no call pending; an edit on the setup screen sets exactly its own field; on the outline screen, reconfigure opens setup and the editor button opens the editor, changing nothing else in the session; a timer tick changes only the animation; and the animation changes without a screen change only on a tick |
| App.InitInv | App.tsx:7-14 | the page-load state satisfies the invariant |
| App.DispatchKeepsInv | App.tsx:47-83 | for either tick, every event keeps the invariant, moves the screen only along a permitted edge, and never lowers progress while analysing |
| App.EditKeepsInv | App.tsx:137-146 | editing a field keeps the invariant and changes neither the screen nor the animation |
| App.TickKeepsInv | App.tsx:54-61 | a timer tick keeps the invariant, leaves the session alone and, while analysing, never lowers the percentage |
| App.StartKeepsInv | App.tsx:70-75 | the start button keeps the invariant and moves, if at all, from setup to analysing |
| App.StartStep | App.tsx:70-75 | on the setup screen, a refused start leaves the page as it was; an accepted one shows analysing at 0 % with the first message and issues the call for the current fields |
| App.SettleKeepsInv | App.tsx:76-81 | the gateway settling keeps the invariant and moves along an edge |
| App.OutlineButtonsKeepInv | App.tsx:209-210 | both outline-screen buttons keep the invariant and move along an edge |
| App.StepChangesIff | App.tsx:70-83 | the screen changes exactly for a guarded start, a settled gateway call, or an outline-screen button |
| App.RunKeepsInv | App.tsx:47-83 | the invariant survives any sequence of events |
| App.ReachableInv | App.tsx:47-83 | every state reachable from page load satisfies the invariant, for either tick |
| App.FourthMessageNeverShownAsWritten | App.tsx:52-59 | with the source's tick, after any sequence of events from page load, the status line has never reached "構建內容大綱..." |
| App.FourthMessageShownPastThreshold | App.tsx:52-59 | with the intended tick, in every reachable state on the analysing screen the status line reads "構建內容大綱..." exactly when the percentage is past 85 |
| App.SettlingFinishesProgress | App.tsx:63-81 | when the gateway settles, progress becomes exactly 100 %, nothing is pending, and a failure keeps the previous outline |

## Left out

- Rendering, CSS and the footer (App.tsx:116-406): presentation with no logic.
- DOM access (`innerHTML`, `innerText`) and `document.execCommand` formatting (App.tsx:30-32, 99-102): browser APIs. The statistics take the text and markup as strings. A formatting command is followed by `Stats.Update`.
- The gateway's `analyzeCompetitors` and `analyzeDraft`, and the `./types` and `./services/geminiService` files: an external AI service that is not part of this model. A call ends in `Outcome<O>`, with the outline's type abstract.
- `runDraftAnalysis`, its busy flag, and the clipboard copy with its two-second status reset (App.tsx:85-114): asynchronous I/O wrappers.
- `setInterval`, `clearInterval`, `setTimeout`, effect cleanup and `Math.random` (App.tsx:54-67, 109): timers and randomness. One tick is an event carrying the increment. The `if (interval) clearInterval(interval)` at App.tsx:65 is dead code (`interval` is always unset there), so it is not modelled.
- React batching and double invocation of state updaters in development mode are not modelled. Each event is applied once, in order.
- The `alert` and `console.error` on failure (App.tsx:79-80) are not modelled. They are notifications with no effect on state.
- Stats.KeywordCount: matches the keyword as a literal string. The source compiles it with `new RegExp(keywords, 'gi')`, so there regular-expression metacharacters act as operators and an invalid pattern throws before any count is taken.
- Matching.Count: folds only ASCII letters when ignoring case. JavaScript's non-Unicode case-insensitive matching folds all of Unicode with `toUpperCase`. For the tag patterns `<h1`, `<h2`, `<h3` and `<img` this makes no difference, because JavaScript never folds a non-ASCII character onto an ASCII one.
- Progress.Tick: the percentage is an exact real, not an IEEE double (App.tsx:56). Rounding in `prev + Math.random() * 2` and the `Math.round` display are not modelled. The same holds for `Progress.TickAsWritten`.
- Progress.Status: is read only while the analysing screen shows. Before the first analysis the source's status text is the empty string (App.tsx:13), and the model does not represent that text.
- Stats.Density: uses exact real arithmetic, not IEEE doubles. The `toFixed` display and the density bar width are not modelled.
- Matching.CountConcat: requires that no match spans the join. Without that, additivity is false: `<h` + `1` contains one `<h1`, while each half contains none.
- Stats.TagCountsAdd: carries the same no-spanning condition, for the same reason.
- App.Dispatch: handles a gateway result only while a call is pending. In the source the suspended `startAnalysis` can only resume while the analysing screen shows, because that screen has no control.

## Findings

| source | as written | input that shows it | evidently intended | confidence | as-written member | corrected member |
|---|---|---|---|---|---|---|
| App.tsx:59 | the fourth-message check tests `msgIdx === 3`, which the index (0, then 1, then 2) never equals | progress 85 with the third message and an increment of 1: the new value 86 passes 85, but the third message stays | `msgIdx === 2`, so the fourth message "構建內容大綱..." shows once progress passes 85 | high; not executed | Progress.TickAsWritten, Progress.FourthMessageUnreachableAsWritten, Progress.LastThresholdIgnoredAsWritten, App.FourthMessageNeverShownAsWritten | Progress.Tick, Progress.TickKeepsSync, Progress.FourthMessageReached, App.FourthMessageShownPastThreshold |

`App` takes the tick as a parameter (`Progress.Variant`) and proves its invariant for both. With the source's tick, the invariant keeps the status line agreeing with the percentage only up to the third message.
