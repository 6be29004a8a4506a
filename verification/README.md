# Fake-news checker page: percentage extraction and submit workflow

This project models the logic of the verification page of the fake-news
checker. The page is `src/app/page.tsx`. The user types a news text, a
headline or a URL. The page posts it to a remote fact-checking service. It
then shows a truthfulness percentage read from the service's free-text
analysis, together with the list of sources the service returned.

The model has two modules.

- `Percentage` (percentage.dfy) models `extractPercentage`. It finds the
  leftmost match of `/(\d{1,3})\s?%/`, parses the captured digits in base 10,
  clamps the value to 0..100, and returns 50 when there is no match. The
  regular expression is modelled as a backtracking engine. `Scan` tries start
  positions from left to right. At each start, `TryAt` lets the greedy
  `\d{1,3}` take up to three digits. `TryWidth` then tries `\s?` as one
  whitespace character, then as none, and then gives back one digit. Beside
  the engine is a declarative description of the pattern (`MatchesAt`), of
  the engine's preference order at one start (`TriedBefore`), and of the
  match the engine must report (`IsFirstMatch`, `NoMatch`). The engine is
  proved to return exactly that match.
- `Workflow` (workflow.dfy) models the `Home` component as the class
  `Home`. Its four state cells are `text`, `loading`, `result` and `error`.
  `handleSubmit` is split at its first `await` (the `fetch`, line 44) into
  `BeginSubmit` and `Complete`, and `HandleSubmit` runs both. No state cell
  is written between that `await` and the second one (`res.json()`, line
  54), so the second is folded into `Complete`: the `Body` of a response
  says what `res.json()` produced. `EditText` is the text field's
  `onChange`. The derived values are `Percent`, `ShowsResult`, `ShowsError`
  and `ShowsNoSources`. The network request is not performed. How it settled
  is an input of type `Outcome`: either `fetch` was rejected, or a response
  arrived with a status and a body that `res.json()` parsed or failed to
  parse.

`\d` is the ASCII digits 0-9. `\s` is the
fixed set of ECMAScript WhiteSpace and LineTerminator code points (tab,
line feed, vertical tab, form feed, carriage return, space, U+00A0, U+1680,
U+2000..U+200A, U+2028, U+2029, U+202F, U+205F, U+3000, U+FEFF).

Where the specification of the system and the code differ, the model
follows the code:

- The specification lets a failed submission stay failed until the next
  submission. In the code, editing the text clears `error` (line 105). So
  after an edit the derived phase of a failed page is `Idle` again.
- The specification says the digits may be "optionally followed by
  whitespace". The pattern allows at most one whitespace character, so
  `"85  %"` (two spaces) does not match at 85.
- The specification treats every failure as one generic message. The code
  stores the message of whatever error reached the catch block. That is
  "Error en el servidor" for a status outside 2xx, the error's own message
  for a failed `fetch` or a failed `res.json()`, and "Error desconocido"
  only when that message is empty or missing.

## Model

| member | source | states |
|---|---|---|
| `Percentage.GreedyDigits` | src/app/page.tsx:21 | the greedy `\d{1,3}` takes a run of digits of at most three, and it stops early only at the end of the text or at a non-digit |
| `Percentage.TryWidth` | src/app/page.tsx:21 | backtracking from k digits returns a real match at that start, using no more than k digits; no alternative with at most k digits that the engine tries earlier matches; it returns no match exactly when no alternative with at most k digits matches |
| `Percentage.TryAt` | src/app/page.tsx:21 | the attempt at one start returns the first matching alternative in backtracking order, or nothing when no alternative matches there |
| `Percentage.Scan` | src/app/page.tsx:21 | scanning from i returns a match at or after i with no match at any start between i and it, preferred at its start; it returns nothing only when no start from i on matches |
| `Percentage.FirstMatch` | src/app/page.tsx:21-22 | `text.match` yields the leftmost, greedy match, and it yields none exactly when the text holds no substring of the form digits, optional whitespace, `%` |
| `Percentage.FirstMatchUnique` | src/app/page.tsx:21 | the leftmost, greedy match is unique |
| `Percentage.FirstMatchIs` | src/app/page.tsx:21 | the engine returns any match that is leftmost and greedy |
| `Percentage.ParseDecimal` | src/app/page.tsx:23 | `parseInt(digits, 10)` of n digits is a natural number below 10^n |
| `Percentage.Captured` | src/app/page.tsx:21-23 | the capture group is one to three digits |
| `Percentage.CapturedBelowThousand` | src/app/page.tsx:21-23 | a captured value is at most 999, so clamping affects only 101..999 |
| `Percentage.Clamp` | src/app/page.tsx:24-25 | the clamped value lies in 0..100, equals the input inside that range, is 0 below it and 100 above it |
| `Percentage.ExtractPercentage` | src/app/page.tsx:20-29 | the result always lies in 0..100, and it is 50 when the text holds no match |
| `Percentage.ExtractKeepsValue` | src/app/page.tsx:21-26 | when the leftmost match is worth at most 100, that value is returned unchanged |
| `Percentage.ExtractSaturates` | src/app/page.tsx:21-25 | when the leftmost match is worth more than 100 (at most 999), the result is 100 |
| `Percentage.MatchesAtAppend` | src/app/page.tsx:21 | whether the pattern matches at a start depends only on the characters it reads there |
| `Percentage.FirstMatchAppend` | src/app/page.tsx:21 | appending text never changes the leftmost match of a text that has one |
| `Percentage.ExtractIgnoresAppended` | src/app/page.tsx:21-26 | only the first percentage counts: for a text that holds a match, anything appended leaves the result unchanged |
| `Percentage.MatchesAtShift` | src/app/page.tsx:21 | behind a prefix without digits, matches are those of the rest, shifted by the prefix's length |
| `Percentage.NoMatchShift` | src/app/page.tsx:21 | a prefix without digits adds no match |
| `Percentage.FirstMatchShift` | src/app/page.tsx:21 | behind a prefix without digits, the leftmost match is that of the rest, shifted |
| `Percentage.ExtractIgnoresNonDigitPrefix` | src/app/page.tsx:21-28 | a prefix without digits, such as a minus sign, does not change the result |
| `Percentage.PlainPercentage` | src/app/page.tsx:20-26 | "Veracidad: 85%" gives 85 |
| `Percentage.SpacedPercentage` | src/app/page.tsx:21-26 | "3 %" gives 3 |
| `Percentage.AboveHundredSaturates` | src/app/page.tsx:21-25 | "probabilidad 150%" gives 100 |
| `Percentage.FirstPercentageWins` | src/app/page.tsx:21-26 | "45% verdadero, 20% exagerado" gives 45 |
| `Percentage.MinusSignIgnored` | src/app/page.tsx:21-26 | "riesgo -10%" gives 10 |
| `Percentage.NoNumberGivesDefault` | src/app/page.tsx:28 | "sin datos numericos" gives 50 |
| `Percentage.FourDigitsBacktrack` | src/app/page.tsx:21-25 | "1234%" matches "234%" after backtracking and gives 100 |
| `Percentage.EstimateInNarrative` | src/app/page.tsx:21-26 | "Veracidad estimada: 3%. Esta afirmación es falsa." gives 3 |
| `Workflow.ThrownMessage` | src/app/page.tsx:43-57 | the error reaching the catch block is the `fetch` rejection, then "Error en el servidor" for a status outside 2xx, then the `res.json()` failure |
| `Workflow.CaughtMessage` | src/app/page.tsx:57 | the stored error is never empty: it is the error's message, or "Error desconocido" when that message is empty |
| `Workflow.Home.constructor` | src/app/page.tsx:32-35 | the page starts idle with empty text, not loading, no result and no error |
| `Workflow.Home.BeginSubmit` | src/app/page.tsx:37-41 | submitting sets loading, clears error and result before the outcome is known, and keeps the text |
| `Workflow.Home.Complete` | src/app/page.tsx:43-59 | after any outcome loading is false; a success stores the response and leaves the error empty; every failure leaves no result and stores the caught message; the text is kept |
| `Workflow.Home.HandleSubmit` | src/app/page.tsx:37-60 | a whole submission ends succeeded with the response stored, or failed with the caught message and no result |
| `Workflow.Home.EditText` | src/app/page.tsx:105 | editing stores the new text, clears the error and changes nothing else |
| `Workflow.Home.Percent` | src/app/page.tsx:62 | the displayed percent lies in 0..100; it is 0 without a result and otherwise the percentage extracted from the analysis |
| `Workflow.Home.ShowsResult` | src/app/page.tsx:150 | the result card is shown exactly when a result is stored and nothing is loading |
| `Workflow.Home.ShowsError` | src/app/page.tsx:142 | the error line is shown exactly in the failed phase, and never beside the result card |
| `Workflow.Home.ShowsNoSources` | src/app/page.tsx:216 | the "no sources" placeholder appears exactly when the result card is shown and its source list is empty |
| `Workflow.FlatEarthScenario` | src/app/page.tsx:37-62 | a 2xx answer with an empty source list and an analysis stating 3% ends succeeded, with percent 3, the card shown and the placeholder listed |
| `Workflow.ServerErrorScenario` | src/app/page.tsx:37-60 | a status-500 answer ends failed, with "Error en el servidor" stored and no result card |

## Left out

- The `fetch` call, the request body and `res.json()` (lines 44-54) are I/O. How the request settled is an input of type `Outcome`.
- The shape of the parsed JSON is not checked by the code, and it is not modelled. A body that parses to something other than an object with `sources` and `openai_analysis` (for example `null`) is outside the model.
- Errors thrown as values that are not `Error` objects are represented by an empty message. The code treats them the same way, since their `message` is missing.
- Overlapping submissions, and the stale response that could overwrite a newer one, are concurrency. The page disables the field and the button while loading (lines 106 and 120). `Complete` therefore requires a pending request.
- The browser's refusal to submit an empty field (`required`, line 108) happens outside the code.
- All rendering, styling, the colour chosen by the percent (line 171) and the page metadata in `src/app/layout.tsx` are presentation.
- `e.preventDefault()` (line 38) only stops the browser's own form submission.
- React's batching of state updates is not modelled. The state after each handler is the state after all of its updates.
