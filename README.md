# Adaptive product-transparency interview — a Dafny model

This project models the core of a product-transparency web app. The core has two parts.

The first is the adaptive interview of `ProductForm`. It walks the user through three fixed seed questions. After the last question it asks an outside AI service for follow-up questions and appends whatever comes back. When nothing comes back, or the call fails, it hands the answers on. The user may also finish early.

The second is the page controller `ClarityApp`. It turns the answers into a `Q: …` / `A: …` transcript, shows a loader while a summarisation service works, and then shows the report or the form again. It can also reset.

Modules:

- `Wrappers`: `Option`, the model of `null`, `undefined` and a missing key.
- `JsText`: the JavaScript string semantics the interview relies on. These are `trim()` with ECMAScript's whitespace set, and `length` in UTF-16 code units, over strings of Unicode scalar values (unpaired surrogates are left out).
- `AnswerLedger`: the answer map, a JavaScript object keyed by question text. It is modelled as an insertion-ordered sequence of entries. Writing an existing key overwrites it in place; writing a new key appends it.
- `QuestionIds`: the ids `gen_<cursor>_<i>` of generated questions, with a parser that inverts the formatter.
- `ReportTranscript`: the transcript sent to the summariser, with a reference definition of `Array.prototype.join`.
- `Interview`: class `ProductForm` (state `questions`, `currentQuestionIndex`, `answers`, `isGenerating`) and the pure invariant `FormInvariant` its methods keep.
- `Session`: class `ClarityApp` (state `formData`, `summary`, `isLoading`) and the render choice `SelectView`.
- `Scenarios`: client walk-throughs from any reachable state, checked from the contracts alone. They cover one follow-up at the last question, an empty list or a failed call, a one-character answer, an early finish with a short or a blank field, and a failed then a successful summary followed by a reset.

Each of the two AI calls is awaited once in the source. Here each handler is split at its `await` into two atomic methods: `Submit` / `ResolveFollowUps`, and `BeginFormSubmit` / `CompleteFormSubmit`. So `isGenerating` and `isLoading` are true exactly while a call is outstanding. What the call returned is a parameter: `FollowUpResult` and `SummaryResult`. The disabled buttons (Next and Finish while generating; the form replaced by the loader while loading) become `requires` clauses.

Behaviour of the code that is easy to misread, which the model follows:

- The answer check is `z.string().min(2)` on the raw string, with no trimming. So `" a"` is accepted.
- Finishing early stores the current field value untrimmed, with no minimum length. It has no guard against an empty answer map.
- When summarisation fails, `formData` becomes `null` and the form is mounted afresh. The answers are not kept.
- The cursor is always strictly below the number of questions; it never equals it.
- The interview has no "finished" phase of its own. Handing the answers on is the method's `submitted` result, after which the page shows the loader.

## Model

| member | source | states |
|---|---|---|
| JsText.IsJsWhitespace | src/components/product-form.tsx:97 | the characters `trim` removes are ECMAScript's WhiteSpace and LineTerminator code points; no character from `!` to U+009F is one of them |
| JsText.TrimStart | src/components/product-form.tsx:97 | the result is the longest suffix not starting with JavaScript whitespace, and everything dropped is whitespace |
| JsText.TrimEnd | src/components/product-form.tsx:97 | the result is the longest prefix not ending with JavaScript whitespace, and everything dropped is whitespace |
| JsText.Trim | src/components/product-form.tsx:97 | `value.trim()` is no longer than the value, neither starts nor ends with whitespace, and leaves a value that already has non-whitespace ends unchanged |
| JsText.TrimEmptyIffAllWhitespace | src/components/product-form.tsx:97 | `value.trim() !== ''` holds exactly when the value has a non-whitespace character (both directions) |
| JsText.Utf16Length | src/components/product-form.tsx:34 | JavaScript length is between the character count and twice that |
| AnswerLedger.KeyIndex | src/components/clarity-app.tsx:11-13 | finds the first entry with the key; none exactly when the key is absent |
| AnswerLedger.Lookup | src/components/product-form.tsx:57 | reading key k gives a value exactly when k is a key of the map, and the value read is the one stored under k |
| AnswerLedger.Put | src/components/product-form.tsx:57 | a write to an existing key replaces that entry where it stands; a new key is appended at the end |
| AnswerLedger.LookupAfterPut | src/components/product-form.tsx:57 | after a write the written key reads the new value and every other key reads as before |
| AnswerLedger.KeysAfterPut | src/components/product-form.tsx:98 | key order is unchanged by an overwrite; a new key goes last |
| AnswerLedger.PutKeepsKeysUnique | src/components/product-form.tsx:57 | writing keeps one entry per key |
| AnswerLedger.PutOverwrites | src/components/product-form.tsx:57 | a second write to the same key leaves the same map as writing only the second value |
| AnswerLedger.LedgerNoLongerThanKeySource | src/components/product-form.tsx:57 | a map whose keys come from a list of texts has at most as many entries as the list |
| QuestionIds.Decimal | src/components/product-form.tsx:76 | `${n}` is a non-empty string of decimal digits |
| QuestionIds.GeneratedId | src/components/product-form.tsx:76 | the id is `gen_`, then the round in decimal digits, then `_`, then the index in decimal digits, with nothing else |
| QuestionIds.ParseDecimalRoundTrip | src/components/product-form.tsx:76 | reading back the decimal rendering of n gives n |
| QuestionIds.ParseGeneratedIdRoundTrip | src/components/product-form.tsx:76 | parsing `gen_${round}_${index}` recovers round and index |
| QuestionIds.GeneratedIdInjective | src/components/product-form.tsx:75-79 | two generated ids are equal only if round and index both are |
| ReportTranscript.Block | src/components/clarity-app.tsx:27 | one entry's block is `Q: `, the question, a newline, `A: ` and the answer, seven characters more than question and answer together |
| ReportTranscript.Transcript | src/components/clarity-app.tsx:26-28 | the transcript is empty exactly when the map is; otherwise it starts with `Q: ` |
| ReportTranscript.TranscriptSnoc | src/components/clarity-app.tsx:26-28 | adding an entry to a non-empty map adds one blank-line separator and that entry's block |
| ReportTranscript.TranscriptConcat | src/components/clarity-app.tsx:26-28 | the transcript of two non-empty maps put together is theirs joined by one separator |
| ReportTranscript.TranscriptIsJoinedBlocks | src/components/clarity-app.tsx:26-28 | the transcript equals the blocks `Q: q\nA: a`, in key order, joined by `\n\n` as ECMAScript's `join` defines it |
| ReportTranscript.BlocksAfterOverwrite | src/components/product-form.tsx:57 | overwriting an answer rewrites its block in place and keeps every other block |
| Interview.AnswerAccepted | src/components/product-form.tsx:33-35 | any answer of at least two characters is accepted, and the empty answer never is |
| Interview.AnswerAcceptedIff | src/components/product-form.tsx:33-35 | an answer is accepted exactly when it has two characters, or one outside the BMP; whitespace counts |
| Interview.FollowUpQuestions | src/components/product-form.tsx:75-79 | the new questions keep the returned texts in order, each is a textarea, and the i-th has id `gen_${cursor}_${i}` |
| Interview.SeedIdsAreNotGenerated | src/components/product-form.tsx:27-31 | no seed question's id has the generated shape |
| Interview.FollowUpIdsStayDistinct | src/components/product-form.tsx:75-80 | appending a batch generated at the cursor keeps every id distinct and all generated rounds below the next cursor |
| Interview.RecordKeepsKeysWithin | src/components/product-form.tsx:57-58 | storing the answer to the current question keeps keys unique and drawn from the questions reached |
| Interview.FinalAnswers | src/components/product-form.tsx:94-101 | early finish adds the field value, untrimmed and with no length check, exactly when it has a non-whitespace character; otherwise it submits the answers unchanged |
| Interview.InitialStateSatisfiesInvariant | src/components/product-form.tsx:27-31 | the seed state (three questions, cursor 0, no answers) satisfies the interview invariant |
| Interview.AdvanceKeepsInvariant | src/components/product-form.tsx:57-63 | an accepted answer before the last question, then a step forward, keeps the invariant |
| Interview.StartGenerationKeepsInvariant | src/components/product-form.tsx:57-67 | an accepted answer at the last question, then the start of generation, keeps the invariant |
| Interview.AppendFollowUpsKeepsInvariant | src/components/product-form.tsx:74-81 | appending a non-empty batch and moving onto its first question keeps the invariant, ids included |
| Interview.ProductForm.constructor | src/components/product-form.tsx:40-43 | the interview starts at the first of the three seed questions, with no answers, not generating |
| Interview.ProductForm.CurrentQuestion | src/components/product-form.tsx:52 | the current question is always one of the questions; while generating it is the last one and already has an answer |
| Interview.ProductForm.IsLastQuestion | src/components/product-form.tsx:53 | true exactly when the cursor is at the last question, and always true while generating |
| Interview.ProductForm.Progress | src/components/product-form.tsx:54 | progress `cursor / length * 100` is a fraction with a positive denominator and lies below 100 |
| Interview.ProductForm.Submit | src/components/product-form.tsx:56-67 | a rejected answer changes nothing; an accepted one is stored under the current question's text with the question list unchanged; then the cursor advances by one, or at the last question generation starts and the call receives the new answers and the question text |
| Interview.ProductForm.ResolveFollowUps | src/components/product-form.tsx:68-91 | a non-empty list is appended in order after the old questions and the cursor moves to the old length; an empty or missing list or an exception submits the answers once and leaves questions and cursor; generation ends in every case |
| Interview.ProductForm.HandleFinish | src/components/product-form.tsx:94-101 | early finish submits the answers given by the early-finish rule for the current question and field value, and changes nothing |
| Interview.AnswersWithinQuestions | src/components/product-form.tsx:57 | there are never more answers than questions reached, nor than questions |
| Session.SelectView | src/components/clarity-app.tsx:50-67 | the loader exactly when loading; the report exactly when not loading, the answers are present and the summary is a non-empty string; otherwise the form |
| Session.ClarityApp.constructor | src/components/clarity-app.tsx:16-18 | the page starts with no answers, no summary, not loading, showing the form |
| Session.ClarityApp.BeginFormSubmit | src/components/clarity-app.tsx:21-30 | loading starts, the answers are held, the summary is kept, the loader shows, and the text sent is the transcript of the answers |
| Session.ClarityApp.CompleteFormSubmit | src/components/clarity-app.tsx:30-42 | success stores the summary and keeps the answers; failure drops the answers and keeps the old summary; loading ends; the report shows exactly for a non-empty summary, otherwise the form |
| Session.ClarityApp.HandleReset | src/components/clarity-app.tsx:45-48 | answers and summary are both dropped, so a second reset changes nothing, and the form shows |

## Left out

- The two AI services (the follow-up generator and the summariser) are outside calls to a remote model. Only how each call settled is modelled, as a parameter.
- Rendering, layout, icons, toasts, `console.error` and the report display are left out. The report display only lists the entries.
- The react-hook-form and zod machinery is left out. The field value at an early finish is a parameter of `HandleFinish`, and clearing the field after a submit is not modelled.
- Remounting `ProductForm` is not modelled. Showing the loader unmounts the form, so a failed summary leads back to a fresh interview. The model covers only `formData := null`.
- Concurrency is left out. Each half of a handler around its `await` is one atomic step, and the disabled buttons are preconditions.
- The progress bar's floating-point value is not modelled. Progress is kept as an exact fraction with its bound.
- JavaScript strings are sequences of UTF-16 code units and can hold unpaired surrogates, such as `"\uD800"`, whose length is 1. Dafny characters are Unicode scalar values, so answers and question texts with unpaired surrogates are outside the model. For example, `"\uD800\uD800"` passes the two-unit minimum in the source but cannot be written as a model string.
- JavaScript lists integer-like object keys before other keys. The model assumes question texts are not integer-like and keeps plain insertion order.
