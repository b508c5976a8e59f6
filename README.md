# Test-taking client: answer checking, test selection and answer-sheet state

This project models the logic core of a small single-page test-taking client
written in TypeScript. A student fetches a test by numeric id. The page shows
one blank answer field per question of the test's answer key. The student
types answers and submits them. The zustand store posts the submission to the
backend, re-fetches the test list, parses the test's JSON answer key and builds
a check result: a score text `n/m` and one verdict per submitted answer.

The model has five modules:

- `ArrayOps` (`array_ops.dfy`): `Array.prototype.find` and `filter` over sequences, with
  contracts, and the lemma that the filter's length is the number of positions that pass.
- `Records` (`records.dfy`): the store's record types (user, test, answer, payload,
  verdict, check result), what a `catch` receives, and the outcome of an awaited request.
- `Scoring` (`scoring.dfy`): the pure check inside `submitTest`. It holds the first key
  entry per question, the score numerator, the verdicts, the score text with its decimal
  digits, and the lemmas about them.
- `TestStore` (`store.dfy`): the store as a class with fields `user`, `tests`,
  `selectedTest`, `checkResult`, `loading` and `error`. `fetchUser`, `fetchTestById` and
  `submitTest` are methods. Each action is split at its first `await` into a `Start…`
  method (the synchronous `set`) and a `Finish…` method (the continuation), and the
  action runs both. `TrySubmit` is the `try` block of `submitTest` as a function.
- `TestApp` (`app.dfy`): the page component as a class whose fields are its `useState`
  variables. `handleFetchTest`, the answer-sheet effect, `handleAnswerChange` and
  `handleSubmit` are methods. It also holds the lemmas connecting the sheet to the
  store's check.

Network responses are inputs of type `Response<T>`: either the data or the thrown value.
`JSON.parse` of an answer key is a function parameter `parseKey`, and the same one is
used by the store and the page. It reports one of three outcomes: the text is not JSON,
the value is not an array, or the array's entries. The message of every exception the JavaScript engine
raises itself (a TypeError on `undefined`, a SyntaxError from the parser) comes from a
parameter `engineText`.

Answers are compared with exact string equality: no trimming and no case folding.

Two consequences of the code are proved:

- When the key has duplicate question ids, the score and the verdicts can disagree.
  The numerator counts an answer matching any entry with its id. The verdict compares
  only against the first such entry.
- A sheet built by the effect, and then edited only through `handleAnswerChange`, keeps
  the key's ids position by position. Such a sheet never reaches the crash path, given
  that the re-fetched list returns the same test.

On a failed submission `checkResult` keeps its old value. After an earlier successful
submission, the result modal therefore still shows that earlier result.

## Model

| member | source | states |
|---|---|---|
| ArrayOps.Find | src/store.ts:84 | `find` returns nothing exactly when no element passes; otherwise it returns an element that passes, and every element before it fails |
| ArrayOps.Filter | src/store.ts:117 | `filter` keeps at most all elements; it keeps all of them exactly when all pass, and none exactly when none pass |
| ArrayOps.FilterLength | src/store.ts:117 | the length of `filter`'s result is the number of positions whose element passes |
| Scoring.KeyEntry | src/store.ts:119 | the entry found for a question id exists exactly when the key has that id; it is the first key entry with that id |
| Scoring.ExactEntry | src/store.ts:117 | `find` on id and answer succeeds exactly when the submitted answer occurs in the key, with identical id and text |
| Scoring.Numerator | src/store.ts:117 | the score numerator is the number of sheet positions whose answer occurs in the key; it lies between 0 and the sheet length, equals the length exactly when every answer matches, and is 0 exactly when none matches |
| Scoring.Details | src/store.ts:118-125 | verdicts exist exactly when every submitted id has a key entry; there is one per answer, in order; id and answer text are copied; `isCorrect` is exact equality with the first key entry's answer |
| Scoring.CorrectCount | src/store.ts:118-125 | the number of "correct" verdicts is the number of positions whose verdict is correct, at most the number of verdicts |
| Scoring.Decimal | src/store.ts:117 | `${n}` gives a non-empty string of decimal digits with no leading zero |
| Scoring.DecimalValue | src/store.ts:117 | the digits of `${n}` denote `n` |
| Scoring.ScoreRoundTrip | src/store.ts:117 | the score text `n/m` reads back as exactly the pair `(n, m)` |
| Scoring.Counted | src/store.ts:117 | the filter's test keeps an answer exactly when it occurs in the key with the same id and the identical text |
| Scoring.ScoreText | src/store.ts:117 | the score text is the numerator's decimal digits, then the first `/`, then the total's decimal digits |
| Scoring.ServerScoreGiven | src/store.ts:117 | the server's score is passed over by `||` exactly when it is missing or the empty string |
| Scoring.CheckAgainstKey | src/store.ts:115-126 | a check result exists exactly when every submitted id is in the key; it carries the success message and the verdicts; its score is the non-empty server score if one is given, else the score text of (numerator, number submitted), which reads back as that pair |
| Scoring.NumeratorMatchesDetails | src/store.ts:117-125 | when key ids are unique, the score numerator equals the number of verdicts marked correct |
| Scoring.DuplicateIdsDisagree | src/store.ts:117-125 | with a key holding two entries for one id, an answer matching the second entry is counted in the numerator while its verdict says wrong |
| Scoring.VerdictOfOne | src/store.ts:118-125 | a one-answer sheet whose id is keyed gets exactly one verdict, against the first key entry for that id |
| Scoring.ComparisonIsExact | src/store.ts:119-123 | a change of letter case or a trailing blank makes the verdict wrong; the identical text makes it correct |
| TestStore.SelectTest | src/store.ts:84 | the selected test is missing exactly when no test has the id; otherwise it is the first test with that id |
| Records.ErrorText | src/store.ts:73 | a caught `Error` gives its own message; any other thrown value gives the action's fallback text |
| TestStore.TrySubmit | src/store.ts:105-126 | a failed POST or re-fetch throws its own error; a missing test, a key that is not JSON, and an unkeyed answer each raise the engine's exception; a key that is not an array raises one for a non-empty sheet, and gives the check of an empty sheet against an empty key for an empty one; with an array key, a result is obtained exactly when every submitted id is keyed, and it is then the check result for that key |
| TestStore.FailedResult | src/store.ts:134-138 | the value returned on a throw carries the failure message, no verdicts, and a score that reads back as zero out of zero |
| TestStore.FailureLooksLikeEmptyCheck | src/store.ts:115-138 | a failed submission's score and verdicts are the same as those of a successful check of an empty sheet with no server score: only the message tells them apart |
| TestStore.Store.constructor | src/store.ts:58-64 | the store starts with no user, no tests, no selection, no result, not loading and no error |
| TestStore.Store.StartRequest | src/store.ts:67 | the first step of `fetchUser` and `submitTest`: loading is set, the error is cleared, and nothing else changes |
| TestStore.Store.StartFetchTest | src/store.ts:80 | the first step of `fetchTestById`: loading is set, the error and the check result are cleared, and nothing else changes |
| TestStore.Store.FinishFetchUser | src/store.ts:68-76 | loading ends; on a response the user becomes the response's user; on a failure the error is the thrown message or the fallback and the user is kept |
| TestStore.Store.FetchUser | src/store.ts:66-77 | after the whole action loading is false; on success the user is replaced and there is no error; on failure the user is kept and the error is set |
| TestStore.Store.FinishFetchTest | src/store.ts:81-99 | loading ends; on a response the selection is the first test with the id, and a missing one sets the not-found message; on a failure the selection is kept and the error is set |
| TestStore.Store.FetchTestById | src/store.ts:79-100 | after the whole action loading is false and no check result remains; on a response the error is clear exactly when a test was found |
| TestStore.Store.FinishSubmit | src/store.ts:104-139 | loading ends; on success the result is stored and returned; on any throw the error is set, the stored result is kept, and `"0/0"` with no verdicts is returned |
| TestStore.Store.SubmitTest | src/store.ts:102-140 | after the whole action loading is false; on success the stored result equals the returned one and there is no error; user and selection never change |
| TestApp.IsMissing | src/App.tsx:20 | `!testId` holds unless the input holds a non-zero number |
| TestApp.BlankSheet | src/App.tsx:32 | the blank sheet has one entry per key entry, with the same ids in the same order, and every answer empty |
| TestApp.FittingSheetIsChecked | src/store.ts:118-125 | a sheet with the key's ids, position by position, is checked without the crash and gets one verdict per key entry |
| TestApp.BlankSheetScoresZero | src/App.tsx:32 | when no key answer is empty, the unedited blank sheet has score numerator 0 |
| TestApp.FittingSubmissionSucceeds | src/store.ts:111-125 | if the re-fetch returns the test and its key parses as an array, a sheet fitting that key always yields a check result |
| TestApp.App.constructor | src/App.tsx:13-16 | the page starts with an empty test id, an empty sheet, an empty message and the modal hidden |
| TestApp.App.EnterTestId | src/App.tsx:83 | the input handler replaces the test id and nothing else |
| TestApp.App.HandleFetchTest | src/App.tsx:19-26 | an empty or zero id shows the enter-id message and leaves the store untouched; any other id is requested from the store, which ends not loading and with no check result; after a response the selection is the first test with that id, the error is clear exactly when one was found, and otherwise it is the not-found message; after a failure the selection is kept and the error is set; the store's test list never changes |
| TestApp.App.SelectedTestEffect | src/App.tsx:28-38 | with a selected test whose key parses as an array, the sheet becomes the blank sheet of that key; with a key that is not JSON or not an array the sheet is kept and the format message is shown; with no selection nothing changes |
| TestApp.App.HandleAnswerChange | src/App.tsx:40-44 | the sheet keeps its length and all its ids; the entry at the index gets the new text; every other entry is unchanged |
| TestApp.App.HandleSubmit | src/App.tsx:46-62 | without a selected test or a user, the not-found message is shown and nothing is submitted; otherwise the payload copies the user's chat id, name, region and class, the test's id and the unchanged sheet, the store's state follows `TrySubmit`, and the modal is shown; user, selection and test list never change |

## Left out

- The markup and modals of the page are not modelled: layout, styling, the profile modal and its flag, the `disabled={loading}` buttons, and the result list. This is presentation. It includes the result modal's reference to a `totalQuestions` field that the check result does not have.
- HTTP requests, headers and the API base URL are not modelled. Each request's outcome is an input.
- `JSON.parse` is the parameter `parseKey`. Malformed key entries (a missing id or answer field, a non-numeric id) are not modelled.
- TestStore.TrySubmit: a key that is not an array raises one engine exception, whatever the value is. The engine's message differs between `null` (reading a property of null) and an object, number or string (`find` is not a function), and the model does not tell these apart.
- Exception messages raised by the JavaScript engine come from the parameter `engineText`. Their exact texts depend on the engine.
- A server score that is not a string is not modelled. The model only says whether a non-empty string score is present.
- `Number(...)` on the input text is not modelled, and the test id is an integer or empty. NaN and fractional ids are not represented.
- Scheduling is not modelled. The model does not capture when React runs the effect (after a render in which `selectedTest` changed), nor the interleaving of overlapping requests. Each `Start…`/`Finish…` step runs atomically, and the caller chooses their order.
- TestApp.App.HandleAnswerChange: the model treats the answer sheet as a value. The source copies the array but mutates the shared answer object in place, so the previous state array sees the new text too. That aliasing is not captured.
- The store's `tests` field is declared and initialised but never written by any action. The model keeps it unchanged.
