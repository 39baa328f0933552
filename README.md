# Plantguard client: state rules of the pages and forms

Plantguard is a browser client for diagnosing plant diseases. A user signs
in, uploads a plant photo, picks a species and gets a disease, stage,
severity and confidence. Signed-in users also have their results stored.
They can browse and delete their stored results. The hosted backend does the
authentication and the storage, and the "analysis" itself is a random draw
over the disease catalog.

This project models the client-side rules that decide what the pages hold
and what they send:

- `AnalysisPage` (`analysis_page.dfy`): image intake by drop or file
  picker, the species list and choice, the "Upload New Image" reset, and the
  analyze handler. The handler validates, draws a diagnosis, stores it in
  the page and inserts it as a row when someone is signed in.
- `HistoryPage` (`history_page.dfy`): fetching the user's analyses,
  selecting one for the detail card, and deleting one. A delete has three
  guards and then filters the list. Also the severity badge colour and the
  loading / empty / list render choice.
- `AuthForms` (`auth_forms.dfy`): the login and sign-up submit handlers,
  with the sign-up checks in their fixed order and the error and loading
  fields.
- `App` (`app.dfy`): the choice between loading screen, auth page and
  dashboard.
- `Types` (`types.dfy`): the user, species, disease and analysis records
  and the severity union.

Every page and form is a class whose fields are the component's state
variables. Each handler is a method whose postcondition equates the new
state, and what the handler sent to the backend, with a pure step function
of the old state (`AnalyzeStep`, `DeleteStep`, `SignUpSubmit`, ...). The
properties are proved about those step functions.

Backend calls are parameters. The catalog read, the insert, the history read,
the delete, sign-in and sign-up each arrive as a reply value (data,
returned error, or thrown exception). The confirmation dialog's answer is a
boolean. The three `Math.random` draws are reals in [0, 1). Each handler
runs as one atomic step. Where the source awaits in the middle of a handler,
the step function also returns the page as it stood at that await. The
analyze handler's `Run` records two pages: `Run.reading`, the page while the
catalog read is awaited, and `Run.stored`, the page just after the result is
stored, whether or not an insert follows. `LoginRun.pending` and
`SignUpRun.pending` are the forms while the backend call is pending.

The intended behaviour reports every failed insert, reports an empty
disease catalog as its own "data unavailable" error, and tells a failed
history read apart from an empty history. The code does less, and the model
follows the code:

- A failed insert is reported only when the awaited insert throws. An
  error that the insert returns is dropped, because the handler never reads
  the insert's reply.
- With an empty disease catalog, the drawn index is off the end of the list,
  so the result has no disease. With a user, reading that disease's id throws
  and the handler sets "Analysis failed. Please try again."; without a user it
  sets no error. Either way the disease-less result is stored and the
  result-card condition (line 206) holds, but rendering the cards reads the
  missing disease's name (line 233) and throws, which is not modelled, so
  neither the result nor the message is actually displayed. There is no
  separate "data unavailable" error.
- A history read that returns an error leaves the list as it was and ends
  loading, so a first fetch that fails renders as "No analyses yet"
  (`FetchErrorLooksEmpty`). A read that is rejected is not caught: the
  effect stops before loading ends, so the page stays on the loading view
  (`UnansweredFetchStaysLoading`).
- A delete that is rejected is not caught either. The handler stops before
  touching the page, exactly as it does for a returned error, so both are
  the one reply `DeleteFailed`.
- Only the drop path checks that the file is an image. The file picker takes
  any file.

## Model

| member | source | states |
|---|---|---|
| `Types.SeverityFromName` | Frontend/src/types/index.ts:37 | only the four severity texts read back as a severity, and each reads back to the severity that has that text |
| `Types.SeverityNameRoundTrip` | Frontend/src/types/index.ts:37 | every severity is recovered from its own text, so the four texts are distinct |
| `AnalysisPage.SeverityOfStage` | Frontend/src/pages/AnalysisPage.tsx:74-75 | for stage 1 to 4 the table gives the severity whose ordinal is that stage (Low, Medium, High, Critical); any other stage falls back to Low |
| `AnalysisPage.SeverityOfStageOf` | Frontend/src/pages/AnalysisPage.tsx:74-75 | the table lookup and the ordinal are inverse: each severity's ordinal is in 1..4 and looks up to that severity |
| `AnalysisPage.DrawIndex` | Frontend/src/pages/AnalysisPage.tsx:72 | the drawn index is a valid position in a non-empty catalog; for an empty catalog it is 0, off the end |
| `AnalysisPage.DrawStage` | Frontend/src/pages/AnalysisPage.tsx:73 | the drawn stage is an integer from 1 to 4 |
| `AnalysisPage.EveryStageDrawable` | Frontend/src/pages/AnalysisPage.tsx:73 | each of the four stages is produced by some draw |
| `AnalysisPage.DrawConfidence` | Frontend/src/pages/AnalysisPage.tsx:81 | the confidence lies in [85, 100) |
| `AnalysisPage.Diagnose` | Frontend/src/pages/AnalysisPage.tsx:69-82 | the result has a disease exactly when the catalog is non-empty, and that disease comes from the catalog; its stage is in 1..4 and its severity corresponds to the stage; its confidence is in [85, 100) |
| `AnalysisPage.DropStep` | Frontend/src/pages/AnalysisPage.tsx:39-48 | a drop ends the drag; it replaces the image only with a file whose type starts with `image/`, and otherwise leaves the image alone; nothing else changes |
| `AnalysisPage.FileInputStep` | Frontend/src/pages/AnalysisPage.tsx:50-57 | the picker takes any chosen file as the image, whatever its type; no file means no change; nothing else changes |
| `AnalysisPage.DropAndPickerAgreeOnImages` | Frontend/src/pages/AnalysisPage.tsx:39-57 | for an image file both intake paths select the same image; a non-image file is ignored by a drop but taken by the picker |
| `AnalysisPage.SpeciesLoadStep` | Frontend/src/pages/AnalysisPage.tsx:17-28 | with no data nothing changes; with data the list is stored and the first species' id is preselected, or the empty id when the list is empty |
| `AnalysisPage.DragOverStep` | Frontend/src/pages/AnalysisPage.tsx:30-33 | dragging over the drop zone sets the dragging flag; every other field is kept |
| `AnalysisPage.DragLeaveStep` | Frontend/src/pages/AnalysisPage.tsx:35-37 | leaving the drop zone clears the dragging flag; every other field is kept |
| `AnalysisPage.ChooseSpeciesStep` | Frontend/src/pages/AnalysisPage.tsx:131-133 | the chosen id becomes the selected species and every other field is kept; the page can then be analyzed exactly when it has an image and the id is not empty |
| `AnalysisPage.UploadNewStep` | Frontend/src/pages/AnalysisPage.tsx:274-278 | the reset clears both the image and the stored result, so the page can no longer pass validation; nothing else changes |
| `AnalysisPage.RecordOf` | Frontend/src/pages/AnalysisPage.tsx:87-97 | the inserted row carries the user's id, the selected species and image, the result's disease id, stage, severity and confidence, the segmentation payload `{ segmented: true }` and the note "Analysis completed"; a result whose severity matches its stage gives a row whose severity matches its stage |
| `AnalysisPage.AnalysisFails` | Frontend/src/pages/AnalysisPage.tsx:68-101 | the catch is reached whenever the catalog read throws; without a user only then; with an empty catalog exactly when there is a user (the missing disease's id is read); with a non-empty catalog exactly when there is a user and the insert throws, so a returned insert error never reaches it |
| `AnalysisPage.AnalyzeStep` | Frontend/src/pages/AnalysisPage.tsx:59-105 | a missing image or species sets the prompt and reads nothing, inserts nothing and changes nothing else. Past validation: the catalog is read on the old page with the spinner on and the message cleared (`reading`), the spinner is off at the end, and the final message is "Analysis failed. Please try again." exactly when `AnalysisFails`, otherwise empty. The result is stored (line 84), exactly when the catalog read returned, on the reading page with only the result added (`stored`), while still busy, and it is kept whatever the insert does. The stored result is a consistent diagnosis from the catalog. A row is inserted exactly when a user exists and a disease was drawn; it is `RecordOf` the stored result, so it carries the user's id, the selected species and image, the stored stage, severity and confidence with severity matching stage, the segmentation payload and the note. The image, species, species list and drag flag never change |
| `AnalysisPage.ResultCardsWaitForSpinner` | Frontend/src/pages/AnalysisPage.tsx:193-206 | the result-card condition of line 206 is false on the reading and stored pages (the spinner is on) and holds on the final page for the stored result, with or without an error; that result lacks a disease exactly when the catalog was empty, in which case rendering the cards throws at line 233 (not modelled) |
| `AnalysisPage.AnalyzeAfterUploadNewRejected` | Frontend/src/pages/AnalysisPage.tsx:59-63 | after "Upload New Image", analyzing only sets the prompt: no read and no insert |
| `AnalysisPage.AnalyzeSignedOutNeverInserts` | Frontend/src/pages/AnalysisPage.tsx:86-98 | without a user nothing is inserted, and a run whose catalog read returned ends with no error |
| `AnalysisPage.InsertFailureKeepsResult` | Frontend/src/pages/AnalysisPage.tsx:84-104 | a thrown insert and a successful one insert the same row and end with the same stored result; the final pages differ only in the message |
| `AnalysisPage.Component.constructor` | Frontend/src/pages/AnalysisPage.tsx:8-14 | the page starts with no image, no species list, the empty species, no result, no error, not dragging and not analyzing |
| `AnalysisPage.Component.HandleDragOver` | Frontend/src/pages/AnalysisPage.tsx:30-33 | sets the dragging flag and nothing else |
| `AnalysisPage.Component.HandleDragLeave` | Frontend/src/pages/AnalysisPage.tsx:35-37 | clears the dragging flag and nothing else |
| `AnalysisPage.Component.HandleDrop` | Frontend/src/pages/AnalysisPage.tsx:39-48 | the new page state is `DropStep` of the old one |
| `AnalysisPage.Component.HandleFileInput` | Frontend/src/pages/AnalysisPage.tsx:50-57 | the new page state is `FileInputStep` of the old one |
| `AnalysisPage.Component.FetchSpecies` | Frontend/src/pages/AnalysisPage.tsx:17-28 | the new page state is `SpeciesLoadStep` of the old one |
| `AnalysisPage.Component.ChooseSpecies` | Frontend/src/pages/AnalysisPage.tsx:131-133 | choosing in the selector sets the selected species and nothing else |
| `AnalysisPage.Component.UploadNewImage` | Frontend/src/pages/AnalysisPage.tsx:274-278 | the new page state is `UploadNewStep` of the old one |
| `AnalysisPage.Component.HandleAnalyze` | Frontend/src/pages/AnalysisPage.tsx:59-105 | the page afterwards, whether the catalog was read, and the inserted row are those of `AnalyzeStep` on the page before |
| `HistoryPage.Without` | Frontend/src/pages/HistoryPage.tsx:67 | the filtered list is no longer than the old one, and holds exactly the old records whose id differs |
| `HistoryPage.WithoutIsSubsequence` | Frontend/src/pages/HistoryPage.tsx:67 | the records that survive a delete keep their relative order |
| `HistoryPage.WithoutCounts` | Frontend/src/pages/HistoryPage.tsx:67 | each record whose id differs is kept as many times as it occurred, and none with the id is left |
| `HistoryPage.WithoutConcat` | Frontend/src/pages/HistoryPage.tsx:67 | filtering a concatenation filters each part in place |
| `HistoryPage.WithoutAbsent` | Frontend/src/pages/HistoryPage.tsx:67 | filtering by an id that no record has returns the list unchanged |
| `HistoryPage.WithoutIdempotent` | Frontend/src/pages/HistoryPage.tsx:67 | filtering twice by one id is filtering once |
| `HistoryPage.WithoutCommutes` | Frontend/src/pages/HistoryPage.tsx:67 | filtering by two ids gives the same list in either order |
| `HistoryPage.SeverityColor` | Frontend/src/pages/HistoryPage.tsx:35-48 | total over all strings: anything that is not one of the four severity texts gets the slate default, and the four texts never get it |
| `HistoryPage.SeverityColorsDistinct` | Frontend/src/pages/HistoryPage.tsx:35-48 | different severities get different class strings |
| `HistoryPage.FetchStep` | Frontend/src/pages/HistoryPage.tsx:13-33 | without a user nothing is read and nothing changes, so loading stays on. With a user the read is filtered by the user's id; a rejected read changes nothing, so loading stays on; otherwise loading ends, a returned error keeps the list, and success stores the returned rows or the empty list; the selection is untouched |
| `HistoryPage.DeleteStep` | Frontend/src/pages/HistoryPage.tsx:50-71 | confirmation is asked only with a user; the request, scoped by record id and user id, is sent only with a user and a confirmation. No user, a refusal, or a returned or rejected backend error leave the page exactly as it was. On success the list is the old list filtered by the id, loading is unchanged, and the selection is cleared exactly when it was the deleted record and is otherwise kept |
| `HistoryPage.SelectStep` | Frontend/src/pages/HistoryPage.tsx:299-303 | "View Details" makes the clicked list element the selection, which is therefore a listed record; list and loading flag are kept |
| `HistoryPage.CloseStep` | Frontend/src/pages/HistoryPage.tsx:118-121 | closing the detail card leaves no selection; list and loading flag are kept |
| `HistoryPage.DeleteKeepsSelectionListed` | Frontend/src/pages/HistoryPage.tsx:67-70 | if the selection was a listed record, after any delete outcome it still is, or there is none |
| `HistoryPage.ListStaysOwned` | Frontend/src/pages/HistoryPage.tsx:17-27 | if the server returns only the user's rows, the list then holds only the user's records, and deletes keep it that way |
| `HistoryPage.DeleteAbsentKeepsList` | Frontend/src/pages/HistoryPage.tsx:67 | a successful delete of an id that no listed record has leaves the list unchanged |
| `HistoryPage.DeleteTwiceIsDeleteOnce` | Frontend/src/pages/HistoryPage.tsx:50-71 | a second successful delete of the same id changes nothing further |
| `HistoryPage.TwoDeletes` | Frontend/src/pages/HistoryPage.tsx:50-71 | after successful deletes of two ids neither is listed, the rest keep their order, and the order of the two deletes does not matter |
| `HistoryPage.ViewOf` | Frontend/src/pages/HistoryPage.tsx:73-102 | the loading view exactly while loading, then the empty notice exactly when the list is empty, otherwise the non-empty list with the selection as detail card |
| `HistoryPage.UnansweredFetchStaysLoading` | Frontend/src/pages/HistoryPage.tsx:13-30 | a loading page stays on the loading view when the fetch has no user or its read is rejected |
| `HistoryPage.FetchErrorLooksEmpty` | Frontend/src/pages/HistoryPage.tsx:23-29 | a failed first fetch renders the same empty notice as a fetch of no rows or of null data |
| `HistoryPage.Component.constructor` | Frontend/src/pages/HistoryPage.tsx:8-10 | the page starts with an empty list, loading, and no selection |
| `HistoryPage.Component.FetchAnalyses` | Frontend/src/pages/HistoryPage.tsx:13-33 | the page afterwards and the owner filter sent are those of `FetchStep` |
| `HistoryPage.Component.HandleDelete` | Frontend/src/pages/HistoryPage.tsx:50-71 | the page afterwards, whether confirmation was asked, and the request sent are those of `DeleteStep` |
| `HistoryPage.Component.Select` | Frontend/src/pages/HistoryPage.tsx:299-303 | selects the clicked list element and changes nothing else |
| `HistoryPage.Component.CloseDetails` | Frontend/src/pages/HistoryPage.tsx:118-121 | clears the selection and changes nothing else |
| `AuthForms.FailureText` | Frontend/src/components/AuthForms.tsx:116 | the error shown is the thrown message when it is non-empty and the form's fallback otherwise (also line 25), hence never empty when the fallback is not |
| `AuthForms.SignUpProblem` | Frontend/src/components/AuthForms.tsx:100-108 | the form may proceed exactly when the passwords match and have at least 6 characters; a mismatch is reported as "Passwords do not match" even when the password is also short; a matching short password is reported as "Password must be at least 6 characters" |
| `AuthForms.LoginSubmit` | Frontend/src/components/AuthForms.tsx:16-29 | login always calls sign-in with the typed email and password (no local checks); while pending the error is clear and loading is on; afterwards loading is off; onSuccess runs exactly on success; a failure leaves a non-empty error, which is the thrown message when there is one |
| `AuthForms.SignUpSubmit` | Frontend/src/components/AuthForms.tsx:96-120 | sign-up is called, and a pending phase with loading on and the error cleared exists, exactly when both checks pass; a failed check leaves only its message changed, with no call and no onSuccess; after a call loading is off, onSuccess runs exactly on success, and a failure leaves a non-empty error, the thrown message when there is one |
| `AuthForms.EmptyMessageFallsBack` | Frontend/src/components/AuthForms.tsx:113-116 | an empty thrown message shows "Sign up failed", and on the login form (line 25) "Login failed" |
| `AuthForms.FiveCharacterPasswordRefused` | Frontend/src/components/AuthForms.tsx:105-108 | an example: a matching five-character password is refused locally with the length message and no call |
| `AuthForms.MismatchReportedFirst` | Frontend/src/components/AuthForms.tsx:100-108 | an example of the check order: when the passwords differ and are short, the mismatch message is shown |
| `AuthForms.LoginForm.constructor` | Frontend/src/components/AuthForms.tsx:10-13 | the login form starts with empty fields, no error and not loading |
| `AuthForms.LoginForm.SetEmail` | Frontend/src/components/AuthForms.tsx:40 | typing sets the email and nothing else |
| `AuthForms.LoginForm.SetPassword` | Frontend/src/components/AuthForms.tsx:55 | typing sets the password and nothing else |
| `AuthForms.LoginForm.HandleSubmit` | Frontend/src/components/AuthForms.tsx:16-29 | the form afterwards, the sign-in call and whether onSuccess ran are those of `LoginSubmit` |
| `AuthForms.SignUpForm.constructor` | Frontend/src/components/AuthForms.tsx:89-93 | the sign-up form starts with empty fields, no error and not loading |
| `AuthForms.SignUpForm.SetEmail` | Frontend/src/components/AuthForms.tsx:131 | typing sets the email and nothing else |
| `AuthForms.SignUpForm.SetPassword` | Frontend/src/components/AuthForms.tsx:146 | typing sets the password and nothing else |
| `AuthForms.SignUpForm.SetConfirmPassword` | Frontend/src/components/AuthForms.tsx:161 | typing sets the confirmation and nothing else |
| `AuthForms.SignUpForm.HandleSubmit` | Frontend/src/components/AuthForms.tsx:96-120 | the form afterwards, the sign-up call (if any) and whether onSuccess ran are those of `SignUpSubmit` |
| `App.AppContent` | Frontend/src/App.tsx:6-21 | exactly one of three views: the loading screen exactly while loading, whatever the user; then the dashboard exactly when there is a user and the auth page exactly when there is none |
| `App.AppContentIgnoresWhichUser` | Frontend/src/App.tsx:20 | the view depends on the user only through whether there is one |

## Left out

- The backend library calls are not modelled. Each call's outcome is a
  parameter. The owner filter and the delete's two conditions are recorded
  as the arguments sent (`FetchRun.query`, `DeleteRequest`). Whether the
  server honours them, and whether it sorts by creation time, cannot be
  checked here. `ListStaysOwned` takes the server's honouring of the filter
  as its hypothesis.
- The random draws are inputs in [0, 1). That the draws are uniform is not
  stated.
- AnalysisPage.DrawConfidence: computed on exact reals, not binary64
  floating point. With binary64 rounding, the largest draw below 1 gives
  85 + u * 15 == 100 exactly, so 100 itself is reachable in the browser.
  The `toFixed` display formatting is also left out.
- The file read (`FileReader`) completes inside the drop and picker steps.
  Its asynchronous completion is not modelled.
- Concurrency is not modelled. Each handler is one atomic step, so
  overlapping handlers and late replies are out of scope. So is the stale
  selection that the delete handler reads from its render.
- The session store and its subscription are not modelled: `context/AuthContext` is not part of this model.
  `App.AppContent` and the pages take `loading` and the user as inputs.
- The confirmation dialog is a boolean input. Scrolling on select and the
  console logging are dropped.
- All markup and styling is left out, along with the two navigation pages
  (`DashboardPage.tsx`, `AuthPage.tsx`). This includes when the "Analyze
  Plant" button is visible and the drag highlight. The browser's `required`
  check on empty form fields is also left out. The severity class strings
  are kept, because `getSeverityColor` is part of the page's logic.
- The render failure that a disease-less result causes (reading the name of
  a missing disease at line 233 of `AnalysisPage.tsx`, with no error boundary
  in `App.tsx`) is not modelled: `ResultCardsShown` is the condition of line
  206 only, not a statement that the cards render.
- An `onSuccess` callback that itself throws is not modelled.
- AuthForms.SignUpProblem: counts password length in Unicode scalar values,
  while the source counts UTF-16 code units. The two differ for characters
  outside the Basic Multilingual Plane.
- The free-form records are simplified. The user's metadata is a
  string-to-string map, and the segmentation payload is a string-to-boolean
  map.
