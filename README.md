# Ad script generator: the client-side state machines, in Dafny

The ad script generator lets a user enter a brief (niche, keywords, audience).
It asks a generation service for an advertising script with art direction. It
shows the result and lets the user have single lines rewritten from free-text
feedback. This project models the two React components that hold all of the
client's state:

- **The intake form** (`ScriptGenerationForm`). It edits a three-field record one
  field at a time and submits it once. On success it navigates to
  `/results?data=<encoded result>`; on failure it shows an error.
- **The results view** (`ScriptResults`). It loads the document once from the
  `data` query parameter and toggles a single selected line. It sends the
  selected line with the user's feedback to the refinement service and writes
  the returned line back into the same slot of the lines array.

Each component is modelled twice, and the two are proved to agree:

- as a value (`SessionView`, `FormView`) with one function per event handler
  (`ClickLine`, `RefineStarted`, `RefineCompleted`, `Change`, `SubmitStarted`,
  `SubmitCompleted`, ...);
- as a class (`ScriptResults.Session`, `ScriptGenerationForm.Form`) whose fields
  are the component's state variables. The session keeps the script lines in an
  `array` that a successful refine updates in place. Every method ensures
  `View() == <handler function>(old(View()), ...)`.

Each asynchronous handler is split at its `await` into a `Start…` method and a
`Complete…(reply)` method. The network reply is an input:
`Refined(line) | RefineNotOk | RefineThrew(thrown)` for a refine, and
`Generated(doc) | GenerateNotOk | GenerateThrew(thrown)` for a generation. The
refine handler's closure captures the selected index when it is invoked. The
model keeps that index in `refiningIndex`, and the reply is written there
whatever is selected when it arrives.

Whole interaction histories are folds (`Run`) of a `Step` function over event
sequences. An event the page cannot deliver changes nothing: a click on a line
that does not exist, typing without the feedback box, a press of a disabled
button, a reply with no request in flight. The lemmas about `Run` are the
history-level guarantees:

- at most one request of each kind is in flight;
- refinement never changes the line count, the duration or the art direction;
- a refine commits to the line it captured;
- submission never edits the form;
- every navigation carries a successful reply's encoded result.

The JSON and URI functions used for the handoff between the two views are
library code. Module `Handoff` takes them as parameters (`Library`), and
`Documented` lists the properties of them it relies on.

Four behaviours of the code differ from what a reader might expect, and the
model follows the code:

- **Clicking a line twice.** Two clicks on the same line do not always leave
  nothing selected: they leave that line selected again when it was selected to
  begin with (`ClickTwice`).
- **Shape check on load.** Loading does not check the shape of the payload; it
  only parses it (`LoadData` takes a decode function and claims nothing about
  shape).
- **Empty fields.** Submitting with an empty field does not produce a
  validation error from the component: the browser's `required` check stops
  the submit event (`StartSubmit` requires `AllFilled`, and `Step` ignores an
  undeliverable submit).
- **Feedback without a selection.** Typed feedback is not ignored while nothing
  is selected: the feedback box exists only while a line is selected
  (`HandleFeedbackChange` requires a selection), and the invariant `Inv`
  keeps the feedback empty whenever nothing is selected.

Some members carry no contract of their own and are named here with the code
they model:

- `ScriptGenerationForm.Run` (frontend_app/src/components/ScriptGenerationForm.tsx:22-53,
  113) folds the form's `Step` over a history; the lemmas about it are in the
  table below.
- `Handoff.UrlData` (frontend_app/src/components/ScriptGenerationForm.tsx:42) is
  the `data` value the form puts in the URL,
  `encodeURIComponent(JSON.stringify(result))`.
- `Handoff.DecodeAsWritten` (frontend_app/src/components/ScriptResults.tsx:42) is
  the results view's decode as written, `JSON.parse(decodeURIComponent(data))`.
- `Handoff.DataParam` (frontend_app/src/components/ScriptResults.tsx:39) is
  `searchParams.get('data')` on the page the form navigated to.
- `Handoff.InputsParam` (frontend_app/src/components/ScriptResults.tsx:77) is the
  `inputs` query parameter after the handoff, which the form never sets.
- `Handoff.ShownAfterSubmit` (frontend_app/src/components/ScriptGenerationForm.tsx:42,
  frontend_app/src/components/ScriptResults.tsx:32-47) is the form's
  `router.push` after a successful reply followed by the results view's mount
  and load effect; every handoff lemma is stated through it.

## Model

| member | source | states |
|---|---|---|
| `ScriptDocuments.ReplaceLine` | frontend_app/src/components/ScriptResults.tsx:87-88 | the refined document has the same line count, duration and art direction; slot k holds the new line; every other line is unchanged |
| `Errors.ShownMessage` | frontend_app/src/components/ScriptResults.tsx:92-93 | an `Error` shows its own message; any other thrown value shows 'An error occurred' |
| `ScriptResults.LoadData` | frontend_app/src/components/ScriptResults.tsx:38-47 | an absent or empty `data` parameter is not decoded (no data); a decode failure is malformed; otherwise the decoded document is loaded |
| `ScriptResults.Mount` | frontend_app/src/components/ScriptResults.tsx:32-47 | after mounting and the load effect: nothing selected, empty feedback, no refine in flight; the document is present exactly when the load succeeded; `error` is 'Failed to parse script data' exactly when decoding failed; the invariant holds |
| `ScriptResults.Session.constructor` | frontend_app/src/components/ScriptResults.tsx:32-47 | the component's fields and a fresh lines array hold exactly `Mount`'s state |
| `ScriptResults.Toggle` | frontend_app/src/components/ScriptResults.tsx:58 | the selection becomes none if and only if the clicked line was selected; otherwise it is the clicked line |
| `ScriptResults.ClickLine` | frontend_app/src/components/ScriptResults.tsx:57-60 | a click toggles the selection and always leaves the feedback empty; nothing else changes |
| `ScriptResults.Session.HandleLineClick` | frontend_app/src/components/ScriptResults.tsx:57-60 | the fields follow `ClickLine`; the lines array is not touched |
| `ScriptResults.ClickTwice` | frontend_app/src/components/ScriptResults.tsx:58-59 | two clicks on line i leave line i selected if it was selected before, and nothing selected otherwise; feedback ends empty |
| `ScriptResults.EditFeedback` | frontend_app/src/components/ScriptResults.tsx:131-133 | typing replaces the feedback and nothing else |
| `ScriptResults.Session.HandleFeedbackChange` | frontend_app/src/components/ScriptResults.tsx:131-133 | the fields follow `EditFeedback`; only possible with a selection |
| `ScriptResults.RefineStarted` | frontend_app/src/components/ScriptResults.tsx:62-66 | without a selection or with empty feedback nothing changes; otherwise a refine is in flight, `error` is cleared and the selected index is captured; document, selection and feedback unchanged |
| `ScriptResults.RefineRequestFor` | frontend_app/src/components/ScriptResults.tsx:74-78 | the request carries the text of the selected line, the non-empty feedback and the `inputs` parameter |
| `ScriptResults.Session.StartRefine` | frontend_app/src/components/ScriptResults.tsx:62-79 | the fields follow `RefineStarted`; the returned request is `RefineRequestFor` when the guard passes and none when the handler returns early |
| `ScriptResults.RefineFailureMessage` | frontend_app/src/components/ScriptResults.tsx:81-83 | a non-ok status gives 'Failed to refine script'; a thrown value gives its shown message |
| `ScriptResults.RefineCompleted` | frontend_app/src/components/ScriptResults.tsx:81-96 | the refine ends either way; on success the captured slot takes the returned line (`ReplaceLine`), selection and feedback are cleared and `error` is unchanged; on failure document, selection and feedback are unchanged and `error` holds the failure message |
| `ScriptResults.Session.CompleteRefine` | frontend_app/src/components/ScriptResults.tsx:81-96 | the fields follow `RefineCompleted`; the same lines array is updated in place |
| `ScriptResults.Step` | frontend_app/src/components/ScriptResults.tsx:57-96 | every event, including one the page cannot deliver, keeps the invariant: a refine is in flight exactly when an index is captured, selected and captured indices name lines, feedback is empty whenever nothing is selected, and `error` stays clear while refining |
| `ScriptResults.Run` | frontend_app/src/components/ScriptResults.tsx:57-96 | every history keeps the invariant, including empty feedback whenever nothing is selected |
| `ScriptResults.RefineSingleFlight` | frontend_app/src/components/ScriptResults.tsx:138-140 | over any history, refine requests sent equal replies handled plus the change in `isRefining`, so at most one refine is ever outstanding |
| `ScriptResults.EmptyStateIsFinal` | frontend_app/src/components/ScriptResults.tsx:49-55 | in the empty state no history changes anything |
| `ScriptResults.HistoryKeepsShape` | frontend_app/src/components/ScriptResults.tsx:87-89 | no history changes the line count, the duration or the art direction |
| `ScriptResults.InFlightRefineUndisturbed` | frontend_app/src/components/ScriptResults.tsx:57-60 | clicks and typing while a refine is in flight leave the captured index, the document and the cleared error alone |
| `ScriptResults.RefineCommitsToCapturedLine` | frontend_app/src/components/ScriptResults.tsx:62-96 | whatever is clicked or typed in flight, a successful reply replaces exactly the line selected at the start and clears selection, feedback and error; a failed one leaves the document as it was, keeps the current selection and feedback and sets the message |
| `ScriptResults.TwoLineRefineScenario` | frontend_app/src/components/ScriptResults.tsx:57-96 | select line 1 of two, type feedback, refine, reply: only line 1 changes, and the selection and feedback are cleared |
| `ScriptGenerationForm.WithField` | frontend_app/src/components/ScriptGenerationForm.tsx:50-53 | the named field takes the new value; the other two keep theirs |
| `ScriptGenerationForm.Change` | frontend_app/src/components/ScriptGenerationForm.tsx:50-53 | a change event updates exactly the named field of the form data and nothing else of the state |
| `ScriptGenerationForm.Form.HandleChange` | frontend_app/src/components/ScriptGenerationForm.tsx:50-53 | the fields follow `Change` |
| `ScriptGenerationForm.Form.constructor` | frontend_app/src/components/ScriptGenerationForm.tsx:13-19 | empty fields, not loading, no error, no navigation |
| `ScriptGenerationForm.SubmitStarted` | frontend_app/src/components/ScriptGenerationForm.tsx:22-25 | loading starts and `error` is cleared; form data and navigation unchanged |
| `ScriptGenerationForm.Form.StartSubmit` | frontend_app/src/components/ScriptGenerationForm.tsx:22-34 | the fields follow `SubmitStarted`; the request body is the form data as it stands; callable only with the button enabled and all required fields filled |
| `ScriptGenerationForm.SubmitFailureMessage` | frontend_app/src/components/ScriptGenerationForm.tsx:36-38 | a non-ok status gives 'Failed to generate script'; a thrown value gives its shown message |
| `ScriptGenerationForm.SubmitCompleted` | frontend_app/src/components/ScriptGenerationForm.tsx:36-47 | loading ends and form data is untouched either way; success navigates to `/results` with the encoded result and leaves `error` as it was; failure navigates nowhere and sets the message |
| `ScriptGenerationForm.Form.CompleteSubmit` | frontend_app/src/components/ScriptGenerationForm.tsx:36-47 | the fields follow `SubmitCompleted` |
| `ScriptGenerationForm.Step` | frontend_app/src/components/ScriptGenerationForm.tsx:22-53 | an event the page cannot deliver changes nothing; only an edit changes the form data; loading starts only from a submit with every required field filled |
| `ScriptGenerationForm.FormDataOnlyFromEdits` | frontend_app/src/components/ScriptGenerationForm.tsx:22-53 | after any history the form data is exactly what the user's edits made of it; submitting and its outcome never change it |
| `ScriptGenerationForm.RequestsCarryFilledEdits` | frontend_app/src/components/ScriptGenerationForm.tsx:22-34 | every generation request a history sends comes from a submit event, carries a form whose three required fields are all non-empty, and that form is exactly what the edits before that submit made of the starting data |
| `ScriptGenerationForm.SubmitSingleFlight` | frontend_app/src/components/ScriptGenerationForm.tsx:111-113 | over any history, generation requests sent equal replies handled plus the change in `isLoading`, so at most one is ever outstanding |
| `ScriptGenerationForm.NavigationOnlyOnSuccess` | frontend_app/src/components/ScriptGenerationForm.tsx:36-44 | any navigation a history records carries the encoded result of a successful reply in it |
| `Handoff.AsWrittenHandoffRejects` | frontend_app/src/components/ScriptResults.tsx:42 | as written, a generated document whose JSON text holds a bare '%' reaches the results view as the empty state with 'Failed to parse script data' |
| `Handoff.AsWrittenHandoffWithoutPercent` | frontend_app/src/components/ScriptResults.tsx:38-47 | as written, a document whose JSON text has no '%' arrives intact with no error |
| `Handoff.CorrectedHandoffDelivers` | frontend_app/src/components/ScriptGenerationForm.tsx:42 | with one decode, every generated document arrives intact, with no error, nothing selected, no refine in flight and no original inputs (`searchParams.get('inputs')` is null, since the form sets only `data`) |
| `Handoff.BarePercentSurvivesQuoting` | frontend_app/src/components/ScriptGenerationForm.tsx:42 | a bare '%' in text that a longer string quotes (the text followed by a closing '"') is still bare in that string |
| `Handoff.FiftyPercentOffIsLost` | frontend_app/src/components/ScriptResults.tsx:42 | as written, a generated document with a line reading "50% off" reaches the results view as the empty state with 'Failed to parse script data', since `JSON.stringify` writes that text verbatim inside a string literal |

## Findings

| source | as written | input that shows it | evidently intended | confidence | as-written member | corrected member |
|---|---|---|---|---|---|---|
| frontend_app/src/components/ScriptResults.tsx:42 | `JSON.parse(decodeURIComponent(data))`, where `data` comes from `useSearchParams().get`, which has already undone the `encodeURIComponent` of ScriptGenerationForm.tsx:42, so the JSON text is percent-decoded a second time | a generated script with a line reading "50% off": the '%' is followed by a space, `decodeURIComponent` throws, and the results view shows "No script data available" | `JSON.parse(data)`: every generated document reaches the results view | not executed; high (the second decode also silently rewrites text such as "%41" into "A", which the abstract decode does not show) | `Handoff.FiftyPercentOffIsLost` | `Handoff.CorrectedHandoffDelivers` |

The results view class takes its decode function as a parameter. The
end-to-end handoff lemma `CorrectedHandoffDelivers` instantiates it with the
corrected decode `Handoff.DecodeCorrected`.

## Left out

- Rendering and styling (the JSX of both components, and the two page files) are not modelled. They are display code; only the conditions that decide whether an element exists or is enabled are kept, in `Deliverable`, `RefineButtonEnabled` and `SubmitEnabled`.
- `fetch`, `response.json()`, `router.push` and `useSearchParams` are I/O and are not modelled. Replies are parameters of the `Complete…` methods, navigation is the ghost field `navigatedTo`, and the query parameters are constructor arguments.
- `JSON.stringify`, `JSON.parse`, `encodeURIComponent`, `decodeURIComponent` and the query-string decoding are library code. They are the parameters in `Handoff.Library`, with only the properties listed in `Handoff.Documented`.
- A payload that parses but is not a document is not modelled, because the decode in the model yields only documents. The component does not check the shape: a payload that parses to null or another falsy value shows the empty state with no error, and an object of another shape renders what it can or throws while rendering.
- A refinement reply whose `lines` array is empty is not modelled, because the component would store `undefined` in the slot. `Refined` carries exactly the first returned line.
- The server and generation service (the Python backend) are not part of this model. The request bodies are modelled as values only: the refine request's `original_inputs` is a string or null, as the client sends it.
- React's batching of state updates, re-running the load effect when the query parameters change, and replies arriving after the component has unmounted are not modelled. The load runs once, in the constructor, and every handler runs to completion in order.
- Whitespace-only input: the browser's `required` check counts any non-empty value as filled, whitespace included, and so does the model's `AllFilled`; nothing trims the fields.
