# Survey wizard core, modelled in Dafny

This project models the logic of a four-step web survey (personal information,
map-based location tagging, review, completion). The model covers:

- the survey record, its empty value, and the browser storage slot under the
  key `lifestyle-survey-data` that holds it between visits, including the
  simulated server submission that stamps `completedAt`
  (`survey_storage.dfy`, module `SurveyStorage`);
- the per-step gate `canProceed` and the Back/Next navigation of the stepper
  (`form_stepper.dfy`, module `FormStepper`);
- the form controller: its four state fields, the field-by-field record
  updates, the load effect that resumes only an unfinished record, the save
  effect that is suppressed while submitting, the submission and the "start a
  new survey" reset (`survey_form.dfy`, module `SurveyForm`, class
  `SurveyForm`);
- the editing of tagged locations in the map component: the type-to-colour
  table, the draft of a new location and its append, removal by id, the
  rejection of a blank search and the selection of a search result
  (`mapbox_map.dfy`, module `MapboxMap`, class `MapPanel`);
- the two JavaScript string built-ins these rely on, `trim` and
  `split(sep)[0]` (`js_string.dfy`, module `JsString`).

Storage is a class holding a `map` from keys to stored values; JSON encoding
is taken as the identity, and a slot may also hold text that is not a
serialised record. Clock readings (`Date.now()` ids, the ISO timestamp) and
`Math.random` coordinates are parameters. Asynchronous steps are split where
it matters: a submission is a click that starts it and a later resolution.

The model follows the code as it is written, including these behaviours
that are easy to overlook:

- the first step requires age, gender, occupation, home address, city and
  state; the ZIP code and the home coordinates are not required there
  (src/components/FormStepper.tsx:29-34);
- the location step requires the home coordinates, and only them
  (src/components/FormStepper.tsx:38-43);
- `loadSurveyData` does not fall back to the empty record on unreadable text:
  `JSON.parse` fails, and the model returns `LoadFailed`
  (src/utils/surveyStorage.ts:65);
- the stepper's own Next button at the review step (labelled "Submit")
  reaches the completion step without a submission
  (`FormStepper.NextFromReviewReachesCompletion`);
- Back is not disabled at the completion step: it returns to the review step
  (src/components/FormStepper.tsx:64, `FormStepper.PreviousStep`).

## Model

| member | source | states |
|---|---|---|
| `JsString.TrimStart` | src/components/FormStepper.tsx:33 | the result is the suffix of the input left after removing only leading whitespace, and starts with a non-whitespace character if non-empty |
| `JsString.TrimEnd` | src/components/FormStepper.tsx:33 | the result is the prefix left after removing only trailing whitespace, and ends with a non-whitespace character if non-empty |
| `JsString.TrimEmptyIffBlank` | src/components/FormStepper.tsx:33 | `s.trim() === ''` holds exactly when every character of `s` is ECMAScript whitespace or a line terminator |
| `JsString.TrimIsInnerSlice` | src/components/FormStepper.tsx:33 | the trimmed string is a contiguous slice of the input, and only whitespace was cut at either end |
| `JsString.Trim` | src/components/FormStepper.tsx:33 | `trim()` never lengthens the string, and a non-empty result neither starts nor ends with whitespace |
| `JsString.SplitHead` | src/components/MapboxMap.tsx:470-476 | `split(sep)[0]` is a prefix of the input with no occurrence of `sep` starting inside it, followed either by the end of the input or by an occurrence of `sep` |
| `JsString.SplitHeadOfJoin` | src/components/MapboxMap.tsx:470 | splitting `head + sep + tail` gives `head` back when no occurrence of `sep` starts inside `head` |
| `SurveyStorage.SetField` | src/components/SurveyForm.tsx:55-63 | the spread copy with `[field]: value` sets that field and leaves the other eight text fields and the home coordinates as they were |
| `SurveyStorage.EmptySurveyData` | src/utils/surveyStorage.ts:42-55 | all nine personal text fields are "", no home coordinates, no locations, no `completedAt` |
| `SurveyStorage.Stamp` | src/utils/surveyStorage.ts:79-82 | the stamped copy has `completedAt` set to the given time and the same personal information and locations |
| `SurveyStorage.SaveTo` | src/utils/surveyStorage.ts:58-60 | saving writes the record under `lifestyle-survey-data` and leaves every other key and its value unchanged |
| `SurveyStorage.ClearFrom` | src/utils/surveyStorage.ts:69-71 | clearing removes only the survey key |
| `SurveyStorage.LoadFrom` | src/utils/surveyStorage.ts:63-66 | an absent slot loads as the empty record; loading fails exactly when the slot holds non-empty text that is not a record |
| `SurveyStorage.LoadAfterSave` | src/utils/surveyStorage.ts:58-66 | after saving `d`, loading returns `d`, since both use the same key |
| `SurveyStorage.LoadAfterClear` | src/utils/surveyStorage.ts:63-71 | after clearing, loading returns the empty record |
| `SurveyStorage.SaveOverwrites` | src/utils/surveyStorage.ts:58-60 | a second save replaces the first |
| `SurveyStorage.LocalStorage.Save` | src/utils/surveyStorage.ts:58-60 | the slots become `SaveTo` of the old slots |
| `SurveyStorage.LocalStorage.Load` | src/utils/surveyStorage.ts:63-66 | returns `LoadFrom` of the current slots and changes nothing |
| `SurveyStorage.LocalStorage.Clear` | src/utils/surveyStorage.ts:69-71 | the slots become `ClearFrom` of the old slots |
| `SurveyStorage.LocalStorage.SaveSurveyToServer` | src/utils/surveyStorage.ts:74-94 | always reports success with "Survey data successfully saved", and the slot then loads as the record stamped with the given time |
| `FormStepper.Filled` | src/components/FormStepper.tsx:33 | a field passes the `value && value.trim() !== ''` test exactly when it holds a non-whitespace character |
| `FormStepper.AllFilled` | src/components/FormStepper.tsx:32-34 | `every` holds exactly when each listed field passes the test |
| `FormStepper.RequiredFieldsFilled` | src/components/FormStepper.tsx:29-34 | the required list is age, gender, occupation, home address, home city and home state |
| `FormStepper.CanProceed` | src/components/FormStepper.tsx:25-53 | at step 0 the gate is open iff each of age, gender, occupation, home address, city and state holds a non-whitespace character; at step 1 iff the home coordinates are present; always at Review; never at Completion or any other number |
| `FormStepper.PersonalInfoGateReadsRequiredOnly` | src/components/FormStepper.tsx:29-34 | two records that agree on the six required fields get the same step-0 gate, so ZIP, income, education and coordinates do not matter |
| `FormStepper.OptionalEditKeepsGate` | src/components/FormStepper.tsx:29-34 | editing a field outside the required list leaves the step-0 gate unchanged |
| `FormStepper.BlankRequiredFieldCloses` | src/components/FormStepper.tsx:32-34 | setting a required field to a blank value, whitespace only included, closes the step-0 gate |
| `FormStepper.NextStep` | src/components/FormStepper.tsx:56-61 | Next moves to `step + 1` exactly when the gate is open and `step < children.length - 1`, else stays, and keeps a valid step within range |
| `FormStepper.PreviousStep` | src/components/FormStepper.tsx:63-68 | Back moves to `step - 1` exactly when `step > 0`, else stays, and never goes below 0 |
| `FormStepper.BackFromLocationInfo` | src/components/FormStepper.tsx:63-68 | Back from step 1 reaches step 0, and Back from step 0 does nothing |
| `FormStepper.NextFromReviewReachesCompletion` | src/components/FormStepper.tsx:56-61 | with four children, Next at Review reaches Completion for any answers, without a submission |
| `FormStepper.NextIsGated` | src/components/FormStepper.tsx:56-61 | Next changes the step only from a step before the last whose gate is open, and the result is a survey step |
| `SurveyForm.WithPersonalField` | src/components/SurveyForm.tsx:55-63 | only personal field `f` changes; other fields, coordinates, locations and `completedAt` are kept |
| `SurveyForm.WithHomeCoordinates` | src/components/SurveyForm.tsx:66-74 | the home coordinates become `c`; everything else is kept |
| `SurveyForm.WithLocations` | src/components/SurveyForm.tsx:77-82 | the location list is replaced; personal information and `completedAt` are kept |
| `SurveyForm.WithPersonalFieldSameValue` | src/components/SurveyForm.tsx:55-63 | writing a field's current value back gives the same record |
| `SurveyForm.WithPersonalFieldCommutes` | src/components/SurveyForm.tsx:55-63 | updates of two different fields commute |
| `SurveyForm.Resumable` | src/components/SurveyForm.tsx:42 | `!savedData.completedAt` fails exactly when a non-empty completion time is stored |
| `SurveyForm.AdoptSaved` | src/components/SurveyForm.tsx:39-45 | the saved record replaces the current one only if it has no (or an empty) `completedAt` |
| `SurveyForm.StampedIsNotResumed` | src/components/SurveyForm.tsx:42-44 | a record stamped with a non-empty time is never resumed |
| `SurveyForm.PersistOnChange` | src/components/SurveyForm.tsx:48-52 | while submitting nothing is written; otherwise the slot then loads as the current record; other keys are kept |
| `SurveyForm.StepAfterSubmit` | src/components/SurveyForm.tsx:88-99 | a successful result moves to Completion; a failed result or a thrown error leaves the step |
| `SurveyForm.SubmissionAlwaysCompletes` | src/utils/surveyStorage.ts:90-93 | since the simulated server always succeeds, a submission always reaches Completion |
| `SurveyForm.SlotsAfterSubmit` | src/components/SurveyForm.tsx:48-52 | after the stamped save of a submission and the save effect re-run by `setIsSubmitting(false)` (line 101), the slot loads as the current unstamped record; other keys are kept |
| `SurveyForm.SubmittedStampIsOverwritten` | src/components/SurveyForm.tsx:48-52 | after a submission as written, the slot loads as the unstamped record, which a later visit resumes |
| `SurveyForm.PersistOnChangeGuarded` | src/components/SurveyForm.tsx:48-52 | the corrected save effect writes nothing while submitting or at Completion |
| `SurveyForm.GuardedSubmitKeepsStamp` | src/components/SurveyForm.tsx:85-103 | with the corrected effect, the slot keeps the stamped record and a later visit starts empty |
| `SurveyForm.SurveyForm.constructor` | src/components/SurveyForm.tsx:33-36 | initial state: step 0, empty record, not submitting, terms not accepted |
| `SurveyForm.SurveyForm.SaveEffect` | src/components/SurveyForm.tsx:48-52 | the slots become `PersistOnChange` of the old slots, the record and the flag |
| `SurveyForm.SurveyForm.Mount` | src/components/SurveyForm.tsx:39-52 | on mount the saved record is adopted only if unfinished and is then written back; a parse failure changes nothing |
| `SurveyForm.SurveyForm.UpdatePersonalInfo` | src/components/SurveyForm.tsx:55-63 | the record becomes `WithPersonalField`, the other state is kept, and the save effect runs |
| `SurveyForm.SurveyForm.UpdateHomeCoordinates` | src/components/SurveyForm.tsx:66-74 | the record becomes `WithHomeCoordinates`, the other state is kept, and the save effect runs |
| `SurveyForm.SurveyForm.UpdateLocations` | src/components/SurveyForm.tsx:77-82 | the record becomes `WithLocations`, the other state is kept, and the save effect runs |
| `SurveyForm.SurveyForm.GoToNextStep` | src/components/FormStepper.tsx:56-61 | the step becomes `NextStep` under the current gate; nothing else changes |
| `SurveyForm.SurveyForm.GoToPreviousStep` | src/components/FormStepper.tsx:63-68 | the step becomes `PreviousStep`; nothing else changes |
| `SurveyForm.SurveyForm.SetAcceptedTerms` | src/components/SurveyForm.tsx:380-383 | the checkbox sets `hasAcceptedTerms` and nothing else |
| `SurveyForm.SurveyForm.SubmitClicked` | src/components/SurveyForm.tsx:398-401 | offered only at the review step, where the button is rendered (lines 313-414, src/components/FormStepper.tsx:103); a submission starts exactly when the terms are accepted and none is running; it sets `isSubmitting` and captures the record |
| `SurveyForm.SurveyForm.ResolveSubmit` | src/components/SurveyForm.tsx:85-103 | on resolution the step becomes Completion and the slot ends as the save effect leaves it after the stamped save; when the call throws the step stays and only the save effect writes; in both cases `isSubmitting` is false again |
| `SurveyForm.SurveyForm.StartNewSurvey` | src/components/SurveyForm.tsx:106-111 | the record becomes empty, the step 0, terms not accepted, and the save effect writes the empty record |
| `SurveyForm.FillAndReachReview` | src/components/SurveyForm.tsx:33-82 | on a storage with no saved survey, answering the six required fields with non-blank text, setting home and pressing Next twice reaches the review step with an unfinished record |
| `SurveyForm.SubmitThenReopen` | src/components/SurveyForm.tsx:39-103 | from any state at the review step with an unfinished record, accepting the terms and submitting leaves the survey at Completion, and the next visit on the same storage resumes the same record, unstamped, at step 0 |
| `SurveyForm.SubmittedSurveyIsResumed` | src/components/SurveyForm.tsx:39-103 | the full run on a fresh storage (fill, set home, Next twice, accept, submit, reopen) resumes the submitted answers as an unfinished survey at step 0 |
| `MapboxMap.FindType` | src/components/MapboxMap.tsx:221 | `find` returns nothing exactly when no row has the value, and otherwise a row with that value |
| `MapboxMap.FindTypeFirst` | src/components/MapboxMap.tsx:221 | `find` returns the first row carrying the value |
| `MapboxMap.TypeValuesDistinct` | src/components/MapboxMap.tsx:208-217 | the table lists each type once |
| `MapboxMap.FindTypeUnique` | src/components/MapboxMap.tsx:221 | in a table listing each value once, `find` returns the row carrying the value |
| `MapboxMap.ColorForType` | src/components/MapboxMap.tsx:220-222 | each listed type gets its own row's colour, any other string gets '#6B7280', and the colour is never empty |
| `MapboxMap.ColorTable` | src/components/MapboxMap.tsx:208-222 | the colour of each of the eight types, and '#6B7280' for any other string |
| `MapboxMap.RemoveById` | src/components/MapboxMap.tsx:707 | no entry with the id remains, and the list does not grow |
| `MapboxMap.RemoveByIdAppend` | src/components/MapboxMap.tsx:707 | the filter distributes over concatenation |
| `MapboxMap.RemoveByIdKeepsOrder` | src/components/MapboxMap.tsx:707 | the remaining entries are a subsequence of the list, in their original order |
| `MapboxMap.RemoveByIdCounts` | src/components/MapboxMap.tsx:707 | every entry without the id is kept as many times as it occurred; entries with the id are gone |
| `MapboxMap.RemoveAbsentId` | src/components/MapboxMap.tsx:707 | removing an id no entry carries changes nothing |
| `MapboxMap.RemoveViaPopup` | src/components/MapboxMap.tsx:352-356 | the popup's remove button filters only when its id is non-empty |
| `MapboxMap.NewLocation` | src/components/MapboxMap.tsx:364-386 | no location when the draft's name or type is empty; otherwise one with the draft's name, type and frequency and the given id and coordinates |
| `MapboxMap.RemoveUndoesAdd` | src/components/MapboxMap.tsx:380-388 | removing the id of a location just appended under an unused id gives the original list back |
| `MapboxMap.MockResults` | src/components/MapboxMap.tsx:411-436 | three results whose place names start with the query followed by " - " |
| `MapboxMap.ResultName` | src/components/MapboxMap.tsx:470-476 | `place_name.split(' - ')[0]` is the place name up to its first " - ", or the whole name when it has none |
| `MapboxMap.SelectedNameIsQuery` | src/components/MapboxMap.tsx:467-478 | selecting any result of a query without '-' names the draft after the query |
| `MapboxMap.SelectedNameTruncatesQuery` | src/components/MapboxMap.tsx:470 | a query containing " - " is cut at it: "Main St - Downtown" names the draft "Main St" |
| `MapboxMap.MockHomeLocation` | src/components/MapboxMap.tsx:494-504 | once the map has loaded, the mocked home position (-73.9665, 40.7812) is handed on; before that nothing |
| `MapboxMap.MapPanel.constructor` | src/components/MapboxMap.tsx:198-204 | the draft starts as name "" and type "home", the add form closed, no query and no results |
| `MapboxMap.MapPanel.ToggleAdding` | src/components/MapboxMap.tsx:550 | the add/cancel button flips `isAddingLocation` only |
| `MapboxMap.MapPanel.SetDraftName` | src/components/MapboxMap.tsx:601 | the name input replaces the draft name only |
| `MapboxMap.MapPanel.SetDraftType` | src/components/MapboxMap.tsx:610 | the type select replaces the draft type only |
| `MapboxMap.MapPanel.SetDraftFrequency` | src/components/MapboxMap.tsx:635 | the frequency select sets the draft frequency only |
| `MapboxMap.MapPanel.AddNewLocation` | src/components/MapboxMap.tsx:363-393 | with an empty name or type nothing changes; otherwise the list handed on is the old one plus exactly one new entry, the draft resets to name '' and type 'home', and the form closes |
| `MapboxMap.MapPanel.SetSearchQuery` | src/components/MapboxMap.tsx:519 | the search box sets the query only |
| `MapboxMap.MapPanel.SearchLocation` | src/components/MapboxMap.tsx:396-438 | a query blank after trimming is rejected with the results unchanged; otherwise the three mocked results replace them |
| `MapboxMap.MapPanel.SelectSearchResult` | src/components/MapboxMap.tsx:459-483 | the draft name becomes the text before the first " - "; an open form keeps its type and frequency, a closed one opens with type 'other'; the results are cleared |

## Findings

| source | as written | input that shows it | evidently intended | confidence | as-written member | corrected member |
|---|---|---|---|---|---|---|
| src/components/SurveyForm.tsx:48-52 | the save effect depends on `isSubmitting`; when `handleSubmit` sets it back to false (line 101), the effect writes `surveyData`, which has no `completedAt`, over the stamped record that `saveSurveyToServer` just saved (src/utils/surveyStorage.ts:88) | fill the six required fields, set home, press Next twice, accept the terms, submit, then reopen the survey on the same storage: the answers are resumed at step 0 as an unfinished survey | the completed record stays in storage with its `completedAt`, so that a later visit starts fresh, as the comment at src/components/SurveyForm.tsx:41 ("If there's saved data but it's already completed, start fresh") and the one at src/utils/surveyStorage.ts:87 (save "with completion timestamp") state | high for the write order as modelled; not executed | `SurveyForm.SubmittedStampIsOverwritten`, with the run itself in `SurveyForm.SubmittedSurveyIsResumed` | `SurveyForm.PersistOnChangeGuarded` with `SurveyForm.GuardedSubmitKeepsStamp` |

The class `SurveyForm.SurveyForm` keeps the save effect as written, so that
its methods match the component; the corrected effect and its property are
stated beside it.

## Left out

- JSON encoding: `JSON.stringify`/`JSON.parse` are taken as the identity on records; a slot holding other text is `Text(raw)`, and loading it fails (or, for "", gives the empty record). Text that parses into some non-record value is treated as a failure too.
- What React does after the load effect throws (the error propagates out of the effect); the model reports the failure and changes nothing.
- React render and effect scheduling beyond the save effect: `canProceed` is held in state and updated by an effect one render after a change; the model computes it fresh. The transient save of the initial record on mount is modelled; its final effect on storage is the same.
- The mock mapping SDK (map, markers, popups, navigation control, event listeners), the marker effect that rebuilds markers for the locations, map centring and zoom: stand-ins for a third-party library that work on DOM elements and timers.
- Random coordinates for new locations and search results, `Date.now()` ids and the ISO timestamp: parameters of the model. Ids are not claimed unique.
- `isSearching`, the `readOnly` prop, toasts, `console` output, the simulated delays, `window.scrollTo`, `navigate("/")`, and all markup and animation.
- `SurveyForm.SurveyForm.StartNewSurvey`: assumes the form stays mounted long enough for the save effect to write the empty record. The handler also calls `navigate("/")` (src/components/SurveyForm.tsx:110), which most likely unmounts the survey page in the same render; storage would then keep the previous record. The application's routes are not part of this model.
- `SurveyForm.SurveyForm.ResolveSubmit`: a resolved result with `success: false` is not modelled in the class, because the simulated server always succeeds (src/utils/surveyStorage.ts:90-93); `SurveyForm.StepAfterSubmit` covers that case for the step. A thrown call is taken to have saved nothing, and the save effect's own write after it is taken to succeed.
- Which visible child holds a control: the terms checkbox and the submit button exist only at the review step, which `SubmitClicked` requires; the other step views are not modelled.
- `updatePersonalInfo` accepts any key of PersonalInfo, but only the nine text fields are ever passed a string; the model covers those nine.
- `MapboxMap.RemoveById`: its own contract states only that the id is gone and the list does not grow; content and order are stated by `RemoveByIdCounts` and `RemoveByIdKeepsOrder`.
- `MapboxMap.RemoveViaPopup`: its contract does not restate the remaining content, which follows from the lemmas about `RemoveById`.
- The progress bar component and the page components: presentation and routing only.
