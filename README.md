# Soap-ASMR workflow controller, modelled in Dafny

Soap-ASMR is a browser tool that turns a screenshot of a soap-crushing ASMR
video into four text-to-video prompts, one per content type (Dust Core,
Clay Core, Starch Core, Cutting Soap). The user uploads or pastes an image.
An AI service describes the scene as a "tone block". The user reviews, edits
or regenerates that text. The service then rewrites four master-prompt
templates with it. The prompts can be edited by hand or refined by the AI,
saved to a session history, restored and deleted.

This project models the workflow controller of `App.tsx`. That is the
component state (status, selected file, tone block, result, error message,
history, the id of the history item on screen, the refining flag and the
templates) and every handler that changes it. It also models the record types
of `types.ts` and the two template updates of `components/TemplateEditor.tsx`.

Files and modules:

- `options.dfy` (`Options`): the optional value used for the source's `T | null`.
- `types.dfy` (`Types`): `ContentType`, `PerType<T>` (the source's
  `Record<ContentType, T>`: one field per type, so it is total by construction),
  `GeneratedResult`, `PromptTemplates`, `HistoryItem`, `AppStatus`.
- `gateway.dfy` (`Gateway`): what the controller exchanges with the AI service.
  That is the request it sends and the `Outcome` the call settles with,
  `Ok(text)` or `Err(message)`.
- `template_editor.dfy` (`TemplateEditor`): `updateMasterPrompt` and the
  tone-block-template update, as pure functions on `PromptTemplates`.
- `workflow.dfy` (`Workflow`): the controller state as a `Session` value and
  one pure transition per handler step. A handler that awaits the service is
  split at the `await` into a "started" and a "finished" transition, so
  `ANALYZING_TONE`, `GENERATING_PROMPTS` and `isRefiningPrompt` are visible.
- `app.dfy` (`AppController.App`): the component as a class. Each hook is a
  field and each handler (or half handler) is a method that assigns the fields
  in the source's order. Each method's `ensures` ties the new state to the
  matching `Workflow` transition of the old state. The method also keeps
  `Valid()`, which says the SUCCESS status always has a result. The
  `forEach` that assembles the four prompts (App.tsx:110-113) is a loop that
  builds a dictionary from empty, with its invariant.
- `workflow_properties.dfy` (`WorkflowProperties`): handler calls run to
  completion (`Apply`) and sequences of them (`Run`). It holds the
  history-bookkeeping invariant and the scenarios the workflow promises. It
  also shows what late responses can do.

The central property is about `loadedHistoryId`. It is the only thing that
keeps "new session" from saving a restored, unmodified result a second time.
`Saved` states what it stands for: a loaded id names a history item whose
snapshot is exactly the result on screen, and history ids are never empty.
`RunKeepsSaved` proves that every sequence of complete handler calls keeps
this. `NewSessionSavesOnce` proves that, under it, a new session leaves the
discarded result in the history. It adds an item only when the result was not
loaded from there.

Behaviours of the handlers that the model keeps as written:

- The handlers have no staleness check on late responses.
  `LateRefinementAfterRestore` and `LateGenerationAfterRestore` show the
  effect. A response that settles after a restore changes the restored result
  while it is still marked as loaded. The next new session then drops the change.
- A failed extraction goes to ERROR or back to REVIEW_TONE depending on the
  handler: `handleFileSelect` always goes to ERROR and `handleRegenerateTone`
  always goes back to REVIEW_TONE, whether or not a tone block exists.
- The selected file is kept after a failed extraction (App.tsx:41 is never undone).
- A new session does not reset `isRefiningPrompt`.
- A restore and a successful regeneration leave `errorMsg` as it was.
- The "not already refining" guard lives in the result panel
  (components/ResultDisplay.tsx:39), not in the handler. It is a `requires` of
  `AppController.App.RefinePrompt`.
- `!loadedHistoryId` is also true for an empty id, so the model treats an
  empty id as unset (`HoldsUnsavedResult`).

## Model

| member | source | states |
|---|---|---|
| `Types.ContentTypesClosed` | types.ts:1 | ContentType is exactly the four labels; CONTENT_TYPES lists each once, and distinct types have distinct labels |
| `Types.PerType.Set` | components/TemplateEditor.tsx:17-20 | a keyed spread update sets the entry for one type and leaves the other three as they were |
| `Types.PerTypeExtensional` | types.ts:5 | two per-type records that agree on every content type are equal |
| `Types.FromMap` | App.tsx:110-113 | a dictionary with an entry for every content type reads as the per-type record with those entries |
| `Types.GeneratedResult.WithPrompt` | App.tsx:140-148 | the `{...prev, prompts: {...prev.prompts, [type]: p}}` copy replaces one prompt; the other three and finalToneBlock are unchanged |
| `Types.AppStatusesClosed` | types.ts:20-27 | AppStatus has exactly six states, with pairwise distinct string values |
| `TemplateEditor.UpdateMasterPrompt` | components/TemplateEditor.tsx:14-22 | sets the master prompt of the given type; the other three master prompts and the tone-block template are unchanged |
| `TemplateEditor.UpdateToneBlockTemplate` | components/TemplateEditor.tsx:77 | replaces the tone-block template verbatim; the master prompts are unchanged |
| `TemplateEditor.UpdateMasterPromptIdempotent` | components/TemplateEditor.tsx:14-22 | applying the same master-prompt update twice equals applying it once |
| `TemplateEditor.UpdateMasterPromptWithCurrent` | components/TemplateEditor.tsx:14-22 | writing back a type's current master prompt leaves the templates unchanged |
| `TemplateEditor.UpdateMasterPromptsCommute` | components/TemplateEditor.tsx:14-22 | updates to two different content types commute |
| `TemplateEditor.TemplateEditsCommute` | components/TemplateEditor.tsx:77 | a tone-block-template edit and a master-prompt edit commute |
| `Workflow.Initial` | App.tsx:25-37 | the mount state: IDLE, no file, empty tone block, no result, no message, empty history, nothing loaded, not refining |
| `Workflow.FileSelected` | App.tsx:40-46 | selecting a file sets ANALYZING_TONE and that file, and clears result, message, tone block and loaded id; history and templates are kept |
| `Workflow.ToneExtracted` | App.tsx:48-56 | success puts the extracted text in the tone block and goes to REVIEW_TONE; failure goes to ERROR with the fixed message; result and loaded id are untouched |
| `Workflow.PastedImage` | App.tsx:61-73 | a paste selects a file iff focus is not in a text field and the first pasted file's MIME type starts with "image/"; that first file is the one selected |
| `Workflow.ToneBlockEdited` | App.tsx:292 | a tone-block edit replaces only the working tone block |
| `Workflow.RegenerateRequested` | App.tsx:81-83 | with no selected file nothing changes; otherwise only the status becomes ANALYZING_TONE, the tone block is kept |
| `Workflow.ToneRegenerated` | App.tsx:84-92 | always back to REVIEW_TONE; success replaces the tone block; failure keeps it and sets "Failed to regenerate. " + the error message |
| `Workflow.GenerationStarted` | App.tsx:95-98 | starting generation sets GENERATING_PROMPTS and clears the message and the loaded id; result and tone block are kept |
| `Workflow.Texts` | App.tsx:101-106 | the four response texts keyed by the type each was requested for |
| `Workflow.RejectionMessage` | App.tsx:108 | the message a rejected Promise.all carries is the message of some failed rewrite |
| `Workflow.PromptsGenerated` | App.tsx:100-125 | all four successes give SUCCESS with one prompt per type (each the text of its own rewrite) over the tone block captured at call time; any failure gives REVIEW_TONE, keeps the previous result and reports a failed rewrite's message |
| `Workflow.CollectKeyedByType` | App.tsx:110-113 | with distinct types, the dictionary the forEach builds has exactly the entries' types as keys and each entry's prompt under its type |
| `Workflow.CollectOrderIndependent` | App.tsx:108-113 | the assembled dictionary is the same for any order in which the four entries arrive |
| `Workflow.SettledCollectsTexts` | App.tsx:108-113 | collecting what Promise.all resolves to gives a total dictionary equal to the four texts keyed by type |
| `Workflow.RefineStarted` | App.tsx:128-134 | with no result nothing changes; otherwise it sets the refining flag and clears the message and the loaded id, keeping the result |
| `Workflow.RefineFinished` | App.tsx:136-155 | success replaces only the refined type's prompt; failure keeps the result and sets the refine message naming the type; the refining flag is cleared either way |
| `Workflow.PromptEdited` | App.tsx:158-171 | with no result nothing changes; otherwise only that type's prompt is replaced and the loaded id is cleared |
| `Workflow.Decimal` | App.tsx:177 | `Date.now().toString()` is a non-empty string of decimal digits |
| `Workflow.DecimalRoundTrip` | App.tsx:177 | reading the digits of a clock reading back gives the reading |
| `Workflow.DecimalInjective` | App.tsx:177 | ids made from different clock readings differ |
| `Workflow.NewSession` | App.tsx:173-191 | appends exactly one item (the current result, at the end) iff there is a result and no loaded id, nothing otherwise; then resets to IDLE with no file, empty tone block, no result, no message, nothing loaded |
| `Workflow.Restored` | App.tsx:193-199 | restore shows the item's result and tone block in SUCCESS, clears the file and marks the item's id as loaded |
| `Workflow.WithoutId` | App.tsx:202 | the filtered history holds exactly the items whose id differs from the deleted one |
| `Workflow.WithoutIdConcat` | App.tsx:202 | the filter works item by item, so the kept items stay in their original order |
| `Workflow.WithoutAbsentId` | App.tsx:202 | deleting an id no item has leaves the history unchanged |
| `Workflow.HistoryDeleted` | App.tsx:201-207 | deletion removes the items with that id, clears the loaded id only if it is that id, and leaves result and status untouched |
| `Workflow.MasterPromptEdited` | components/TemplateEditor.tsx:14-22 | a master-prompt edit changes only that type's master prompt in the application's templates |
| `Workflow.ToneBlockTemplateEdited` | components/TemplateEditor.tsx:77 | a tone-block-template edit changes only the tone-block template in the application's templates |
| `AppController.App.constructor` | App.tsx:13-37 | the fields start as the mount state over the given templates |
| `AppController.App.SelectFile` | App.tsx:40-49 | performs the file-selection step on the fields and returns the extraction request over the current tone-block template, without feedback |
| `AppController.App.CompleteToneExtraction` | App.tsx:48-56 | performs the extraction-settled step on the fields |
| `AppController.App.Paste` | App.tsx:61-73 | changes nothing and sends nothing unless the paste guard yields a file; then it performs the file-selection step for it |
| `AppController.App.EditToneBlock` | App.tsx:292 | replaces the tone block field |
| `AppController.App.RegenerateTone` | App.tsx:81-85 | no change and no request without a file; otherwise ANALYZING_TONE and an extraction request carrying the feedback |
| `AppController.App.CompleteRegeneration` | App.tsx:84-92 | performs the regeneration-settled step on the fields |
| `AppController.App.GeneratePrompts` | App.tsx:95-106 | performs the generation-started step and returns the captured tone block together with, for every type, a rewrite request over that tone block and the type's master prompt |
| `AppController.App.CompleteGeneration` | App.tsx:100-125 | performs the batch-settled step; its loop assembles the prompts keyed by type from an empty dictionary |
| `AppController.App.RefinePrompt` | App.tsx:128-138 | performs the refine-started step and returns a refine request over the type's current prompt; callable only while no refinement is in flight |
| `AppController.App.CompleteRefinement` | App.tsx:136-155 | performs the refine-settled step on the fields |
| `AppController.App.UpdatePrompt` | App.tsx:158-171 | performs the manual-edit step on the fields |
| `AppController.App.NewSession` | App.tsx:173-191 | appends the item when the guard holds and resets the fields, as the new-session step |
| `AppController.App.RestoreFromHistory` | App.tsx:193-199 | performs the restore step on the fields |
| `AppController.App.DeleteHistory` | App.tsx:201-207 | filters the history field and clears the loaded id only if it was the deleted one |
| `AppController.App.EditMasterPrompt` | components/TemplateEditor.tsx:14-22 | applies updateMasterPrompt to the templates field |
| `AppController.App.EditToneBlockTemplate` | components/TemplateEditor.tsx:77 | applies the tone-block-template update to the templates field |
| `WorkflowProperties.ApplyKeepsSaved` | App.tsx:173-207 | every handler call run to completion keeps the bookkeeping: a loaded id names a history item whose snapshot is the result shown |
| `WorkflowProperties.RunKeepsSaved` | App.tsx:35-36 | every sequence of complete handler calls (restoring only listed items) keeps that bookkeeping |
| `WorkflowProperties.SavedFromStart` | App.tsx:34-36 | from the mount state every such sequence keeps the bookkeeping |
| `WorkflowProperties.NewSessionSavesOnce` | App.tsx:173-182 | under the bookkeeping, a new session keeps the old history as a prefix, adds one item iff nothing was loaded, and leaves the discarded result in the history |
| `WorkflowProperties.HistoryOnlyGrows` | App.tsx:181 | apart from deletion, no handler alters or removes a saved item: the old history stays a prefix |
| `WorkflowProperties.RestoreThenNewSessionAppendsNothing` | App.tsx:175 | restoring an item and starting a new session at once adds no history item |
| `WorkflowProperties.EditAfterRestoreAppendsOne` | App.tsx:158-171 | a manual edit after a restore clears the loaded id, and the next new session appends exactly the edited result |
| `WorkflowProperties.RefineAfterRestoreAppendsOne` | App.tsx:128-156 | a successful refinement after a restore clears the loaded id, and the next new session appends exactly the refined result |
| `WorkflowProperties.UploadEditGenerateScenario` | App.tsx:40-125 | upload, extraction, a tone-block edit, a successful batch and a new session save the generated prompts with the edited tone block as finalToneBlock |
| `WorkflowProperties.FailedExtraction` | App.tsx:52-56 | a failed first extraction gives ERROR with the fixed message, an empty tone block, no result, and keeps the file |
| `WorkflowProperties.RegenerationOutcomes` | App.tsx:81-92 | regenerating without a file changes nothing; a failed regeneration returns to REVIEW_TONE with the tone block intact and the message set |
| `WorkflowProperties.FailedGenerationKeepsResult` | App.tsx:121-124 | a failed batch returns to REVIEW_TONE with the previous result and no loaded id |
| `WorkflowProperties.LateRefinementAfterRestore` | App.tsx:136-149 | a refinement that settles after a restore alters the restored result while it stays marked as loaded, and the next new session saves nothing |
| `WorkflowProperties.LateGenerationAfterRestore` | App.tsx:108-119 | a batch that settles after a restore replaces the restored result while it stays marked as loaded, and the next new session saves nothing |

## Left out

- The AI service calls (services/geminiService.ts): the network client and the browser FileReader are not part of this model. Each call is its request plus an `Outcome` the caller supplies. Trimming of the response and the "empty response is an error" rule belong to the service, and an `Err` outcome stands for them.
- Concurrency of the four rewrites (App.tsx:108): the model treats the batch as all-or-nothing over four outcomes. Timing and the order of arrival are not modelled, apart from the order-independence of the assembly.
- Workflow.RejectionMessage: Promise.all reports the first rejection in time. The model picks the first failed type in list order. The contract states only that the message is that of some failed rewrite.
- Persistence of the templates in localStorage and their JSON encoding (App.tsx:13-23): browser storage I/O. The constructor takes the templates it starts from, and the built-in default templates of constants.ts are not part of this model.
- `Date.now()` (App.tsx:177-178): the two clock readings are parameters of the new-session step.
- The drop handler (components/ImageUpload.tsx:51-56) is not modelled separately. It applies the same first-file "image/" check as the paste guard, without the focus test.
- The refine panel's blank-instruction check (components/ResultDisplay.tsx:39): only its "not already refining" half is kept, as a precondition. The JavaScript whitespace class is not modelled.
- Presentation: rendering, clipboard copy, timers, object URLs, drag highlighting, `preventDefault` and `console.error`.
- The regeneration feedback and the refine instruction reach only the requests. How the service builds its prompts from them is not modelled.
