# ID Compass — a Dafny model of its core

ID Compass is a React application that walks an instructional designer
through a twelve-phase workflow (kickoff, needs analysis, action map,
content, objectives, … evaluation). A project holds twelve phases; each
phase has a status, a phase-specific data record and a chat history with
an AI co-pilot. This project models, in Dafny, the parts of that code that
are logic rather than layout:

- `types.dfy` (`Types`): the entities of `types.ts` — statuses, roles,
  chat messages, the phase data records, phases, projects and phase
  configurations. It also holds the record shapes that `Canvas.tsx` reads
  for phases 5, 6, 8 and 12.
- `constants.dfy` (`Constants`): the phase table, the initial data of
  phases 1–4 and `createNewProject`.
- `app.dfy` (`App`): the state of `App.tsx` as a class `AppState`
  (project, view, active phase id). Its handlers rewrite the phase list by
  id through pure functions.
- `phase_inputs.dfy` (`PhaseInputs`): the field editors and the action-map
  row operations (add, update, remove by id) of `PhaseInputs.tsx`.
- `gemini_service.dfy` (`GeminiService`): how the co-pilot and artifact
  requests are built, the ten-message history window, the prompt templates,
  and the fallback texts. The model service's answer is a parameter.
- `ai_copilot.dfy` (`AICopilot`): `handleSend` as a class `CoPilotPanel`
  with `input` and `isThinking`. The send is split at the `await` into
  `HandleSend` (guard, optimistic user turn) and `ResolveSend` (reply
  merge).
- `canvas.dfy` (`Canvas`): the non-visual helpers of `Canvas.tsx`:
  - which view a phase id gets;
  - the fields and labels of the generic document view (`key.replace(…)`
    chain), and the status badge text;
  - the storyboard's scene numbers and screen-type default.
- `js.dfy` (`Js`) and `wrappers.dfy` (`Wrappers`): the JavaScript string
  built-ins the code calls (`trim`, `indexOf`, `replace`, `padStart`,
  `String(n)`), and `Option`.

Where the code differs from the documented behaviour, the model follows
the code:

- **Thinking flag.** The flag is one per chat panel, not one per phase, so
  while a reply is pending and the workspace stays shown, no phase can
  send. "Back to Dashboard" unmounts the panel and "Continue Project"
  mounts a new one that starts idle, so a second send is accepted while
  the first reply is still pending (`AICopilot.RemountDuringReply`). When
  the first reply arrives, its `finally` lowers only the old mount's flag:
  the new mount stays thinking until its own reply arrives, and the first
  reply is merged into the project of its own send time, dropping the new
  mount's user turn (`AICopilot.LateReplyAfterRemount`). A reply pending
  across "Start New Project" puts the old project back in place of the new
  one (`AICopilot.ReplyAcrossNewProject`).
- **Service errors.** The service catches its own failures and returns an
  error text, and that text is appended to the history as a model turn.
  Only an unknown phase id throws, and that happens before anything is
  sent.
- **`createNewProject`** takes only a name.
- **The system instruction** is a fixed template around the configured
  instruction and the serialized data. The template includes four
  guidelines.
- **Project collection, deletion and export.** The source files have no
  such code. The app holds a single project.

## Model

| member | source | states |
|---|---|---|
| Types.ParseStatus | types.ts:3-8 | reading an enum string gives a status with that string, and nothing exactly when no status has it |
| Types.StatusesEnumerated | types.ts:3-8 | the four statuses are all listed, each once, with four distinct string values |
| Types.StatusRoundTrip | types.ts:3-8 | every status is read back from its enum string |
| Types.StatusValue | types.ts:3-8 | an enum string is non-empty and made of capitals and `_` |
| Types.RolesEnumerated | types.ts:10-13 | there are two roles with distinct values `user` and `model` |
| Types.RoleValue | types.ts:10-13 | a role's string is non-empty and lower-case |
| Types.Lookup | components/Canvas.tsx:638 | reading a key of an object: nothing exactly when no field has the key, otherwise the value of a field with it |
| Types.LookupCons | components/Canvas.tsx:638 | the first field answers for its own key and passes every other key on |
| Types.Truthy | components/Canvas.tsx:640 | a value is falsy exactly when it is undefined, null, false, 0 or the empty string |
| Constants.ConfigTable | constants.ts:3-61 | the table has twelve entries whose ids are 1..12 in increasing order |
| Constants.FindConfigIn | services/geminiService.ts:24 | `find` by id: none exactly when no entry has the id, otherwise an entry with that id |
| Constants.FindConfig | services/geminiService.ts:24 | the configuration lookup succeeds exactly for ids 1..12, with the entry of that id |
| Constants.FindConfigInCounting | services/geminiService.ts:24 | on a table whose ids count 1, 2, …, `find` by id gives entry id-1, or nothing outside the table |
| Constants.FindConfigSpec | services/geminiService.ts:24 | the positional lookup is `find` by id on the phase table, and for ids 1..12 it gives entry id-1 |
| Constants.InitialPhaseData | constants.ts:63-68 | initial data exists exactly for phases 1–4, each of its phase's record shape |
| Constants.SeedData | constants.ts:76 | the seeded data has its phase's shape, and is `{}` for phases without initial data |
| Constants.SeedPhase | constants.ts:71-78 | the phase takes the configuration's id, title and purpose, is NOT_STARTED with an empty chat, and its data has its phase's shape |
| Constants.SeedDataBlank | constants.ts:63-76 | the seeded data has the shape its phase edits and every field is blank; only phases 1–4 have initial data |
| Constants.SeedPhases | constants.ts:71-78 | one seeded phase per configuration, position by position |
| Constants.CreateNewProject | constants.ts:70-86 | the new project has the given name, id and time, current phase 1, and twelve well-formed phases; each is NOT_STARTED with blank data and an empty history |
| App.FindPhase | App.tsx:78 | `find`: none exactly when no phase has the id, otherwise the first phase with it |
| App.Edited | App.tsx:55 | the phase takes the new data and DRAFT, and every other field is kept |
| App.PhaseIds | App.tsx:132-134 | the ids of the phase list, position by position |
| App.WithPhaseData | App.tsx:54-56 | phases with the id get the new data and DRAFT and keep everything else; other phases are unchanged |
| App.WithPhaseReplaced | App.tsx:63-65 | phases with the replacement's id become it; other phases are unchanged |
| App.WithPhaseStatus | App.tsx:71-73 | phases with the id get the status and keep everything else; other phases are unchanged |
| App.UpdatePhaseDataIn | App.tsx:51-59 | no project stays no project; otherwise only the phase list changes, by the data edit |
| App.ReplacePhaseIn | App.tsx:61-67 | no project stays no project; otherwise only the phase list changes, by the replacement |
| App.SetPhaseStatusIn | App.tsx:69-75 | no project stays no project; otherwise only the phase list changes, by the status change |
| App.CurrentPhaseOf | App.tsx:78 | the current phase exists only with a project, carries the active id and belongs to the project, and exists whenever a phase has that id |
| App.StatusOptions | App.tsx:176-178 | four options, in enum order, one per status, each valued by its enum string |
| App.StatusOptionsRoundTrip | App.tsx:173-177 | the status read back from an option's value is that option's status |
| App.FindAfterData | App.tsx:51-59 | after a data edit, the lookup of the edited id gives the edited phase, and lookups of other ids are unaffected |
| App.FindAfterReplace | App.tsx:61-67 | after a replacement, the lookup of its id gives it, when that id is present, and lookups of other ids are unaffected |
| App.FindAfterStatus | App.tsx:69-75 | after a status change, the lookup of the id gives the phase with the status, and lookups of other ids are unaffected |
| App.IdsKept | App.tsx:54-73 | none of the three rewrites changes the ids, their order or their number |
| App.FindWellFormed | App.tsx:78 | on the twelve seeded phases, an id is found exactly when it is in 1..12, at position id-1 |
| App.WellFormedKept | App.tsx:51-75 | a status change, a data edit of the right shape, and a replacement by a phase whose data has its id's shape, each keep the phase list well formed |
| App.EditsIdempotent | App.tsx:51-75 | repeating a data edit or a status change has no further effect |
| App.EditAfterStatusIsDraft | App.tsx:54-73 | a data edit after any status change, APPROVED included, leaves the phase DRAFT, as if the status change never happened |
| App.EditsOfDifferentPhasesCommute | App.tsx:54-73 | a data edit and a status change of different phases commute |
| App.ReplaceNoops | App.tsx:63-65 | replacing a phase by itself, or one whose id is absent, leaves the list unchanged |
| App.AppState.constructor | App.tsx:20-22 | initially: no project, the dashboard, phase 1 |
| App.AppState.CurrentPhase | App.tsx:78 | the current phase exists only with a project, has the active id and belongs to the project |
| App.AppState.ShowsWorkspace | App.tsx:81 | the workspace shows exactly when the view is not the dashboard and a project is open |
| App.AppState.HandleCreateProject | App.tsx:44-49 | the project is the new one, phase 1 is active and the workspace shows; the current phase is phase 1, NOT_STARTED, with no chat |
| App.AppState.HandleUpdatePhaseData | App.tsx:51-59 | the project is the data edit of the active phase; the current phase becomes the edited one (or stays absent) |
| App.AppState.HandleUpdatePhaseFrom | App.tsx:61-67 | the project is the replacement applied to the project the render captured |
| App.AppState.HandleUpdatePhase | App.tsx:61-67 | the project is the replacement applied to the current project |
| App.AppState.HandlePhaseStatusChange | App.tsx:69-75 | the project is the status change of the active phase; the current phase takes the status |
| App.AppState.SelectPhase | App.tsx:134 | the clicked phase becomes active |
| App.AppState.ShowDashboard | App.tsx:156 | the dashboard shows and the workspace does not |
| App.AppState.ContinueProject | App.tsx:92-95 | with a project open, the workspace shows |
| PhaseInputs.EditPhase1 | components/PhaseInputs.tsx:39-69 | the edited field takes the value, every other field is kept, `projectName` included |
| PhaseInputs.EditPhase2 | components/PhaseInputs.tsx:72-102 | the edited field takes the value, every other field is kept, `gapAnalysis` included |
| PhaseInputs.EditPhase4 | components/PhaseInputs.tsx:195-222 | the edited field takes the value, every other field is kept, `cognitiveLoadCheck` included |
| PhaseInputs.EditGoal | components/PhaseInputs.tsx:129-132 | the goal takes the value, the actions are kept |
| PhaseInputs.SetActionField | components/PhaseInputs.tsx:117 | the named field of the row takes the value, the other fields are kept |
| PhaseInputs.BlankAction | components/PhaseInputs.tsx:107-112 | the new row has the fresh id and every other field empty |
| PhaseInputs.ActionIds | components/PhaseInputs.tsx:150-153 | the row ids, position by position |
| PhaseInputs.AddAction | components/PhaseInputs.tsx:106-114 | one blank row with the fresh id is appended after the existing rows; the goal is kept |
| PhaseInputs.UpdateWhere | components/PhaseInputs.tsx:117 | rows with the id get the field edit, other rows are unchanged, positions kept |
| PhaseInputs.UpdateAction | components/PhaseInputs.tsx:116-119 | same count and goal; rows with the id are edited, others unchanged; an edit of a field other than `id` keeps the ids |
| PhaseInputs.WithoutId | components/PhaseInputs.tsx:122 | a row survives exactly when its id differs; with no such row nothing changes |
| PhaseInputs.RemoveAction | components/PhaseInputs.tsx:121-123 | the rows are those of the data whose id differs; the goal is kept |
| PhaseInputs.WithoutIdLength | components/PhaseInputs.tsx:122 | removal drops exactly as many rows as carry the id |
| PhaseInputs.WithoutIdAppend | components/PhaseInputs.tsx:122 | removal distributes over concatenation, so survivors keep their order |
| PhaseInputs.RemoveAfterAdd | components/PhaseInputs.tsx:106-123 | removing the row just added under a fresh id gives back the data |
| PhaseInputs.UpdateUnknownIsNoop | components/PhaseInputs.tsx:116-119 | updating an id no row carries changes nothing |
| PhaseInputs.EditsKeepIdsDistinct | components/PhaseInputs.tsx:106-123 | with a fresh id for new rows and no edit of `id`, add, update and remove keep ids distinct |
| PhaseInputs.WithoutIdDistinct | components/PhaseInputs.tsx:122 | removal keeps distinct ids distinct |
| PhaseInputs.RemoveAfterUpdate | components/PhaseInputs.tsx:116-123 | editing a row then removing it equals removing it |
| PhaseInputs.EditorMatchesSeed | components/PhaseInputs.tsx:225-237 | exactly phases 1–4 have an editor, and each edits the record shape its phase is seeded with |
| PhaseInputs.EditorFor | components/PhaseInputs.tsx:226-235 | the "under construction" view exactly for phases without initial data, the ids outside 1–4 |
| GeminiService.WireRole | services/geminiService.ts:46 | the user role goes out as `user`, any other as `model` |
| GeminiService.WireRoleIsRoleValue | services/geminiService.ts:46 | the wire role equals the role's enum string |
| GeminiService.ToContent | services/geminiService.ts:45-48 | a turn carries the message's role string and its text |
| GeminiService.ToContents | services/geminiService.ts:45-48 | one turn per message, in order, with its role and text |
| GeminiService.RecentHistory | services/geminiService.ts:45 | the last min(n, 10) messages, a suffix of the history |
| GeminiService.RecentHistoryAppend | services/geminiService.ts:45 | the window slides: the window of h+[m] is the window of (window of h)+[m] |
| GeminiService.BuildContents | services/geminiService.ts:45-57 | at most 11 turns: the trailing window of the prior history in order, then the new message as a user turn |
| GeminiService.ShortHistoryWhole | services/geminiService.ts:45-57 | a history of at most ten messages goes out whole |
| GeminiService.SystemPrompt | services/geminiService.ts:30-41 | the template holds the configured instruction right after its opening, the context data after the heading, and ends with the guidelines |
| GeminiService.SystemInstructionText | services/geminiService.ts:30-41 | the prompt's length is that of its parts, and the configured instruction and the context data sit at their offsets |
| GeminiService.BuildRequest | services/geminiService.ts:46-67 | the request uses the model, temperature 0.7, the instruction and the context data, and its one to eleven turns end with the new message as a user turn |
| GeminiService.CoPilotReplyText | services/geminiService.ts:69-73 | the reply is never empty: the service's text when non-empty, otherwise the apology, and the error text on a failure |
| GeminiService.GenerateCoPilotResponse | services/geminiService.ts:17-74 | it throws "Invalid Phase ID" exactly when the lookup fails; otherwise the request uses the model, the phase's instruction, the context data and the built turns, and the reply is the non-empty reply text |
| GeminiService.CoPilotRejectsUnknownPhase | services/geminiService.ts:24-25 | the co-pilot throws exactly for ids outside 1..12 |
| GeminiService.ArtifactPhaseTitle | services/geminiService.ts:88 | the configured title when the lookup succeeds, "undefined" when it fails |
| GeminiService.ArtifactTitleByPhaseId | services/geminiService.ts:84-88 | the artifact prompt names phase id-1's title for ids 1..12 and "undefined" otherwise |
| GeminiService.ArtifactPrompt | services/geminiService.ts:86-92 | the requested task, the phase title and the data each follow their heading in the fixed template, which ends with the request for a markdown draft |
| GeminiService.ArtifactReplyText | services/geminiService.ts:99-102 | the service's text, "" when it has none, and "" on a failure |
| GeminiService.GenerateArtifact | services/geminiService.ts:79-103 | one user turn with the artifact prompt to the model; the reply is empty exactly on a failure or an empty answer |
| AICopilot.CanSend | components/AICopilot.tsx:27 | a send goes ahead exactly when no reply is pending and the input has a non-whitespace character |
| AICopilot.OptimisticPhase | components/AICopilot.tsx:35-38 | same id, title, description, status and data; the history grows by one, the user turn, after the prior history |
| AICopilot.MergedPhase | components/AICopilot.tsx:57-60 | spread from the send-time phase: same fields; the history grows by two, the user turn then the reply |
| AICopilot.MergeExtendsOptimistic | components/AICopilot.tsx:35-59 | the merged history is the optimistic one plus the reply |
| AICopilot.ReplyOf | components/AICopilot.tsx:44-49 | the service gets the prior history without the new turn, the input ends the request as a user turn, and any reply is non-empty |
| AICopilot.SeededPhasesAreAnswered | components/AICopilot.tsx:43-62 | for a phase of a seeded project the service never throws, so the `catch` is not reached |
| AICopilot.SendKeepsWellFormed | components/AICopilot.tsx:35-60 | the optimistic update and the merge each keep a well-formed phase list well formed |
| AICopilot.WithReplyAppended | components/AICopilot.tsx:57-60 | (corrected merge) phases with the id get the reply after their current history; others are unchanged |
| AICopilot.AppendReplyIn | components/AICopilot.tsx:57-60 | (corrected merge) only the phase list changes, by appending the reply |
| AICopilot.AppendReplyKeepsWellFormed | components/AICopilot.tsx:57-60 | (corrected merge) appending the reply keeps the phase list well formed |
| AICopilot.AppendReplyKeepsEdits | components/AICopilot.tsx:57-60 | the corrected merge commutes with a data edit, so no edit is lost |
| AICopilot.AppendReplyAgreesUndisturbed | components/AICopilot.tsx:57-60 | with no edit in between, the corrected merge gives what the code gives |
| AICopilot.StaleMergeLosesEdit | components/AICopilot.tsx:57-60 | as written, a data edit made while the reply is pending is gone after the merge |
| AICopilot.AppendedReplyKeepsEdit | components/AICopilot.tsx:57-60 | the corrected merge keeps that edit, with both new turns in the history |
| AICopilot.CoPilotPanel.constructor | components/AICopilot.tsx:14-15 | empty input, not thinking |
| AICopilot.CoPilotPanel.HandlePromptClick | components/AICopilot.tsx:68-70 | the prompt becomes the input |
| AICopilot.CoPilotPanel.HandleSend | components/AICopilot.tsx:26-41 | a rejected send changes nothing; otherwise the current phase gains the untrimmed input as a user turn, the input is cleared, thinking is set, and the pending send keeps the send-time phase and project |
| AICopilot.CoPilotPanel.ResolveSend | components/AICopilot.tsx:43-65 | thinking is cleared; on a throw the project is unchanged; on a reply the project is the send-time snapshot with the merged send-time phase |
| AICopilot.CoPilotPanel.ResolveSendKeepingEdits | components/AICopilot.tsx:43-65 | (corrected) thinking is cleared; a reply is appended to the project as it is now when that is still the send-time project (same id), and dropped otherwise |
| AICopilot.RemountDuringReply | App.tsx:81-94 | after a send, the dashboard and "Continue Project", the new mount is idle with an empty input while the old mount still waits |
| AICopilot.LateReplyAfterRemount | components/AICopilot.tsx:57-65 | the old mount's reply lowers only its own flag, so the new mount still rejects sends, and the project becomes the first send's snapshot with its merged phase |
| AICopilot.ReplyAcrossNewProject | App.tsx:44-67 | a reply pending across "Start New Project" puts back the old project, whose id differs from the new one's; on a throw the new project stays |
| Canvas.ViewFor | components/Canvas.tsx:17-619 | the document view exactly for ids without a dedicated view (all but 1–6, 8, 12) |
| Canvas.ActionToJs | types.ts:38-43 | an action row as an object with four fields, `id`, `behavior`, `activity` and `info`, each holding the row's text |
| Canvas.ActionsToJs | components/Canvas.tsx:638 | one object per action row |
| Canvas.Entries | components/Canvas.tsx:638 | a free-form record gives its own fields; a typed record gives text fields and the skipped array keys only, the action map's `actions` being its rows |
| Canvas.IsShown | components/Canvas.tsx:639-640 | a text entry shows exactly when its key is not skipped and it is non-empty; undefined, null and the skipped keys never show |
| Canvas.ShownFields | components/Canvas.tsx:638-640 | exactly the entries with a truthy value and a key other than actions, screens, objectives, in order |
| Canvas.NoneShown | components/Canvas.tsx:638-640 | with no entry shown the view lists nothing |
| Canvas.ShownFieldsAppend | components/Canvas.tsx:638-640 | the filter distributes over concatenation |
| Canvas.SpaceBeforeUpper | components/Canvas.tsx:646 | the result is no shorter than the key |
| Canvas.SpaceBeforeUpperSpaced | components/Canvas.tsx:646 | after the first rewrite, no upper-case letter opens the text or follows anything but a space |
| Canvas.Squeeze | components/Canvas.tsx:646 | the text with its separators dropped keeps no separator |
| Canvas.SqueezeAppend | components/Canvas.tsx:646 | dropping separators distributes over concatenation |
| Canvas.SqueezeBlank | components/Canvas.tsx:646 | a text of separators only drops to nothing |
| Canvas.SqueezeSpaceBeforeUpper | components/Canvas.tsx:646 | inserting spaces before capitals does not change the non-separator text |
| Canvas.SqueezeReplaceUnderscore | components/Canvas.tsx:646 | turning `_` into spaces does not change the non-separator text |
| Canvas.SqueezeTrim | components/Canvas.tsx:646 | trimming does not change the non-separator text |
| Canvas.FieldLabel | components/Canvas.tsx:646 | a heading neither starts nor ends with whitespace |
| Canvas.NoUnderscoreReplaced | components/Canvas.tsx:646 | no `_` survives the second rewrite |
| Canvas.AbsentFromSlice | components/Canvas.tsx:646 | the trim, a slice, adds no character |
| Canvas.NoUnderscoreInLabel | components/Canvas.tsx:646 | no `_` survives in a heading |
| Canvas.CapitalsAfterSpaceReplace | components/Canvas.tsx:646 | turning `_` into spaces keeps capitals after spaces |
| Canvas.CapitalsAfterSpaceSlice | components/Canvas.tsx:646 | a slice keeps capitals after spaces |
| Canvas.UpperFollowsSpaceInLabel | components/Canvas.tsx:646 | in a heading, every capital after the first position follows a space |
| Canvas.FieldLabelProperties | components/Canvas.tsx:646 | a heading has no `_`, no whitespace at either end, capitals only after spaces, and the key's characters apart from separators |
| Canvas.SpaceBeforeUpperAppend | components/Canvas.tsx:646 | the capital rewrite distributes over concatenation |
| Canvas.SpaceBeforeUpperNoUpper | components/Canvas.tsx:646 | text without capitals is left as it is |
| Canvas.SnakeCaseSpaced | components/Canvas.tsx:646 | before the trim, the `_` of a key `a_b` has become a space |
| Canvas.SnakeCaseLabel | components/Canvas.tsx:646 | a key `a_b` of two plain words is headed `a b` |
| Canvas.SpaceBeforeCapital | components/Canvas.tsx:646 | a single capital is preceded by one space |
| Canvas.CamelCaseSpaced | components/Canvas.tsx:646 | the capital rewrite of `a` + C + `b` is `a` + " C" + `b` |
| Canvas.CamelCaseLabel | components/Canvas.tsx:646 | a camel-case key `aCb` of plain words is headed `a Cb` |
| Canvas.Sections | components/Canvas.tsx:638-655 | one section per shown entry, headed by its label, with its value |
| Canvas.DocumentSections | components/Canvas.tsx:638-655 | every section has a truthy value and a heading without `_`, and there are no more sections than entries |
| Canvas.SeededDocumentIsEmpty | components/Canvas.tsx:638-640 | a freshly seeded phase shows no section |
| Canvas.StatusLabel | components/Canvas.tsx:633 | the label has the enum string's length and differs from it only where a `_` became a space |
| Canvas.ReplaceFirstAt | components/Canvas.tsx:633 | the first-occurrence replace is characterised by the first `_` position |
| Canvas.NotStartedLabel | components/Canvas.tsx:633 | NOT_STARTED is shown as "NOT STARTED" |
| Canvas.NoUnderscoreLabel | components/Canvas.tsx:633 | a value without `_` is its own label |
| Canvas.DraftLabel | components/Canvas.tsx:633 | DRAFT is shown as "DRAFT" |
| Canvas.ApprovedLabel | components/Canvas.tsx:633 | APPROVED is shown as "APPROVED" |
| Canvas.NeedsReviewLabel | components/Canvas.tsx:633 | NEEDS_REVIEW is shown as "NEEDS REVIEW" |
| Canvas.StatusLabelInjective | components/Canvas.tsx:633 | distinct statuses get distinct labels |
| Canvas.StatusLabels | components/Canvas.tsx:633 | the four badge texts |
| Canvas.ObjectiveList | components/Canvas.tsx:280 | the objectives, or none when absent |
| Canvas.ScreenList | components/Canvas.tsx:428 | the screens, or none when absent |
| Canvas.SceneNumber | components/Canvas.tsx:476 | at least two digits whose value is idx+1; below 10 a leading zero, else the plain numeral |
| Canvas.EffectiveScreenType | components/Canvas.tsx:479-480 | the screen's type, or Content when absent |
| Canvas.StoryboardCards | components/Canvas.tsx:467-481 | one card per screen in order, card i numbered i+1, with the screen's title and effective type |
| Canvas.SceneNumbersDistinct | components/Canvas.tsx:476 | different positions get different scene numbers |
| Js.SkipWhitespace | components/AICopilot.tsx:27 | the first non-whitespace position at or after k, everything skipped being whitespace |
| Js.BackWhitespace | components/AICopilot.tsx:27 | the end once trailing whitespace down to lo is dropped |
| Js.TrimLow | components/AICopilot.tsx:27 | where the trimmed text starts |
| Js.TrimHigh | components/AICopilot.tsx:27 | where the trimmed text ends, at or after its start |
| Js.Trim | components/AICopilot.tsx:27 | a slice whose cut-off prefix and suffix are whitespace and which neither starts nor ends with whitespace |
| Js.TrimEmpty | components/AICopilot.tsx:27 | `trim` is empty exactly for all-whitespace text |
| Js.TrimUnchanged | components/Canvas.tsx:646 | text without whitespace at either end is its own trim |
| Js.IndexOf | components/Canvas.tsx:633 | the first position of the character, or -1 exactly when absent |
| Js.ReplaceFirst | components/Canvas.tsx:633 | only the first occurrence is replaced; without one the text is unchanged |
| Js.ReplaceAll | components/Canvas.tsx:646 | every occurrence is replaced, nothing else changes |
| Js.ReplaceAllAbsent | components/Canvas.tsx:646 | replacing an absent character changes nothing |
| Js.Repeat | components/Canvas.tsx:476 | n copies of the character |
| Js.PadStart | components/Canvas.tsx:476 | left-padded to the width with the character, or unchanged when already as long |
| Js.DigitChar | components/Canvas.tsx:476 | the digit character of a value below 10 |
| Js.DigitValue | components/Canvas.tsx:476 | a digit's value is below 10 |
| Js.NatToString | components/Canvas.tsx:476 | a non-empty numeral of digits, with no leading zero unless the number is 0 |
| Js.NatToStringRoundTrip | components/Canvas.tsx:476 | reading back `String(n)` gives n |
| Js.LeadingZerosValue | components/Canvas.tsx:476 | leading zeros do not change a numeral's value |
| Js.ZerosValue | components/Canvas.tsx:476 | a run of zeros has value 0 |

## Left out

- Persistence. `localStorage` load and save (App.tsx:24-41) is I/O.
- Serialisation. `JSON.stringify`, `JSON.parse` and `String(value)` are not modelled; the co-pilot's context data and the artifact's data are string parameters.
- The model call. The SDK call, its network behaviour and its logging are not modelled; `ApiOutcome` is the answer it gave.
- Ids and clocks. `crypto.randomUUID()`, `Date.now()` and `new Date().toISOString()` are parameters.
- Rendering. React rendering, styling, icons, scrolling, tooltips, the colour helpers of the canvas and the layouts of the dedicated views are not modelled.
- The phase 5, 6, 8 and 12 shapes. `types.ts` does not declare these, so they are taken from the fields `Canvas.tsx` reads.
- The casts. `phase.data as PhaseNData` is not modelled: each view and editor takes the typed record.
- Number widths. Phase ids, timestamps and indices are unbounded integers, not floating-point numbers; the temperature 0.7 is a `real`.
- Object keys. `JsValue` objects are sequences of fields: duplicate keys are not excluded, and `Canvas.Entries` keeps field order rather than the `Object.entries` order (integer-like keys first, ascending).
- Character classes. `trim` strips the ECMAScript WhiteSpace and LineTerminator characters; `[A-Z]` is ASCII only.
- Interleavings. The pending `await` is split into two methods; which user actions run between them appears only in the scenario methods that name them (`AICopilot.RemountDuringReply`, `AICopilot.LateReplyAfterRemount`, `AICopilot.ReplyAcrossNewProject`).
- The panel's header and prompt list. The short title and the initial prompts of the co-pilot panel are display only; a click on a prompt is `HandlePromptClick`.
- Canvas.SpaceBeforeUpper: its contract states only the length bound. The spacing property is `Canvas.SpaceBeforeUpperSpaced`, and the rest of its meaning is in `Canvas.SqueezeSpaceBeforeUpper` and `Canvas.CamelCaseSpaced`.
- Canvas.ActionsToJs: states only the count; the field values are `Canvas.ActionToJs`.
- GeminiService.GenerateCoPilotResponse: the request records the instruction and the context data, and the wire text is `GeminiService.SystemInstructionText`, stated by `GeminiService.SystemPrompt`. This split keeps the long prompt text out of proofs about the phase table.

## Findings

| source | as written | input that shows it | evidently intended | confidence | as-written member | corrected member |
|---|---|---|---|---|---|---|
| components/AICopilot.tsx:57-59 | the reply merge spreads the send-time `currentPhase` and calls the send-time `onUpdatePhase`, whose `handleUpdatePhase` (App.tsx:61-66) rebuilds the project from the `project` of that render | send a message, then edit a field of the same phase (`handleUpdatePhaseData` with new data) before the reply arrives | the reply is appended to the phase as it is when the reply arrives, and the edit made meanwhile survives | medium, not executed | AICopilot.StaleMergeLosesEdit | AICopilot.AppendReplyIn |
