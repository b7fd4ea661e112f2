# Form builder authoring core, modelled in Dafny

This project models the authoring side of a browser form builder: a
Google-Forms-like application written in TypeScript with Next.js and React.
It does not model collecting or evaluating responses. The model covers:

- the store of forms and their per-form response lists, which the browser
  keeps in local storage under `forms` and `responses_<id>`;
- the form builder page, with its question list, its active question and
  its drag handlers (the page never attaches the drag-end handler, see
  "## Left out");
- the question card's option, row and column editors, and its description
  toggles;
- the conditional-rule editor, with its eligibility filters and the
  coupling between an action and its target;
- the settings panel, the "My Forms" list page, and the server-backed form
  editor;
- the simulated account service, and the avatar initials;
- the template, theme and question-type catalogues and their
  lookup-with-fallback functions.

## How it is modelled

There is one Dafny module per source file. It follows the form of that file:

- **Classes.** A component or service whose state changes in place is a
  `class`. Its React state or module-level array becomes fields, and each
  handler becomes a `method` with a `modifies` clause:
  - `Store.FormStore` (local storage);
  - `NewFormPage.NewFormEditor`;
  - `ConditionalLogic.RuleEditor`;
  - `FormEditor.FormEditorState`;
  - `FormsPage.FormsPage`;
  - `Auth.UserRegistry`.
- **Methods with local steps.** Some handlers copy a list and then change
  the copy step by step (`saveForm`, `duplicateQuestion`, `moveQuestion`,
  the option edits). These are methods with local updates. Each is proved
  equal to a specification function (`Upserted`, `Duplicated`, `Moved`,
  ...), and the properties are proved about that function.
- **Functions.** Pure lookups, tables, labels and patch builders are
  functions. That includes the settings panel, whose controls only emit
  `updateForm(patch)`.
- **Shared types.** `FormTypes` holds the records of `lib/types.ts`. It
  also holds the rule record that `conditional-logic.tsx` declares, and
  the `Partial<...>` patches merged with `{ ...x, ...patch }` (see
  `MergeQuestion`, `MergeForm` and `MergeRule`).
- **Absent values.** An optional field is an `Option`. JavaScript
  truthiness is written out: an absent string and the empty string are
  both falsy.
- **Fresh values as inputs.** Fresh ids (`uuidv4()`,
  `crypto.randomUUID()`), clock readings (`Date.now()`,
  `new Date().toISOString()`), the query parameter and the signed-in user
  are passed in as parameters. Where uniqueness matters, freshness is the
  hypothesis of a conditional `ensures` or of a lemma.

## Model

| member | source | states |
|---|---|---|
| Store.FindForm | lib/store.ts:9-12 | `None` exactly when no stored form has the id; otherwise the first form with that id |
| Store.FindFormUnique | lib/store.ts:9-12 | with unique ids, looking up a stored form's id returns that form |
| Store.Upserted | lib/store.ts:14-26 | a new id is appended at the end. A present id is replaced at its first index, with the length and every other entry unchanged. Afterwards the form is found under its id, the id set grows by at most that id, and unique ids stay unique |
| Store.FormStore.constructor | lib/store.ts:4-7 | an empty store: no forms and no response lists |
| Store.FormStore.SaveForm | lib/store.ts:14-26 | the stored list becomes `Upserted(old list, form)`; responses are untouched |
| Store.WithoutForm | lib/store.ts:28-31 | no form with the id is left; every other form is kept, and only stored forms remain |
| Store.WithoutFormRemovesAt | lib/store.ts:28-31 | with unique ids, deleting removes exactly that position and keeps the others in order |
| Store.WithoutAbsentForm | lib/store.ts:28-31 | deleting an id no form has changes nothing |
| Store.FormStore.DeleteForm | lib/store.ts:28-33 | the list is filtered and that form's response list is dropped; every other form's responses are unchanged |
| Store.FormStore.GetForms | lib/store.ts:4-7 | the stored list as the last save or delete left it |
| Store.FormStore.GetForm | lib/store.ts:9-12 | `null` exactly when no stored form has the id; otherwise the first stored form with that id |
| Store.FormStore.GetResponses | lib/store.ts:35-38 | an absent key reads as the empty list |
| Store.FormStore.SaveResponse | lib/store.ts:40-44 | exactly one response is appended to that form's list; other lists and the forms are unchanged |
| Store.CopyOf | lib/store.ts:50-55 | the copy has the fresh id and the title plus " (Copy)"; every other field is equal |
| Store.Duplicated | lib/store.ts:46-60 | an unknown id returns the list unchanged. Otherwise the list gains one element: the copy, at index+1. The prefix up to index is kept, and removing the copy gives back the input. Unique ids plus a fresh id stay unique |
| Store.DistinctInsert | lib/store.ts:57-58 | inserting an absent element keeps a list duplicate-free |
| Store.DuplicateQuestion | lib/store.ts:46-60 | the method's splice-into-a-copy result equals `Duplicated` |
| Store.Moved | lib/store.ts:62-70 | from == to is the identity. Otherwise the element from `from` sits at `to`, the others keep their relative order (the remaining sequences are equal), and the result is a permutation of the input |
| Store.MovedPositions | lib/store.ts:62-70 | where each element lands: entries between the two indices shift by one, entries outside stay put |
| Store.MoveQuestion | lib/store.ts:62-70 | the splice-out/splice-in method equals `Moved` |
| FormTypes.MergeEmptyQuestion | lib/types.ts:3-76 | merging the empty patch leaves a question unchanged |
| NewFormPage.NewQuestion | app/forms/new/page.tsx:76-93 | empty title, not required, the given id and kind. Scale bounds 1..5 only for linear scale; rows/columns only for grid; ["Option 1"] only for multiple choice, checkbox and dropdown. Every other optional field is absent |
| NewFormPage.NewFormEditor.AddQuestion | app/forms/new/page.tsx:76-101 | exactly one new question is appended and becomes active; the drag state is unchanged. With a fresh id, unique ids stay unique |
| NewFormPage.UpdatedQuestions | app/forms/new/page.tsx:112-117 | same length; the patch is merged into questions with that id; all others are unchanged |
| NewFormPage.UpdateAbsentQuestion | app/forms/new/page.tsx:112-117 | an update for an unknown id is the identity |
| NewFormPage.UpdateUniqueQuestion | app/forms/new/page.tsx:112-117 | with unique ids, the update changes exactly one position |
| NewFormPage.NewFormEditor.UpdateQuestion | app/forms/new/page.tsx:112-117 | the form's questions become `UpdatedQuestions(...)`; nothing else changes |
| NewFormPage.WithoutQuestion | app/forms/new/page.tsx:119-123 | no question with the id is left; all others are kept |
| NewFormPage.WithoutQuestionRemovesAt | app/forms/new/page.tsx:119-123 | with unique ids, removal deletes exactly that position, and the rest keep their order |
| NewFormPage.NewFormEditor.RemoveQuestion | app/forms/new/page.tsx:119-128 | the question is removed; the active id becomes none exactly when it was that id |
| NewFormPage.NewFormEditor.DuplicateQuestionHandler | app/forms/new/page.tsx:130-135 | the questions become `Duplicated(questions, id, freshId)` |
| NewFormPage.NewFormEditor.UpdateForm | app/forms/new/page.tsx:137-143 | the patch is merged and `updatedAt` is set to now; the editor's other state is unchanged |
| NewFormPage.NewFormEditor.SaveFormHandler | app/forms/new/page.tsx:145-151 | the store receives the form stamped with now, via `Upserted`; responses are untouched |
| NewFormPage.NewFormEditor.constructor | app/forms/new/page.tsx:29-42 | "Untitled Form", empty description, no questions, theme "default", no header image, and no active or drag state |
| NewFormPage.NewFormEditor.Activate | app/forms/new/page.tsx:278 | the clicked question becomes active |
| NewFormPage.NewFormEditor.HandleDragStart | app/forms/new/page.tsx:162-164 | records the dragged index |
| NewFormPage.NewFormEditor.HandleDragOver | app/forms/new/page.tsx:166-171 | a no-op without a drag or when the target is already that index; otherwise records the target |
| NewFormPage.NewFormEditor.HandleDragEnd | app/forms/new/page.tsx:173-183 | reorders with `Moved` only when both indices are set (otherwise the form is unchanged), and resets both indices |
| NewFormPage.NormalizeQuestion | app/forms/new/page.tsx:55-61 | a template question keeps its id, kind, lists, scale and labels; `required` defaults to false and a missing title to "" |
| NewFormPage.NormalizeQuestions | app/forms/new/page.tsx:55-61 | normalises each template question in order, keeping the ids |
| NewFormPage.WithTemplate | app/forms/new/page.tsx:46-64 | does nothing without a non-empty template id, or when the template has no questions. Otherwise it copies the name, the description and the normalised questions; every other form field is unchanged |
| NewFormPage.UnknownTemplateLeavesForm | app/forms/new/page.tsx:48-50 | an unknown template id leaves the form untouched, because the fallback is the question-less blank template |
| NewFormPage.LoadedTemplateIdsDistinct | app/forms/new/page.tsx:46-64 | loading a template keeps the question ids unique |
| NewFormPage.WithCurrentUser | app/forms/new/page.tsx:66-73 | records the signed-in user's id, and nothing without a user |
| NewFormPage.NewFormEditor.LoadEffect | app/forms/new/page.tsx:46-74 | the form becomes `WithCurrentUser(WithTemplate(form, templateId), user)` |
| QuestionCard.ListPatchTouchesOnlyField | components/form-builder/question-card.tsx:50-99 | a `{ field: entries }` patch sets that list and no other field |
| QuestionCard.AddEntry | components/form-builder/question-card.tsx:50-53 | emits, for this question, a list equal to the old one (absent = empty) plus ""; nothing else changes. The same function serves rows (73-76) and columns (89-92) |
| QuestionCard.UpdateEntry | components/form-builder/question-card.tsx:55-59 | for an in-range index, only that entry is replaced; the length and the other fields are unchanged. The same method serves rows (67-71) and columns (83-87) |
| QuestionCard.RemoveEntry | components/form-builder/question-card.tsx:61-65 | for an in-range index, that entry is removed and the rest keep their order. The same method serves rows (78-82) and columns (94-98) |
| QuestionCard.AddThenRemoveLast | components/form-builder/question-card.tsx:50-65 | removing the entry just added restores the list |
| QuestionCard.MenuToggleDescription | components/form-builder/question-card.tsx:157 | sets "" when a description is shown and " " otherwise, so visibility flips; no other field changes |
| QuestionCard.SwitchDescription | components/form-builder/question-card.tsx:376-379 | sets " " when on and "" when off, so the description is shown exactly when the switch is on |
| QuestionCard.MenuToggleTwice | components/form-builder/question-card.tsx:157 | two menu clicks restore visibility |
| ConditionalLogic.EligibleQuestions | components/form-builder/conditional-logic.tsx:31-35 | every element is a question of the form other than the current one, of kind multiple choice, dropdown, checkbox or scale, and every such question is in the list; order and multiplicity are fixed by `EligibleAppend` and `EligibleOfOne` |
| ConditionalLogic.EligibleAppend | components/form-builder/conditional-logic.tsx:31-35 | the filter distributes over concatenation, so the eligible questions keep the form's order |
| ConditionalLogic.EligibleOfOne | components/form-builder/conditional-logic.tsx:31-35 | a single question is kept, once, exactly when it is another question of a source kind; with `EligibleAppend` this fixes the list to the form's eligible questions in order and without repeats |
| ConditionalLogic.EligibleHead | components/form-builder/conditional-logic.tsx:31-35 | element 0 of a non-empty eligible list is the first eligible question of the form |
| ConditionalLogic.TargetQuestions | components/form-builder/conditional-logic.tsx:37 | every element is a question of the form other than the current one, and every such question is in the list; order and multiplicity are fixed by `TargetAppend` and `TargetOfOne` |
| ConditionalLogic.TargetAppend | components/form-builder/conditional-logic.tsx:37 | the filter distributes over concatenation, so the targets keep the form's order |
| ConditionalLogic.TargetOfOne | components/form-builder/conditional-logic.tsx:37 | a single question is kept, once, exactly when it is not the current one |
| ConditionalLogic.TargetHead | components/form-builder/conditional-logic.tsx:37 | element 0 of a non-empty target list is the first question of the form other than the current one |
| ConditionalLogic.OfSourceKind | components/form-builder/conditional-logic.tsx:31-35 | every element is a question of a source kind from the input, and every such question is in the result |
| ConditionalLogic.EligibleAreSourceTargets | components/form-builder/conditional-logic.tsx:31-37 | the eligible list equals the source-kind questions of the target list |
| ConditionalLogic.FindQuestion | components/form-builder/conditional-logic.tsx:67-69 | `None` exactly when no question has the id; otherwise the first question with that id |
| ConditionalLogic.NewRule | components/form-builder/conditional-logic.tsx:42-48 | the fresh id, the given source, equals, "", show, and no target |
| ConditionalLogic.RuleEditor.constructor | components/form-builder/conditional-logic.tsx:28-29 | the rules start as `logic` or []; nothing has been emitted |
| ConditionalLogic.RuleEditor.Rerender | components/form-builder/conditional-logic.tsx:28-29 | new props replace the old ones; the stored rules are not re-read |
| ConditionalLogic.RuleEditor.AddRule | components/form-builder/conditional-logic.tsx:39-53 | a no-op without eligible sources. Otherwise it appends `NewRule` with the first eligible question as source, and emits the new list |
| ConditionalLogic.UpdatedRules | components/form-builder/conditional-logic.tsx:55-59 | same length; the patch is merged into rules with that id only |
| ConditionalLogic.UpdateKeepsRuleIds | components/form-builder/conditional-logic.tsx:55-59 | a patch without an id keeps every rule id, and so the order |
| ConditionalLogic.RuleEditor.UpdateRule | components/form-builder/conditional-logic.tsx:55-59 | stores `UpdatedRules(...)` and emits that same list |
| ConditionalLogic.WithoutRule | components/form-builder/conditional-logic.tsx:61-65 | no rule with that id is left, and all others are kept |
| ConditionalLogic.WithoutRuleRemovesAt | components/form-builder/conditional-logic.tsx:61-65 | with unique ids, exactly that position is removed and the order is kept |
| ConditionalLogic.RuleEditor.RemoveRule | components/form-builder/conditional-logic.tsx:61-65 | stores `WithoutRule(...)` and emits that same list |
| ConditionalLogic.ActionPatch | components/form-builder/conditional-logic.tsx:209-215 | sets the action. For skip-to, the target is the first target question's id (none if there is none); any other action clears the target. Nothing else is changed |
| ConditionalLogic.ChosenTargetIsOtherQuestion | components/form-builder/conditional-logic.tsx:205-216 | with targets as listed at line 37, a chosen target exists exactly for skip-to when the form has another question; it is never the current question, and it is the id of the form's first question other than the current one |
| ConditionalLogic.RuleEditor.ChooseAction | components/form-builder/conditional-logic.tsx:205-216 | stores the rules updated with `ActionPatch` and emits them |
| ConditionalLogic.GetOperatorLabel | components/form-builder/conditional-logic.tsx:71-88 | each of the six operator names maps to its label, and any other string is returned unchanged |
| ConditionalLogic.GetActionLabel | components/form-builder/conditional-logic.tsx:90-103 | each of the four action names maps to its label, and any other string is returned unchanged |
| ConditionalLogic.LabelsDistinct | components/form-builder/conditional-logic.tsx:71-103 | different operators and different actions have different labels |
| ConditionalLogic.OfferedOperators | components/form-builder/conditional-logic.tsx:154-175 | equals and not-equals are always offered; contains/not-contains exactly for text and paragraph sources; greater/less than exactly for scale sources |
| ConditionalLogic.EligibleSourceHasNoTextOperators | components/form-builder/conditional-logic.tsx:154-175 | with eligibility as at lines 31-35, an eligible source is never offered "contains" |
| FormEditor.NewEditorQuestion | components/form-builder/form-editor.tsx:86-91 | id "q" + the clock reading, type "text", label "New Question", not required, no options |
| FormEditor.NewEditorQuestionIdsDiffer | components/form-builder/form-editor.tsx:87 | different clock readings give different ids |
| FormEditor.FormEditorState.constructor | components/form-builder/form-editor.tsx:28 | no form is loaded |
| FormEditor.FormEditorState.Loaded | components/form-builder/form-editor.tsx:38-39 | the fetched form is loaded |
| FormEditor.FormEditorState.AddQuestion | components/form-builder/form-editor.tsx:83-97 | a no-op without a form; otherwise appends `NewEditorQuestion(now)` |
| FormEditor.UpdatedEditorQuestions | components/form-builder/form-editor.tsx:99-108 | same length; only questions with the id are merged |
| FormEditor.FormEditorState.UpdateQuestion | components/form-builder/form-editor.tsx:99-108 | a no-op without a form; otherwise the questions become `UpdatedEditorQuestions(...)` |
| FormEditor.WithoutEditorQuestion | components/form-builder/form-editor.tsx:110-117 | no question with the id is left, and all others are kept |
| FormEditor.WithoutEditorQuestionRemovesAt | components/form-builder/form-editor.tsx:110-117 | with unique ids, exactly that position is removed and the order is kept |
| FormEditor.FormEditorState.DeleteQuestion | components/form-builder/form-editor.tsx:110-117 | a no-op without a form; otherwise the questions become `WithoutEditorQuestion(...)` |
| FormEditor.SetOptionPatch | components/form-builder/form-editor.tsx:233-237 | merging the patch replaces one in-range option and changes nothing else |
| FormEditor.RemoveOptionPatch | components/form-builder/form-editor.tsx:241-245 | merging the patch removes one in-range option and keeps the rest in order |
| FormEditor.AddOptionPatch | components/form-builder/form-editor.tsx:253-256 | merging the patch appends "" to the options (absent = empty) |
| FormEditor.AddThenRemoveOption | components/form-builder/form-editor.tsx:241-256 | removing the option just appended restores the options |
| FormEditor.FormEditorState.SetTitle | components/form-builder/form-editor.tsx:170 | only the title changes |
| FormEditor.FormEditorState.SetDescription | components/form-builder/form-editor.tsx:179 | only the description changes |
| FormsPage.FormsPage.constructor | app/forms/page.tsx:27-28 | no forms yet, loading |
| FormsPage.FormsPage.Load | app/forms/page.tsx:30-35 | shows the stored list and stops loading |
| FormsPage.FormsPage.HandleDeleteForm | app/forms/page.tsx:37-42 | the store and the page both drop the form, keeping the others in order; the form's responses go too. A page in sync with the store stays in sync |
| FormsPage.FormCopy | app/forms/page.tsx:51-56 | equal to the original except for a new id, the title plus " (Copy)", and a new createdAt |
| FormsPage.FormsPage.HandleDuplicateForm | app/forms/page.tsx:50-59 | the copy is saved to the store and appended to the page, and the original stays. With a fresh id, a page in sync with the store stays in sync |
| FormsPage.BadgeText | app/forms/page.tsx:119 | the decimal count, a space, then the word. The text ends in "s" exactly when the count is not 1, and the word is "response" or "responses" |
| FormsPage.DescriptionText | app/forms/page.tsx:134 | an empty description shows as "No description", and any other is shown unchanged |
| FormsPage.UpdatedLineAfterSave | app/forms/page.tsx:126 | the "Updated on" line shows after a save at a non-zero time, and a duplicate shows it exactly when the original does |
| FormSettingsPanel.ToggleFlag | components/form-builder/form-settings.tsx:67-115 | for each of the six switches (the other three are at lines 225-271), the switch then shows the chosen value; the rest of the form and the other settings fields are copied unchanged |
| FormSettingsPanel.ToggleKeepsOtherFlags | components/form-builder/form-settings.tsx:67-115 | as for the switches at lines 225-271, toggling one switch leaves every other switch as it was |
| FormSettingsPanel.AbsentSettingsDefaults | components/form-builder/form-settings.tsx:69-281 | absent settings read as every switch off, no confirmation, no deadline, and font "default" |
| FormSettingsPanel.ToggleConfirmation | components/form-builder/form-settings.tsx:124-136 | on sets "Thank you for your response!" and off sets ""; the switch reads on exactly when it was turned on. Other fields are unchanged |
| FormSettingsPanel.EditConfirmation | components/form-builder/form-settings.tsx:138-152 | stores the text; the editor stays visible exactly when the text is non-empty |
| FormSettingsPanel.ToggleDeadline | components/form-builder/form-settings.tsx:279-289 | on stores the current time; off removes the deadline. The switch reads on exactly when it was turned on with a non-empty time |
| FormSettingsPanel.EditDeadline | components/form-builder/form-settings.tsx:300-307 | stores the parsed time; other fields are unchanged |
| FormSettingsPanel.TimePart | components/form-builder/form-settings.tsx:298 | the time piece: the text before the next "T", cut to five characters, as a prefix |
| FormSettingsPanel.DeadlineDisplay | components/form-builder/form-settings.tsx:298 | undefined exactly when there is no "T" (the source throws then). Otherwise it is exactly the stored string's prefix through the first "T" plus min(5, length of the time piece) characters |
| FormSettingsPanel.DeadlineDisplayOfIsoString | components/form-builder/form-settings.tsx:286-298 | for an ISO timestamp the input shows its first 16 characters (date, hours and minutes) |
| FormSettingsPanel.FontShown | components/form-builder/form-settings.tsx:200 | the stored font, or "default" when it is absent or empty |
| FormSettingsPanel.SelectFont | components/form-builder/form-settings.tsx:201-208 | stores the chosen font, which is then shown ("default" for ""); other fields are unchanged |
| FormSettingsPanel.SelectTheme | components/form-builder/form-settings.tsx:169 | only the form's theme changes, to the swatch's id |
| FormSettingsPanel.SelectedThemeIsLookedUp | components/form-builder/form-settings.tsx:163-169 | after clicking any swatch, looking up the form's theme gives back that same theme |
| FormSettingsPanel.SetTitle | components/form-builder/form-settings.tsx:46 | only the title changes |
| FormSettingsPanel.SetDescription | components/form-builder/form-settings.tsx:55 | only the description changes |
| Auth.FindCredentials | lib/auth.ts:35 | none exactly when no account matches both email and password; otherwise the first match |
| Auth.FindCredentialsUnique | lib/auth.ts:35 | with unique emails, signing in finds the account with that email exactly when its password matches |
| Auth.DemoShortcutAgreesWithTable | lib/auth.ts:5-35 | the demo shortcut records the same user the table lookup would find |
| Auth.RegisteredUserCanSignIn | lib/auth.ts:35-70 | an account registered under a new email can then sign in |
| Auth.UserRegistry.constructor | lib/auth.ts:5-12 | the table holds only the demo account; the invariant holds |
| Auth.UserRegistry.RegisterUser | lib/auth.ts:53-71 | returns false, leaving the table untouched, when the email is registered. Otherwise it appends a user with id `String(length + 1)` and returns true. Ids stay "1", "2", ... and emails stay unique |
| Auth.UserRegistry.AuthenticateUser | lib/auth.ts:18-50 | the demo credentials always succeed and record the demo user. Otherwise it succeeds exactly when a user matches both email and password, recording that user's id, name and email; on failure the current user is unchanged |
| Auth.UserRegistry.LogoutUser | lib/auth.ts:74-77 | clears the current user, after which no one is logged in |
| Auth.UserRegistry.GetCurrentUser | lib/auth.ts:80-91 | the recorded current user, or none |
| Auth.UserRegistry.IsLoggedIn | lib/auth.ts:94-96 | true exactly when a current user is recorded |
| Auth.UserRegistry.ResetPassword | lib/auth.ts:99-105 | true exactly when some account has that email; it changes no state |
| UserDropdown.SplitSpaces | components/auth/user-dropdown.tsx:58-59 | one piece more than there are spaces, and no piece contains a space |
| UserDropdown.SplitJoin | components/auth/user-dropdown.tsx:58-59 | joining the pieces with single spaces gives back the name, so the pieces are the name's space-separated parts |
| UserDropdown.Heads | components/auth/user-dropdown.tsx:60-61 | at most one character per piece, each the first character of a non-empty piece |
| UserDropdown.HeadsAppend | components/auth/user-dropdown.tsx:60-61 | the heads of two piece lists in a row are the heads of each, in order |
| UserDropdown.HeadsOfOne | components/auth/user-dropdown.tsx:60-61 | one piece contributes its first character, or nothing when it is empty |
| UserDropdown.Initials | components/auth/user-dropdown.tsx:58-62 | the upper-cased word starts of the name |
| UserDropdown.UpperChar | components/auth/user-dropdown.tsx:62 | Latin lower-case letters map to upper case, and every other character is unchanged |
| UserDropdown.ToUpper | components/auth/user-dropdown.tsx:62 | upper-cases each character, keeping the length |
| UserDropdown.HeadsAreWordStarts | components/auth/user-dropdown.tsx:58-61 | the split-then-head result is exactly the non-space characters that start the name or follow a space |
| UserDropdown.WordStartsBounds | components/auth/user-dropdown.tsx:58-61 | word starts contain no space, and there are at most spaces + 1 of them |
| UserDropdown.InitialsBounds | components/auth/user-dropdown.tsx:58-62 | the initials contain no space, and there are at most spaces + 1 of them |
| UserDropdown.DemoUserWordStarts | components/auth/user-dropdown.tsx:58-61 | the word starts of "Demo User" are "DU" |
| UserDropdown.DemoUserInitials | components/auth/user-dropdown.tsx:58-62 | "Demo User" gives "DU" |
| FormTemplates.GetTemplateById | components/form-builder/form-templates.tsx:207-209 | always a member of the table: the template with that id, else the first |
| FormTemplates.FallbackIsBlank | components/form-builder/form-templates.tsx:1-9 | the first template is "blank" with no questions, and every other template has questions |
| FormTemplates.TemplateIdsDistinct | components/form-builder/form-templates.tsx:1-205 | the six template ids are pairwise different |
| FormTemplates.TemplateWellFormed | components/form-builder/form-templates.tsx:10-205 | template i's question ids are pairwise different, and only the survey's (index 4) fourth question lacks `required` |
| FormTemplates.TemplateQuestionsWellFormed | components/form-builder/form-templates.tsx:1-205 | question ids are unique within each template; the only question without `required` is the survey's section break |
| FormThemes.GetThemeById | components/form-builder/form-themes.tsx:60-62 | always a member of the table: the theme with that id, else "default" |
| FormThemes.GetThemeStyles | components/form-builder/form-themes.tsx:64-73 | the looked-up theme's two colours and header image; the header image is always null |
| FormThemes.ThemeIdsDistinct | components/form-builder/form-themes.tsx:1-58 | the eight theme ids are pairwise different |
| QuestionTypes.GetQuestionTypeInfo | components/form-builder/question-types.tsx:84-86 | always a member of the table: the entry with that id, else "text" / "Short Answer" |
| QuestionTypes.CatalogueIdsAreTypeNames | components/form-builder/question-types.tsx:15-82 | the catalogue ids, in order, are the eleven question-kind names of lib/types.ts |
| QuestionTypes.CatalogueIdsDistinct | components/form-builder/question-types.tsx:15-82 | the eleven ids are pairwise different |
| QuestionTypes.CatalogueCoversTypes | components/form-builder/question-types.tsx:15-86 | every question kind has an entry, and the lookup finds it |

## Left out

- Local storage, JSON serialisation and the `typeof window === "undefined"` server guard. The store is a list plus a map. A corrupt JSON value and the server-side render path (where every store call returns `[]`, `null` or nothing) are not modelled.
- The network: the form editor's fetch and save requests (`handleSave`) and their error messages. Only `setForm(data.form)` is modelled, as `Loaded`.
- getCurrentUser: its JSON parse failure path (returning null) is not modelled. The current user is a field read as it is.
- Clock, uuid and date parsing are parameters. That a uuid is fresh, or that `Date.now()` differs between calls, is a hypothesis and not a fact of the model. `new Date(value)` with an unparsable value throws; that is not modelled.
- Numbers are unbounded integers, so `Date.now()` and scale bounds have no width limit.
- Upper-casing covers only the Latin letters a-z. Other Unicode case mappings of `toUpperCase()` are not modelled.
- A Dafny `char` is a whole Unicode scalar value, but JavaScript's `n[0]` is one UTF-16 code unit. For a name word starting outside the Basic Multilingual Plane, the source takes a lone surrogate and the model takes the whole character.
- NewFormPage.NormalizeQuestion: does not model the `question.id ?? uuidv4()` fallback, because every template question in the table has an id, so the fallback never fires.
- QuestionCard.UpdateEntry, QuestionCard.RemoveEntry, FormEditor.SetOptionPatch and FormEditor.RemoveOptionPatch require an in-range index. The index always comes from the rendered list. JavaScript's behaviour for an out-of-range index (a hole when assigning, a no-op when splicing) is not modelled.
- NewFormPage.NewFormEditor.HandleDragEnd models the handler as written, but the page never attaches it to an element. Only the drag-over handler (app/forms/new/page.tsx:269) and the drag-start handler (page.tsx:279, fired by `onMouseDown` at components/form-builder/question-card.tsx:111) are attached, and no element is `draggable`. So in the program as written, the reorder never runs and the dragged index is never reset.
- NewFormPage.NewFormEditor.HandleDragEnd requires both indices to be in range or equal: the drag-start and drag-over handlers record indices of the rendered list. Out-of-range splicing is not modelled.
- NewFormPage.NewQuestion takes the kind as a QuestionType. `addQuestion` is typed with a string (`type as any`), but every caller passes one of the eleven kind names.
- The question card's other inputs (title, scale bounds and labels, required switch, validation, points), the advanced-options toggle, and the type picker are left out. Each is a single-field `updateQuestion` patch like those modelled.
- Presentation only: the settings panel's tab state, the builder's `showSettings` toggle, scrolling, toasts, router redirects, the header image upload, date formatting (`toLocaleDateString`) and icons.
- The response count on the list page is the length of `FormStore.GetResponses`. The page's direct local storage read is not modelled separately.
- SaveFormHandler and the other handlers read the state of the render they were created in. The model runs handlers one at a time on the current state, so React's batching and stale closures are not modelled.
