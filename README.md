# CodeMailX front-end, modelled in Dafny

This project models the front-end of CodeMailX, a cold-email campaign tool.
A user keeps a list of HR contacts, writes email templates with `{{name}}`
placeholders, and runs campaigns that send one template to many contacts
under a daily sending quota. The model covers the logic of the React pages,
which is in-memory and sequential:

- the four-step campaign wizard: details, template, placeholders, review;
- its save and "Send Now" flow, gated by the daily quota;
- the draft's recipient list and placeholder values;
- the placeholder engine: extraction, substitution, highlighting;
- the validators of the template, HR-contact and mail-keys forms;
- the search filters over campaigns, contacts and templates;
- the edit permissions;
- the small view state machines: the campaigns page, the layout title, the navbar and the dashboard badge.

Every server call is a request appended to a `requests` log. Its answer
comes in as a parameter of a separate "settled" method. A handler that
awaits a request is split into two methods:

- the first runs the guards, raises the in-flight flag and logs the request;
- the second requires the flag and takes the outcome.

So the "nothing while saving/sending" guards mean something in the model.
Toasts go to a `toasts` log. Navigation and the `onCancel`/`onClose`/`onSent`
callbacks are recorded in fields. Each React effect is a method that the page
calls explicitly.

Modules:

- **Wrappers**: `Option` and fetch outcomes.
- **Text**: ECMAScript whitespace, `trim`, ASCII case mapping, `includes`, `split`, decimals.
- **Seqs**: filter, subsequence, reverse, dedup.
- **JsObject**: JS objects as ordered entry lists.
- **Effects**: requests and toasts.
- **Entities**: contacts, templates, campaigns, the draft.
- **Email**: the shared email-shape test.
- **Quota**: the daily-limit test.
- **One module per page or component**:
  - the wizard: Wizard, Step1Details, Step2Template, Step3Placeholders, Review, Substitution, StepNavigation, StepperNav;
  - the campaigns pages: SendPopup, ExistingCampaigns, CampaignsPage;
  - the template pages: TokenScan, TemplateForm, TemplateList, TemplatesPage;
  - the contact pages: HrForm, HrsPage;
  - the rest: MailKeys, Layout, Navbar, Dashboard.

Where the code behaves in a way a reader might not expect, the model
follows the code:

- **Substitution is sequential.** The review preview applies the keys one after another to the running text. A value that contains a later key's token therefore has that token filled in too: `{{a}}` with a = `{{b}}` and b = `X` renders as `X` (`Substitution.SequentialFill` for any such keys and value).
- **A template change resets the values.** Choosing a template empties the placeholder values before the placeholder step reconciles them. Values therefore never survive a template change, unless the new template declares no keys (`Step3Placeholders.TemplateChangeResetsValues`, `Wizard.TemplateChoiceBlocksPlaceholderStep`).
- **Cancel and Back are disabled while a save is in flight** (`StepNavigation.SavingLocksBar`).
- **A successful send from the wizard only closes it.** It does not mark any listed campaign as sent (`Wizard.CampaignStepper.SendSettled`).
- **The layout title never reads "HRS" or "Campaigns".** The effect's final `if`/`else` always writes again (`Layout.HrsRouteShowsDashboard`).

## Model

| member | source | states |
|---|---|---|
| Wizard.DetailsStepValid | src/pages/Campaign/CampaignStepper.jsx:82-106 | the details step may be left iff name and company are non-blank after trim and the recipient list is non-empty; every step from the review on is always valid |
| Wizard.PlaceholderStepValid | src/pages/Campaign/CampaignStepper.jsx:95-103 | without a template the placeholder step is invalid; a template declaring no keys makes it valid; a declared key without a non-blank value makes it invalid |
| Wizard.TemplateChoiceBlocksPlaceholderStep | src/pages/Campaign/steps/Step2.jsx:40-50 | after choosing a listed template and reconciling, the placeholder step is valid iff the template declares no keys |
| Wizard.StoredPairs | src/pages/Campaign/CampaignStepper.jsx:126-128 | the stored `{key,value}` list, when present, has one pair per payload entry |
| Wizard.SaveThenReload | src/pages/Campaign/CampaignStepper.jsx:126-128 | for an object of distinct keys, the payload's pair list is exactly the entries in entry order, and folding that list back gives the same object |
| Wizard.StoredObjectPairs | src/pages/Campaign/CampaignStepper.jsx:126-128 | `Object.entries(...).map(([key, value]) => ({key, value}))` of an object stores its entries unchanged, in order |
| Wizard.SaveRequestSpec | src/pages/Campaign/CampaignStepper.jsx:121-143 | PUT `campaigns/<id>` iff editing a campaign with an id, otherwise POST `campaigns/`; the payload carries name, company, recipients and template id unchanged |
| Wizard.SavedIdSpec | src/pages/Campaign/CampaignStepper.jsx:139-142 | after an update there is always an id to send, the server's or else the edited campaign's; after a creation it is exactly the server's |
| Wizard.CampaignStepper.constructor | src/pages/Campaign/CampaignStepper.jsx:19-49 | starts on step 0, not editing, nothing completed, no prompt, no saved id, no quota, the empty draft |
| Wizard.CampaignStepper.LoadEmailLimit | src/pages/Campaign/CampaignStepper.jsx:29-40 | requests the quota; a loaded answer is stored, a failure changes nothing else |
| Wizard.CampaignStepper.HydrateForEdit | src/pages/Campaign/CampaignStepper.jsx:54-71 | with a campaign to edit: editing mode, the draft loaded from the campaign with defaults for missing fields, all four steps completed; without one nothing changes |
| Wizard.CampaignStepper.Next | src/pages/Campaign/CampaignStepper.jsx:73-78 | a valid step is marked completed and the step advances by one; an invalid step changes nothing |
| Wizard.CampaignStepper.Prev | src/pages/Campaign/CampaignStepper.jsx:80 | the step goes back by one and the completed steps are untouched |
| Wizard.CampaignStepper.Cancel | src/pages/Campaign/CampaignStepper.jsx:207-216 | only while not saving; hands control back to the page and changes nothing else |
| Wizard.CampaignStepper.Save | src/pages/Campaign/CampaignStepper.jsx:108-130 | an invalid step does nothing; a list over a loaded quota only raises the quota error; otherwise saving starts and the PUT-or-POST request is issued |
| Wizard.CampaignStepper.SaveSettled | src/pages/Campaign/CampaignStepper.jsx:131-155 | success records the saved id and opens the send prompt; failure raises "Error updating/creating campaign"; saving is over either way |
| Wizard.CampaignStepper.SendNow | src/pages/Campaign/CampaignStepper.jsx:158-171 | nothing without a saved id or while sending; only an error over the quota; otherwise sending starts and POST `campaigns/<id>/send` is issued |
| Wizard.CampaignStepper.SendSettled | src/pages/Campaign/CampaignStepper.jsx:170-180 | success shows the sent toast, closes the prompt and exits; failure shows the error; sending is over either way |
| Wizard.CampaignStepper.MaybeLater | src/pages/Campaign/CampaignStepper.jsx:238-243 | only while not sending; closes the prompt and exits |
| Wizard.CampaignStepper.SetCampaignName | src/pages/Campaign/steps/Step1.jsx:169-172 | only the draft's name changes; no other field of the wizard changes (the method may write only `formData`) |
| Wizard.CampaignStepper.SetCompany | src/pages/Campaign/steps/Step1.jsx:189-191 | only the company changes; the recipient list is kept; no other field of the wizard changes (the method may write only `formData`) |
| Wizard.CampaignStepper.NormalizeHrList | src/pages/Campaign/steps/Step1.jsx:15-24 | the list becomes its id list, so it holds only ids; no other field of the wizard changes (the method may write only `formData`) |
| Wizard.CampaignStepper.AddHr | src/pages/Campaign/steps/Step1.jsx:115-120 | the contact's id is appended at the end of the list; no other field of the wizard changes (the method may write only `formData`) |
| Wizard.CampaignStepper.RemoveHr | src/pages/Campaign/steps/Step1.jsx:122-127 | every occurrence of the id leaves the list; no other field of the wizard changes (the method may write only `formData`) |
| Wizard.CampaignStepper.ClearAllSelected | src/pages/Campaign/steps/Step1.jsx:129-131 | the list becomes empty; no other field of the wizard changes (the method may write only `formData`) |
| Wizard.CampaignStepper.ChooseTemplate | src/pages/Campaign/steps/Step2.jsx:40-50 | the draft becomes the selection's draft, whose placeholder values are the empty object; no other field of the wizard changes (the method may write only `formData`) |
| Wizard.CampaignStepper.SyncSelectedTemplate | src/pages/Campaign/steps/Step2.jsx:26-38 | the draft becomes the synced draft; the placeholder values are untouched; no other field of the wizard changes (the method may write only `formData`) |
| Wizard.CampaignStepper.SyncPlaceholders | src/pages/Campaign/steps/Step3.jsx:60-62 | the draft's values become the step's object, key for key; no other field of the wizard changes (the method may write only `formData`) |
| Step1Details.IdList | src/pages/Campaign/steps/Step1.jsx:17-19 | one entry per entry, each replaced by its id, so the result holds only ids |
| Step1Details.IdListOfIds | src/pages/Campaign/steps/Step1.jsx:17-19 | a list of ids maps to itself |
| Step1Details.NormalizeSpec | src/pages/Campaign/steps/Step1.jsx:15-24 | normalising gives the id list; it changes the list iff some entry is an object; normalising twice equals once |
| Step1Details.WithoutSpec | src/pages/Campaign/steps/Step1.jsx:122-127 | the id is gone; an entry stays iff it was there and is not that id; the rest keep their order |
| Step1Details.AddThenRemove | src/pages/Campaign/steps/Step1.jsx:115-127 | removing an id that was just added, and was absent before, restores the list |
| Step1Details.SelectedSpec | src/pages/Campaign/steps/Step1.jsx:27-29 | a contact is selected iff it is fetched and its id is in the list; the fetched order is kept |
| Step1Details.FilteredAvailableSpec | src/pages/Campaign/steps/Step1.jsx:103-108 | a contact is offered iff it is not selected and passes the verified/unverified/all filter; no contact is both offered and selected |
| Step1Details.ScopePartition | src/pages/Campaign/steps/Step1.jsx:111-112 | the global and user-added lists split the offered list by `isGlobal`, as multisets |
| Step2Template.SelectTemplateSpec | src/pages/Campaign/steps/Step2.jsx:40-50 | the draft records the chosen id; a selected template is the first listed one with that id (`find`); none is selected iff no listed template has that id; no placeholder has a value afterwards; name, company and recipients are kept |
| Step2Template.SyncSelectedSpec | src/pages/Campaign/steps/Step2.jsx:26-38 | the sync only changes `selectedTemplate`, and only to a listed template with the draft's id; an empty id, an empty list or no match changes nothing |
| Step2Template.SyncAfterSelect | src/pages/Campaign/steps/Step2.jsx:26-50 | syncing right after a selection changes nothing, and syncing twice equals syncing once |
| Step3Placeholders.FromPairsKeys | src/pages/Campaign/steps/Step3.jsx:15-18 | the folded object has a key iff some pair has it |
| Step3Placeholders.BlankKeys | src/pages/Campaign/steps/Step3.jsx:36-39 | the initial object has exactly the template's keys, each mapped to "" |
| Step3Placeholders.ReconcileSpec | src/pages/Campaign/steps/Step3.jsx:10-44 | no template gives the empty object; otherwise the keys are exactly the template's; matching key sets keep the existing values; otherwise every value is "" |
| Step3Placeholders.LoadedValuesSurvive | src/pages/Campaign/steps/Step3.jsx:14-34 | a stored pair list whose keys match the template's keeps each key's last value |
| Step3Placeholders.TemplateChangeResetsValues | src/pages/Campaign/steps/Step2.jsx:44-49 | after a template choice, every reconciled value is "" |
| Step3Placeholders.HandleChangeLocal | src/pages/Campaign/steps/Step3.jsx:46-58 | an edit sets that key's value; other keys read and report as before; the key has an error iff the value is blank |
| Step3Placeholders.PlaceholderForm.constructor | src/pages/Campaign/steps/Step3.jsx:7-8 | no values and no errors |
| Step3Placeholders.PlaceholderForm.Reconcile | src/pages/Campaign/steps/Step3.jsx:10-44 | the values become the reconciled object; the errors are kept |
| Step3Placeholders.PlaceholderForm.HandleChange | src/pages/Campaign/steps/Step3.jsx:46-58 | stores the raw value; a blank value records "This field is required" and a non-blank one removes only that key's error |
| Review.CompanyName | src/pages/Campaign/steps/Step4.jsx:5 | the company, or "Not selected" when it is empty |
| Review.TemplateName | src/pages/Campaign/steps/Step4.jsx:7-8 | the selected template's name when it has one, otherwise "Not selected"; never empty |
| Review.HrSummaryDistinguishes | src/pages/Campaign/steps/Step4.jsx:10-13 | "No HRs selected" iff the list is empty; two summaries are equal iff the lists have equal length |
| Text.SpaceRunEnd | src/pages/Campaign/steps/Step4.jsx:135 | the end of the maximal whitespace run that the greedy `\s*` consumes: every character before it is whitespace and the one at it is not |
| Substitution.MatchAt | src/pages/Campaign/steps/Step4.jsx:135 | a match of `{{\s*key\s*}}` spans at least the four braces and stays in the text |
| Substitution.ReplaceTemplateVariables | src/pages/Campaign/steps/Step4.jsx:131-139 | a missing or empty text, or missing values, return the text unchanged; otherwise the loop's result is the in-order fold of one replacement pass per entry |
| Substitution.ReplacePlainPrefix | src/pages/Campaign/steps/Step4.jsx:135-136 | text without `{` passes through a replacement pass untouched |
| Text.SpaceRunOver | src/pages/Campaign/steps/Step4.jsx:135 | a run of whitespace followed by a non-space ends exactly there |
| Substitution.ReplaceKeyToken | src/pages/Campaign/steps/Step4.jsx:135-136 | a token for the key, with any whitespace inside the braces, becomes the replacement |
| Substitution.ReplaceOtherToken | src/pages/Campaign/steps/Step4.jsx:135-136 | a token for another name is copied unchanged and the pass continues after it |
| Substitution.NoMatchOnOtherToken | src/pages/Campaign/steps/Step4.jsx:135 | the key's pattern does not match at the start of another name's token |
| Substitution.ApplyPlainPrefix | src/pages/Campaign/steps/Step4.jsx:133-137 | brace-free text ahead of the tokens survives every entry |
| Substitution.ApplyOtherToken | src/pages/Campaign/steps/Step4.jsx:134-137 | a token whose name is not a key of the values is left unchanged |
| Substitution.SingleEntry | src/pages/Campaign/steps/Step4.jsx:136 | a token becomes a non-empty value, or the canonical `{{key}}` when the value is empty |
| Substitution.SequentialFill | src/pages/Campaign/steps/Step4.jsx:133-137 | for any safe keys a and b and any non-empty value x: a token for a whose value is a token for b, followed by b = x, renders as x; a value holding a later key's token has that token filled too |
| Substitution.SequentialFillExample | src/pages/Campaign/steps/Step4.jsx:133-137 | the instance `{{a}}` with a = `{{b}}` and b = `X` renders as `X` |
| TokenScan.CloseAt | src/pages/Templates/TemplateForm.jsx:88 | the lazy `.*?` stops at the first `}}` on the same line |
| TokenScan.ScanLossless | src/pages/Templates/TemplateForm.jsx:88 | rendering the scanned pieces gives the text back |
| TokenScan.Tokens | src/pages/Templates/TemplateForm.jsx:88 | no more tokens than pieces |
| TokenScan.TokenShape | src/pages/Templates/TemplateForm.jsx:88 | no token spans a line or contains `}}` |
| TokenScan.NoOpenNoTokens | src/pages/Templates/TemplateForm.jsx:88 | text without `{{` has no tokens |
| TokenScan.SingleToken | src/pages/Templates/TemplateList.jsx:144 | a text that is one well-formed token scans as that token |
| TokenScan.CloseSkipsInner | src/pages/Templates/TemplateForm.jsx:88 | inside a well-formed token the scan finds its own closing braces |
| TemplateForm.StripBraces | src/pages/Templates/TemplateForm.jsx:89 | removing braces never lengthens the text |
| TemplateForm.StripPlainPrefix | src/pages/Templates/TemplateForm.jsx:89 | brace-free text passes through unchanged |
| TemplateForm.Names | src/pages/Templates/TemplateForm.jsx:89 | one name per token, in order |
| TemplateForm.NamesMembership | src/pages/Templates/TemplateForm.jsx:89 | a name is listed iff some token stands for it |
| TemplateForm.ExtractSpec | src/pages/Templates/TemplateForm.jsx:87-90 | no duplicates; a name is extracted iff some token of the body stands for it; the names are ordered by the position of their first token |
| Seqs.DedupFirstOrder | src/pages/Templates/TemplateForm.jsx:87-90 | `[...new Set(xs)]` lists the distinct elements in the order of their first occurrence in `xs` |
| TemplateForm.NoOpenNoPlaceholders | src/pages/Templates/TemplateForm.jsx:88 | a body without `{{`, the empty one included, declares nothing |
| TemplateForm.StripToken | src/pages/Templates/TemplateForm.jsx:89 | stripping a token's braces gives its inner text |
| TemplateForm.SingleTokenName | src/pages/Templates/TemplateForm.jsx:87-90 | `{{  name  }}` declares exactly the trimmed name |
| TemplateForm.MissingRequiredIsFilter | src/pages/Templates/TemplateForm.jsx:127-129 | the missing names are the required list filtered by absence |
| TemplateForm.MissingRequiredSpec | src/pages/Templates/TemplateForm.jsx:127-129 | nothing is missing iff both `userName` and `resumeLink` are declared; otherwise the missing ones, in declaration order |
| TemplateForm.FormValidIff | src/pages/Templates/TemplateForm.jsx:115-137 | no errors iff name, subject and body are non-blank and both required names are declared |
| TemplateForm.BodyErrorSpec | src/pages/Templates/TemplateForm.jsx:119-134 | a blank body is "required"; otherwise the message lists the missing required names; no message when none is missing |
| TemplateForm.MissingMessageText | src/pages/Templates/TemplateForm.jsx:131-133 | names are joined with ", " after the fixed prefix |
| TemplateForm.ModesExclusive | src/pages/Templates/TemplateForm.jsx:14-15 | edit and duplicate never both hold; edit iff an id and no duplicate mode; the title names the mode |
| TemplateForm.SubmitRequest | src/pages/Templates/TemplateForm.jsx:147-163 | PUT `templates/<id>` iff edit mode, otherwise POST `templates`, with the form as payload |
| TemplateForm.Cleared | src/pages/Templates/TemplateForm.jsx:98-100 | a present message becomes "" and an absent one stays absent |
| TemplateForm.FieldsOf | src/pages/Templates/TemplateForm.jsx:47-59 | without a placeholder list the placeholders are extracted from the body |
| TemplateForm.TemplateFormPage.constructor | src/pages/Templates/TemplateForm.jsx:10-44 | the empty form, no errors, not loading |
| TemplateForm.TemplateFormPage.LoadFromState | src/pages/Templates/TemplateForm.jsx:47-60 | in edit or duplicate mode the form becomes the passed template's fields |
| TemplateForm.TemplateFormPage.HandleTextChange | src/pages/Templates/TemplateForm.jsx:92-101 | sets that field and clears only that field's message |
| TemplateForm.TemplateFormPage.HandleGlobalChange | src/pages/Templates/TemplateForm.jsx:92-101 | sets the global flag; errors unchanged |
| TemplateForm.TemplateFormPage.HandleBodyChange | src/pages/Templates/TemplateForm.jsx:103-113 | sets the body, recomputes the placeholders from it and clears only the body's message |
| TemplateForm.TemplateFormPage.Validate | src/pages/Templates/TemplateForm.jsx:115-138 | stores the form's errors and answers whether there are none |
| TemplateForm.TemplateFormPage.Submit | src/pages/Templates/TemplateForm.jsx:139-148 | an invalid form sends nothing; a valid one starts loading, issues the mode's request and keeps the submitted name for the response |
| TemplateForm.TemplateFormPage.SubmitSettled | src/pages/Templates/TemplateForm.jsx:149-178 | success announces the server's name, else the name submitted with the request, and returns to the list; failure shows the server's message or a generic one |
| TemplateList.Toggled | src/pages/Templates/TemplateList.jsx:18-20 | the result is either nothing or the clicked id; it is nothing iff that id was open |
| TemplateList.ToggledTwice | src/pages/Templates/TemplateList.jsx:18-20 | toggling one id twice restores the state iff nothing or that id was open |
| TemplateList.NavigationModes | src/pages/Templates/TemplateList.jsx:22-32 | the duplicate button opens the editor in duplicate mode; the edit button in edit mode |
| TemplateList.View | src/pages/Templates/TemplateList.jsx:34-57 | skeletons iff loading; "No templates found" iff loaded and empty; otherwise one card per template |
| TemplateList.TemplateListView.constructor | src/pages/Templates/TemplateList.jsx:13-16 | no card open, no navigation |
| TemplateList.TemplateListView.Toggle | src/pages/Templates/TemplateList.jsx:18-20 | the open id becomes the toggled one |
| TemplateList.TemplateListView.Edit | src/pages/Templates/TemplateList.jsx:96-103 | navigates to the editor only when the user is the template's author |
| TemplateList.TemplateListView.Duplicate | src/pages/Templates/TemplateList.jsx:85-89 | always navigates to the editor in duplicate mode |
| TemplateList.LastNewline | src/pages/Templates/TemplateList.jsx:142 | the last line feed of a range, where the greedy `\s*` backs off to |
| TemplateList.Collapse | src/pages/Templates/TemplateList.jsx:142 | never longer, and keeps the first character |
| TemplateList.CollapseNoDoubleNewline | src/pages/Templates/TemplateList.jsx:142 | no two adjacent line feeds remain |
| TemplateList.NonSpace | src/pages/Templates/TemplateList.jsx:142 | the visible characters, in order |
| TemplateList.NonSpaceSkip | src/pages/Templates/TemplateList.jsx:142 | leading whitespace adds no visible characters |
| TemplateList.CollapseKeepsText | src/pages/Templates/TemplateList.jsx:142 | collapsing removes whitespace only |
| TemplateList.CollapseWithoutNewline | src/pages/Templates/TemplateList.jsx:142 | text without line feeds is unchanged |
| TemplateList.HighlightLength | src/pages/Templates/TemplateList.jsx:143-146 | highlighting adds exactly the two span tags per token |
| TemplateList.HighlightWithoutTokens | src/pages/Templates/TemplateList.jsx:143-146 | without tokens the text is unchanged |
| TemplateList.HighlightSingleToken | src/pages/Templates/TemplateList.jsx:143-146 | a token is wrapped whole and its text is still `{{x}}` |
| TemplateList.RenderBody | src/pages/Templates/TemplateList.jsx:139-147 | a missing body stays missing |
| TemplateList.RenderBodySpec | src/pages/Templates/TemplateList.jsx:140-146 | trim, then collapse, then highlight; no blank line is left; every visible character is kept |
| TemplatesPage.FilteredTemplatesSpec | src/pages/Templates/Templates.jsx:33-35 | a template is kept, in order, iff its name contains the term ignoring ASCII case; a nameless one never; an empty term keeps every named one |
| TemplatesPage.TemplatesPageState.constructor | src/pages/Templates/Templates.jsx:13-31 | an empty list while loading, and the GET `templates` request |
| TemplatesPage.TemplatesPageState.FetchSettled | src/pages/Templates/Templates.jsx:19-26 | a failure keeps the list and shows the error; loading ends either way |
| TemplatesPage.TemplatesPageState.SetSearchTerm | src/pages/Templates/Templates.jsx:75 | the term is the typed text |
| TemplatesPage.TemplatesPageState.Shown | src/pages/Templates/Templates.jsx:33-40 | nothing on an id route; otherwise exactly the filtered list: every listed template whose name matches, in list order (with FilteredTemplatesSpec) |
| Quota.ExceedsLimitSpec | src/pages/Campaign/SendCampaignPopup.jsx:10 | an unloaded quota never blocks; blocking is monotone in the count; an allowed count leaves a non-negative remainder |
| SendPopup.HrCount | src/pages/Campaign/SendCampaignPopup.jsx:9 | the list's length, or 0 without a list |
| SendPopup.ReadyRemaining | src/pages/Campaign/SendCampaignPopup.jsx:95-100 | shown iff a quota is loaded and not exceeded, and then non-negative and equal to the remaining limit minus the count |
| SendPopup.SendCampaignPopup.constructor | src/pages/Campaign/SendCampaignPopup.jsx:6-7 | not sending, nothing logged |
| SendPopup.SendCampaignPopup.Send | src/pages/Campaign/SendCampaignPopup.jsx:12-24 | nothing while sending; only an error over the quota; otherwise sending starts and POST `campaigns/<id>/send` is issued |
| SendPopup.SendCampaignPopup.SendSettled | src/pages/Campaign/SendCampaignPopup.jsx:25-33 | success reports the id to `onSent` when given and closes; failure shows the error; sending is over either way |
| SendPopup.SendCampaignPopup.Cancel | src/pages/Campaign/SendCampaignPopup.jsx:109-111 | enabled only while not sending; closes |
| StepNavigation.SavingLocksBar | src/components/StepNavigation.jsx:17-124 | while saving nothing is pressable and the primary button reads "Saving..."; otherwise Cancel and Back are pressable, and the primary button iff the step may be left |
| StepNavigation.ButtonsByStep | src/components/StepNavigation.jsx:32-123 | Back shows iff past the first step; Finish iff on the last step, labelled "Save & Send" |
| StepperNav.Row | src/components/StepperNav.jsx:7-38 | one view per step |
| StepperNav.ConnectorCount | src/components/StepperNav.jsx:33-35 | n steps draw n-1 connectors |
| StepperNav.ActiveCount | src/components/StepperNav.jsx:8-21 | exactly one active step when the current one is in range and not completed, otherwise none |
| StepperNav.CircleReadsBack | src/components/StepperNav.jsx:24 | a completed step shows the check mark; any other shows its 1-based number |
| Email.PaddedEmailRejected | src/pages/Hrs/CreateOrEditHr.jsx:99-100 | the test runs on the untrimmed address, so surrounding whitespace fails it |
| Email.EmailShapeNeeds | src/pages/Hrs/CreateOrEditHr.jsx:99 | two `@` are rejected, and an accepted address has a `.` inside it |
| Email.EmailShapeAccepts | src/pages/MailKeys.jsx:23 | a plain `local@host.tld` passes |
| Email.ShapedIsNotBlank | src/pages/MailKeys.jsx:24-28 | an accepted address is never blank |
| HrForm.DescribesSpec | src/pages/Hrs/CreateOrEditHr.jsx:93-104 | the error object is empty iff name, email and mobile number pass; it is determined by the form |
| HrForm.ReportsSpec | src/pages/Hrs/CreateOrEditHr.jsx:93-104 | an error object is empty iff no check fails, and is unique for the given verdicts |
| HrForm.SaveRequest | src/pages/Hrs/CreateOrEditHr.jsx:116-126 | PUT `hr/<id>` iff a route id, otherwise POST `hr`, with the whole form as payload |
| HrForm.VerifyResult | src/pages/Hrs/CreateOrEditHr.jsx:315-349 | verified iff the first status is "valid"; a success toast then, otherwise an error toast; the rate-limit and generic failure messages |
| HrForm.SetText | src/pages/Hrs/CreateOrEditHr.jsx:82-87 | only the named field changes |
| HrForm.HrFormPage.constructor | src/pages/Hrs/CreateOrEditHr.jsx:7-28 | the initial form, no errors, no dialog |
| HrForm.HrFormPage.HandleTextChange | src/pages/Hrs/CreateOrEditHr.jsx:82-91 | sets that field; that key's message becomes "" |
| HrForm.HrFormPage.HandleGlobalChange | src/pages/Hrs/CreateOrEditHr.jsx:82-91 | sets the global flag; its key's message becomes "" |
| HrForm.HrFormPage.HandleVerifyChange | src/pages/Hrs/CreateOrEditHr.jsx:74-80 | unticking clears the flag at once; ticking only opens the dialog |
| HrForm.HrFormPage.ConfirmVerified | src/pages/Hrs/CreateOrEditHr.jsx:305-308 | the contact is verified and the dialog closes |
| HrForm.HrFormPage.VerifyViaApi | src/pages/Hrs/CreateOrEditHr.jsx:313-320 | only when not pending; posts the typed email to `hr/verify-emails` |
| HrForm.HrFormPage.VerifySettled | src/pages/Hrs/CreateOrEditHr.jsx:321-349 | the flag follows the result, a toast reports it, the dialog closes |
| HrForm.HrFormPage.Validate | src/pages/Hrs/CreateOrEditHr.jsx:93-104 | the returned object describes the form's errors |
| HrForm.HrFormPage.Submit | src/pages/Hrs/CreateOrEditHr.jsx:106-126 | with errors they are stored and nothing is sent; otherwise loading, the PUT-or-POST request, and the submitted name kept for the response |
| HrForm.HrFormPage.SubmitSettled | src/pages/Hrs/CreateOrEditHr.jsx:119-142 | success announces the server's name, else the name submitted with the request, and returns to the list; failure shows the message |
| HrsPage.Endpoint | src/pages/Hrs/index.jsx:59-61 | "global" gives `hr/global`, "user" gives `hr/user`, anything else `hr` |
| HrsPage.FilteredHrsSpec | src/pages/Hrs/index.jsx:76-81 | a contact is kept, in order, iff name, email or company contains the search ignoring ASCII case; an empty search keeps every contact with those fields |
| HrsPage.CanEditSpec | src/pages/Hrs/index.jsx:165-167 | admins may edit every contact, users only those they added, anyone else none |
| HrsPage.HrsPageState.constructor | src/pages/Hrs/index.jsx:72-74 | mounting fetches `hr` with the "all" filter |
| HrsPage.HrsPageState.SetFilter | src/pages/Hrs/index.jsx:56-74 | a different filter sets loading and fetches its endpoint; choosing the active filter again changes nothing, so no fetch is issued |
| HrsPage.HrsPageState.FetchSettled | src/pages/Hrs/index.jsx:63-69 | a failure keeps the previous list and shows the error; loading ends either way |
| HrsPage.HrsPageState.SetSearch | src/pages/Hrs/index.jsx:76-81 | the search is the typed text |
| HrsPage.HrsPageState.EditClick | src/pages/Hrs/index.jsx:196-202 | navigates to the editor only with permission; otherwise nothing |
| MailKeys.EmailErrorSpec | src/pages/MailKeys.jsx:22-31 | no message iff the login email is used or the address passes the shape test; blank and malformed messages otherwise |
| MailKeys.PasswordErrorSpec | src/pages/MailKeys.jsx:33-40 | no message iff exactly 16 ASCII letters and digits; blank gives the required message |
| MailKeys.MailKeysPage.constructor | src/pages/MailKeys.jsx:9-16 | the login email in use, empty password, both messages empty |
| MailKeys.MailKeysPage.SetUseLoggedEmail | src/pages/MailKeys.jsx:93-97 | ticking restores the login email, unticking empties it; the email message is cleared |
| MailKeys.MailKeysPage.SetEmail | src/pages/MailKeys.jsx:118 | the typed address |
| MailKeys.MailKeysPage.SetAppPassword | src/pages/MailKeys.jsx:150 | the typed password |
| MailKeys.MailKeysPage.Validate | src/pages/MailKeys.jsx:18-44 | both messages stored; valid iff both are empty |
| MailKeys.MailKeysPage.Submit | src/pages/MailKeys.jsx:46-52 | an invalid form sends nothing; a valid one PUTs `users/smtp` |
| MailKeys.MailKeysPage.SubmitSettled | src/pages/MailKeys.jsx:53-60 | success clears the app password; failure keeps it and shows the error |
| ExistingCampaigns.FilterCampaignsSpec | src/pages/Campaign/ExistingCampaigns.jsx:42-58 | a blank query keeps the whole list; otherwise a campaign stays iff name, company or template name contains the untrimmed query; order is kept |
| ExistingCampaigns.DisplayOrder | src/pages/Campaign/ExistingCampaigns.jsx:154 | the filtered list reversed, same elements |
| ExistingCampaigns.FormatDate | src/pages/Campaign/ExistingCampaigns.jsx:60-64 | a missing or empty date reads "Unknown date"; any other is formatted |
| ExistingCampaigns.StatusBadge | src/pages/Campaign/ExistingCampaigns.jsx:222-226 | the pending badge iff the status is "Pending" |
| ExistingCampaigns.EmptyHeading | src/pages/Campaign/ExistingCampaigns.jsx:143 | "No campaigns yet" iff the query is empty |
| CampaignsPage.CampaignsPageState.constructor | src/pages/Campaign/Campaigns.jsx:9-11 | home, no campaign to edit, no template to view |
| CampaignsPage.CampaignsPageState.OpenExisting | src/pages/Campaign/Campaigns.jsx:22-23 | home to the list |
| CampaignsPage.CampaignsPageState.CreateNew | src/pages/Campaign/Campaigns.jsx:29-33 | clears the campaign to edit and opens the wizard |
| CampaignsPage.CampaignsPageState.StepperCancel | src/pages/Campaign/Campaigns.jsx:54-57 | back home, the campaign to edit cleared |
| CampaignsPage.CampaignsPageState.ListClose | src/pages/Campaign/Campaigns.jsx:64 | back home |
| CampaignsPage.CampaignsPageState.ListEdit | src/pages/Campaign/Campaigns.jsx:65-69 | the wizard opens on the campaign |
| CampaignsPage.CampaignsPageState.ListView | src/pages/Campaign/Campaigns.jsx:70-74 | the viewer opens on the campaign's template |
| CampaignsPage.CampaignsPageState.ViewClose | src/pages/Campaign/Campaigns.jsx:81-84 | back to the list, not home; the template cleared |
| Layout.DerivedTab | src/pages/MainLayout/Layout.jsx:15-22 | "Mailkeys" iff the path names mailkeys; "Templates" iff templates but not mailkeys; "Dashboard" otherwise; never "HRS" or "Campaigns" |
| Layout.HrsRouteShowsDashboard | src/pages/MainLayout/Layout.jsx:16-21 | the contacts route names "hrs" yet shows "Dashboard" |
| Layout.LayoutState.constructor | src/pages/MainLayout/Layout.jsx:11 | the initial tab is "Dashboard" |
| Layout.LayoutState.OnPathChange | src/pages/MainLayout/Layout.jsx:15-22 | after the sequence of writes the tab is the derived tab |
| Navbar.UpperInitial | src/pages/MainLayout/Navbar.jsx:24 | at most one letter, none for an empty word |
| Navbar.Initial | src/pages/MainLayout/Navbar.jsx:50 | at most one letter, none for an empty word |
| Navbar.Initials | src/pages/MainLayout/Navbar.jsx:48-51 | no more letters than words |
| Navbar.DisplayName | src/pages/MainLayout/Navbar.jsx:20 | never empty |
| Navbar.AvatarInitials | src/pages/MainLayout/Navbar.jsx:21-27 | at most two letters; "??" without a name |
| Navbar.UpperInitialsAppend | src/pages/MainLayout/Navbar.jsx:23-25 | the initials of joined word lists are the joined initials |
| Navbar.UpperInitialsIsUpper | src/pages/MainLayout/Navbar.jsx:48-52 | uppercasing each initial equals uppercasing the joined initials |
| Navbar.EmptyWordsContributeNothing | src/pages/MainLayout/Navbar.jsx:23-24 | empty words from repeated spaces add nothing |
| Navbar.AvatarIsPrefixOfDropdown | src/pages/MainLayout/Navbar.jsx:21-52 | with a name, the button shows the first two of the dropdown's letters |
| Navbar.SplitWithoutSeparator | src/pages/MainLayout/Navbar.jsx:23 | a word without spaces splits to itself |
| Navbar.SplitAtSeparator | src/pages/MainLayout/Navbar.jsx:23 | text before the first space is the first word |
| Navbar.TwoWordInitials | src/pages/MainLayout/Navbar.jsx:21-27 | a first and last name give their two uppercased initials |
| Navbar.NoNameFallbacks | src/pages/MainLayout/Navbar.jsx:20-52 | without a name: "??" on the button, "User" and "U" in the dropdown |
| Navbar.NavbarState.constructor | src/pages/MainLayout/Navbar.jsx:7 | the dropdown starts closed |
| Navbar.NavbarState.ToggleDropdown | src/pages/MainLayout/Navbar.jsx:38 | flips the dropdown |
| Navbar.NavbarState.MouseDown | src/pages/MainLayout/Navbar.jsx:10-18 | a mouse-down outside the profile area closes the dropdown; inside it changes nothing |
| Dashboard.BadgeTier | src/pages/Dashboard.jsx:45-50 | the tier's threshold is reached; no next threshold iff Gold; the next threshold lies above the count |
| Dashboard.NextTier | src/pages/Dashboard.jsx:165-172 | the tier one rank up |
| Dashboard.BadgeTierSpec | src/pages/Dashboard.jsx:45-50 | the badge is the highest tier whose threshold is reached; below Gold the next threshold is that of the tier above |
| Dashboard.BadgeMonotone | src/pages/Dashboard.jsx:45-50 | more contributions never lower the badge |
| Dashboard.Max0 | src/pages/Dashboard.jsx:167-171 | `Math.max(0, n)` |
| Dashboard.NextMessageAgrees | src/pages/Dashboard.jsx:164-172 | below Gold the message names the tier above and a positive count of missing contributions, so the clamp never applies; Gold gives "You reached Gold. Respect." |
| Dashboard.ProgressLabelSpec | src/pages/Dashboard.jsx:453 | "Max level" iff Gold; otherwise count/next threshold |
| Dashboard.PieShown | src/pages/Dashboard.jsx:237-241 | one placeholder slice iff all three counts are 0, otherwise the three counts; never all zero |
| Wrappers.AfterFetch | src/pages/Templates/Templates.jsx:19-26 | a failure keeps the previous list; a missing answer gives the empty list; otherwise the answer |
| JsObject.PutGet | src/pages/Campaign/steps/Step3.jsx:47 | `{...prev, [key]: value}` reads back the value and leaves other keys alone |
| JsObject.FromPairsLastWins | src/pages/Campaign/steps/Step3.jsx:15-18 | folding a pair list, a later pair for a key overwrites an earlier one |

## Left out

- The API wrapper (src/services/api.js): requests are logged and their outcomes are parameters; tokens, headers and axios errors are not modelled.
- Sign-in, sign-up, logout and session storage, all built on localStorage. The stored user's name, id, role and email are constructor parameters.
- The AI template form: a network call plus a timer-driven typing animation.
- Rendering, animation, routing, the 600 ms `setTimeout` before navigating, and toast JSX. A success toast is recorded as its text.
- React effect scheduling and batching. Every effect is a method that the caller invokes.
- Locale date formatting. `FormatDate` takes the formatter as a parameter.
- Floating-point display maths on the dashboard: progress colours, widths, quota bar and company percentages.
- The dashboard's data fetch, its loading and error screens, and its chart date labels.
- HTML safety of the highlighted template body.
- Unicode case mapping. Case folding is ASCII only.
- General regex semantics. Each regex the pages use is a hand-written predicate or scanner.
- Substitution.ReplaceTemplateVariables: only for keys without regex metacharacters or surrounding whitespace, and values without `$`. Other keys and values change the pattern or the replacement text in ways the model does not cover.
- The lists fetched by the wizard's steps: companies, contacts by company, templates. They enter as parameters (`available`, `templates`).
- The template editor's AI hand-over effect (src/pages/Templates/TemplateForm.jsx:21-33) and its fetch-by-id fallback (:62-85).
- The contact editor's hydration from navigation state (src/pages/Hrs/CreateOrEditHr.jsx:31-44) and its fetch fallback (:47-72).
- The recent-campaigns "view" handler (src/pages/Campaign/Campaigns.jsx:43-46). The button that would call it is commented out in RecentCampaigns.jsx, so it is unreachable.
- The `!campaign` guard of the send popup. The popup reads `campaign.hrList` while rendering, so the guard can never fire.
- JsObject.Get: keys are assumed not to be integer-like ("0", "12") and not to be names inherited from `Object.prototype` (`constructor`, `toString`). JavaScript lists integer-like keys first, in ascending order, and reads inherited names as present; the model keeps insertion order for every key and sees only own entries.
- Entities.Lookup: a pair list reads as having no string-named members. In JavaScript an array answers index keys ("0") with its pair object and `length` with a number, so a template declaring such a key would make the placeholder check throw.
- Wizard.CampaignStepper.SetCompany: clearing the company select can store `undefined` in the source; the model stores a string.
- ExistingCampaigns.FieldMatches: a missing name, company or template name counts as a non-match. The source would throw on a missing name or company, and on a template that is present but has no name (`?.` guards only a missing template).
- HrsPage.FieldMatches: a missing name, email or company counts as a non-match. The source would throw.
- Wizard.CampaignStepper.SaveSettled: the error text uses the editing flag at settle time. The two agree, because nothing changes that flag while a save is in flight.
- The review step's "Not provided" name fallback and its "ready to be sent" line are rendering only.
- The admin-only visibility of the template form's global checkbox. `HandleGlobalChange` models the handler itself.
- The "Send Now" disabled predicate of the wizard prompt: it is stated as `SendNowDisabled` with no separate lemma.
- Counts such as contact counts and dashboard totals are `nat`. The server's JSON numbers are assumed to be non-negative integers.
