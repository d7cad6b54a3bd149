/** The campaign wizard: four steps (details, template, placeholders,
    review) over one draft, a per-step validity check that gates moving on,
    and the save-then-send flow of the last step. */
module Wizard {
  import opened Wrappers
  import opened Text
  import opened JsObject
  import opened Entities
  import opened Effects
  import opened Quota
  import opened Step1Details
  import opened Step2Template
  import opened Step3Placeholders

  const StepCount := 4

  // Step validity

  /** `placeholders[key] && placeholders[key].trim() !== ""` */
  predicate Filled(v: Option<string>) {
    Truthy(v) && !IsBlank(v.value)
  }

  /** `validateStep()` for the given step. */
  predicate StepValid(d: Draft, step: nat) {
    if step == 0 then
      !IsBlank(d.campaignName) && !IsBlank(d.company) && |d.hrList| > 0
    else if step == 1 then
      !IsBlank(d.template)
    else if step == 2 then
      && d.selectedTemplate.Some?
      && var keys := DeclaredKeys(d.selectedTemplate.value);
         |keys| == 0 || forall k :: k in keys ==> Filled(Lookup(d.placeholders, k))
    else true
  }

  /** The details step may be left exactly when the name and the company hold
      a character that is not whitespace and at least one recipient is chosen;
      the review step may always be left. */
  lemma DetailsStepValid(d: Draft)
    ensures StepValid(d, 0) <==> Trim(d.campaignName) != "" && Trim(d.company) != "" && d.hrList != []
    ensures forall step: nat :: step >= 3 ==> StepValid(d, step)
  {
    TrimEmptyIffBlank(d.campaignName);
    TrimEmptyIffBlank(d.company);
  }

  /** The placeholder step cannot be left without a template; a template
      without placeholders lets it be left at once, and otherwise a key
      without a value blocks it. */
  lemma PlaceholderStepValid(d: Draft, k: string)
    ensures d.selectedTemplate.None? ==> !StepValid(d, 2)
    ensures d.selectedTemplate.Some? && DeclaredKeys(d.selectedTemplate.value) == [] ==> StepValid(d, 2)
    ensures d.selectedTemplate.Some? && k in DeclaredKeys(d.selectedTemplate.value) && !Filled(Lookup(d.placeholders, k))
      ==> !StepValid(d, 2)
  {
  }

  /** Choosing a template that declares placeholders blocks the placeholder
      step until values are typed in: the values the step reconciles to after
      the choice are all empty. */
  lemma TemplateChoiceBlocksPlaceholderStep(d: Draft, templates: seq<Template>, id: string, t: Template)
    requires FindTemplate(templates, id) == Some(t)
    ensures var d1 := SelectTemplate(d, templates, id);
      var d2 := d1.(placeholders := Object(ReconcileValues(d1.selectedTemplate, d1.placeholders)));
      StepValid(d2, 2) <==> DeclaredKeys(t) == []
  {
    var d1 := SelectTemplate(d, templates, id);
    assert d1.selectedTemplate == Some(t);
    var values := ReconcileValues(Some(t), Object([]));
    var d2 := d1.(placeholders := Object(values));
    var keys := DeclaredKeys(t);
    if keys != [] {
      BlankStepBlocked(t, keys[0]);
      assert !Filled(Lookup(d2.placeholders, keys[0]));
    }
  }

  /** A template with a declared key reconciled from no values leaves that
      key unfilled. */
  lemma BlankStepBlocked(t: Template, k: string)
    requires k in DeclaredKeys(t)
    ensures !Filled(Get(ReconcileValues(Some(t), Object([])), k))
  {
    var keys := DeclaredKeys(t);
    var values := FromPairs(BlankEntries(keys));
    assert !SameKeySet(keys, Keys([])) by { assert k in keys; }
    assert ReconcileValues(Some(t), Object([])) == values;
    BlankKeys(keys, k);
    var v := Get(values, k);
    assert Entry(k, v.value) in values;
  }

  // The save request

  /** A value of the payload's placeholder list: `Object.entries` of an object
      pairs each key with its string value, of an array pairs each index with
      the `{key, value}` element stored there. */
  datatype PayloadValue = StringValue(s: string) | PairValue(pair: Entry)

  datatype PayloadPair = PayloadPair(key: string, value: PayloadValue)

  /** `Object.entries(placeholders || {}).map(([key, value]) => ({key, value}))` */
  function PayloadPlaceholders(pv: PlaceholderValues): seq<PayloadPair> {
    match pv
    case Object(es) => seq(|es|, i requires 0 <= i < |es| => PayloadPair(es[i].key, StringValue(es[i].value)))
    case Pairs(l) => seq(|l|, i requires 0 <= i < |l| => PayloadPair(Decimal(i), PairValue(l[i])))
  }

  /** The `{key, value}` list the server stores, when every value is a string. */
  function StoredPairs(payload: seq<PayloadPair>): (r: Option<Entries>)
    ensures r.Some? ==> |r.value| == |payload|
  {
    if payload == [] then Some([])
    else
      match (payload[0].value, StoredPairs(payload[1..]))
      case (StringValue(s), Some(rest)) => Some([Entry(payload[0].key, s)] + rest)
      case _ => None
  }

  /** The values of the placeholder step survive a save and a later reload for
      editing: the stored pair list holds one pair per entry in entry order,
      and folding it back gives the same object. */
  lemma {:induction false} SaveThenReload(es: Entries)
    requires DistinctKeys(es)
    ensures StoredPairs(PayloadPlaceholders(Object(es))) == Some(es)
    ensures Existing(Pairs(es)) == es
  {
    StoredObjectPairs(es);
    FromPairsOfDistinct(es);
  }

  lemma {:induction false} StoredObjectPairs(es: Entries)
    ensures StoredPairs(PayloadPlaceholders(Object(es))) == Some(es)
  {
    var p := PayloadPlaceholders(Object(es));
    if es != [] {
      StoredObjectPairs(es[1..]);
      assert p[1..] == PayloadPlaceholders(Object(es[1..]));
      assert [Entry(p[0].key, es[0].value)] + es[1..] == es;
    }
  }

  datatype StepperBody =
    | CampaignPayload(
        campaignName: string,
        company: string,
        hrList: seq<HrEntry>,
        template: string,
        placeholders: seq<PayloadPair>)
    | NoBody

  /** `isEditing && campaignToEdit?._id` */
  predicate UpdatesExisting(isEditing: bool, campaignToEdit: Option<Campaign>) {
    isEditing && campaignToEdit.Some? && Truthy(campaignToEdit.value.id)
  }

  /** The request the save issues: an update of the edited campaign when it
      has an id, a creation otherwise. */
  function SaveRequest(isEditing: bool, campaignToEdit: Option<Campaign>, d: Draft): Request<StepperBody> {
    var body := CampaignPayload(d.campaignName, d.company, d.hrList, d.template, PayloadPlaceholders(d.placeholders));
    if UpdatesExisting(isEditing, campaignToEdit) then
      Request(PUT, "campaigns/" + campaignToEdit.value.id.value, body)
    else
      Request(POST, "campaigns/", body)
  }

  /** Updates go to the campaign's own path and creations to the collection;
      the payload carries the draft's fields unchanged. */
  lemma SaveRequestSpec(isEditing: bool, campaignToEdit: Option<Campaign>, d: Draft)
    ensures var r := SaveRequest(isEditing, campaignToEdit, d);
      && (r.verb == PUT <==> UpdatesExisting(isEditing, campaignToEdit))
      && (r.verb == PUT ==> r.path == "campaigns/" + campaignToEdit.value.id.value && |r.path| > |"campaigns/"|)
      && (r.verb == POST ==> r.path == "campaigns/")
      && r.body.campaignName == d.campaignName && r.body.company == d.company
      && r.body.hrList == d.hrList && r.body.template == d.template
  {
  }

  /** `data._id || campaignToEdit._id` after an update, `data._id` after a creation. */
  function SavedId(updates: bool, campaignToEdit: Option<Campaign>, responseId: Option<string>): Option<string>
    requires updates ==> campaignToEdit.Some?
  {
    if updates then (if Truthy(responseId) then responseId else campaignToEdit.value.id)
    else responseId
  }

  /** After an update there is always an id to send; after a creation only
      when the server answered with one. */
  lemma SavedIdSpec(isEditing: bool, campaignToEdit: Option<Campaign>, responseId: Option<string>)
    ensures UpdatesExisting(isEditing, campaignToEdit) ==>
      Truthy(SavedId(true, campaignToEdit, responseId))
    ensures !UpdatesExisting(isEditing, campaignToEdit) ==>
      SavedId(false, campaignToEdit, responseId) == responseId
  {
  }

  function SaveQuotaMessage(remaining: int): string {
    "You can only send " + IntToString(remaining) + " more emails today. Please choose fewer HRs."
  }

  function SendQuotaMessage(remaining: int): string {
    "You only have " + IntToString(remaining) + " emails left today. Please choose fewer HRs."
  }

  function SaveErrorMessage(isEditing: bool): string {
    "Error " + (if isEditing then "updating" else "creating") + " campaign. Please try again."
  }

  const SentMessage := "Campaign sent successfully!"
  const SendFailedMessage := "Failed to send campaign, try again later."

  /** The answer to the save request: the saved campaign's `_id`, if any, or a failure. */
  datatype SaveOutcome = Saved(responseId: Option<string>) | SaveFailed

  /** `{0: true, 1: true, 2: true, 3: true}` */
  const AllSteps: set<nat> := {0, 1, 2, 3}

  /** The draft loaded from the campaign being edited, each missing field
      replaced by its empty form. */
  function EditDraft(c: Campaign): Draft {
    Draft(
      campaignName := c.campaignName.GetOr(""),
      company := c.company.GetOr(""),
      hrList := c.hrList.GetOr([]),
      template := if c.template.Some? then c.template.value.id else "",
      selectedTemplate := c.template,
      placeholders := if c.placeholders.Some? then Pairs(c.placeholders.value) else Object([]))
  }

  class CampaignStepper {
    const campaignToEdit: Option<Campaign>
    var currentStep: nat
    var isEditing: bool
    var completedSteps: set<nat>
    var showSendPrompt: bool
    var savedCampaignId: Option<string>
    var isSaving: bool
    var isSending: bool
    var emailLimit: Option<EmailLimit>
    var formData: Draft
    /** Every `apiService` call, in order. */
    var requests: seq<Request<StepperBody>>
    var toasts: seq<Toast>
    /** Whether `onCancel` has been called, handing control back to the page. */
    var exited: bool

    /** The step is one of the four and only real steps are ever completed. */
    predicate Valid()
      reads this
    {
      currentStep < StepCount && completedSteps <= AllSteps
    }

    /** `CanProceed` as passed to the button bar. */
    predicate CanProceed()
      reads this
    {
      StepValid(formData, currentStep)
    }

    /** The disabled condition of the prompt's "Send Now" button. */
    predicate SendNowDisabled()
      reads this
    {
      isSending || ExceedsLimit(emailLimit, |formData.hrList|)
    }

    constructor (campaignToEdit: Option<Campaign>)
      ensures Valid()
      ensures this.campaignToEdit == campaignToEdit
      ensures currentStep == 0 && !isEditing && completedSteps == {}
      ensures !showSendPrompt && savedCampaignId == None && !isSaving && !isSending
      ensures emailLimit == None && formData == EmptyDraft
      ensures requests == [] && toasts == [] && !exited
    {
      this.campaignToEdit := campaignToEdit;
      currentStep := 0;
      isEditing := false;
      completedSteps := {};
      showSendPrompt := false;
      savedCampaignId := None;
      isSaving := false;
      isSending := false;
      emailLimit := None;
      formData := EmptyDraft;
      requests := [];
      toasts := [];
      exited := false;
    }

    /** The mount effect fetching the daily quota; a failure is only logged. */
    method LoadEmailLimit(result: FetchResult<EmailLimit>)
      modifies this
      ensures requests == old(requests) + [Request(GET, "campaigns/email-limit", NoBody)]
      ensures emailLimit == if result.Loaded? then result.data else old(emailLimit)
      ensures currentStep == old(currentStep) && completedSteps == old(completedSteps)
      ensures isEditing == old(isEditing) && formData == old(formData) && toasts == old(toasts)
      ensures isSaving == old(isSaving) && isSending == old(isSending) && showSendPrompt == old(showSendPrompt)
      ensures savedCampaignId == old(savedCampaignId) && exited == old(exited)
    {
      requests := requests + [Request(GET, "campaigns/email-limit", NoBody)];
      if result.Loaded? {
        emailLimit := result.data;
      }
    }

    /** The edit effect: with a campaign to edit, switch to editing, load its
        fields into the draft and mark every step completed. */
    method HydrateForEdit()
      requires Valid()
      modifies this
      ensures Valid()
      ensures campaignToEdit.Some? ==>
        isEditing && formData == EditDraft(campaignToEdit.value) && completedSteps == AllSteps
      ensures campaignToEdit.None? ==>
        isEditing == old(isEditing) && formData == old(formData) && completedSteps == old(completedSteps)
      ensures currentStep == old(currentStep) && requests == old(requests) && toasts == old(toasts)
      ensures isSaving == old(isSaving) && isSending == old(isSending) && showSendPrompt == old(showSendPrompt)
      ensures savedCampaignId == old(savedCampaignId) && emailLimit == old(emailLimit) && exited == old(exited)
    {
      if campaignToEdit.Some? {
        isEditing := true;
        formData := EditDraft(campaignToEdit.value);
        completedSteps := AllSteps;
      }
    }

    /** `handleNext`: only a valid step is marked completed and left, and then
        for exactly the next one. */
    method Next()
      requires Valid() && currentStep < StepCount - 1
      modifies this
      ensures Valid()
      ensures StepValid(old(formData), old(currentStep)) ==>
        currentStep == old(currentStep) + 1 && completedSteps == old(completedSteps) + {old(currentStep)}
      ensures !StepValid(old(formData), old(currentStep)) ==>
        currentStep == old(currentStep) && completedSteps == old(completedSteps)
      ensures formData == old(formData) && isEditing == old(isEditing) && requests == old(requests) && toasts == old(toasts)
      ensures isSaving == old(isSaving) && isSending == old(isSending) && showSendPrompt == old(showSendPrompt)
      ensures savedCampaignId == old(savedCampaignId) && emailLimit == old(emailLimit) && exited == old(exited)
    {
      if StepValid(formData, currentStep) {
        completedSteps := completedSteps + {currentStep};
        currentStep := currentStep + 1;
      }
    }

    /** `handlePrev`: one step back, completed steps untouched. */
    method Prev()
      requires Valid() && currentStep > 0
      modifies this
      ensures Valid()
      ensures currentStep == old(currentStep) - 1 && completedSteps == old(completedSteps)
      ensures formData == old(formData) && isEditing == old(isEditing) && requests == old(requests) && toasts == old(toasts)
      ensures isSaving == old(isSaving) && isSending == old(isSending) && showSendPrompt == old(showSendPrompt)
      ensures savedCampaignId == old(savedCampaignId) && emailLimit == old(emailLimit) && exited == old(exited)
    {
      currentStep := currentStep - 1;
    }

    /** The button bar's Cancel, enabled only while no save is in flight. */
    method Cancel()
      requires !isSaving
      modifies this
      ensures exited
      ensures currentStep == old(currentStep) && completedSteps == old(completedSteps)
      ensures formData == old(formData) && isEditing == old(isEditing) && requests == old(requests) && toasts == old(toasts)
      ensures isSaving == old(isSaving) && isSending == old(isSending) && showSendPrompt == old(showSendPrompt)
      ensures savedCampaignId == old(savedCampaignId) && emailLimit == old(emailLimit)
    {
      exited := true;
    }

    /** The first half of `handleSaveCampaign`, up to the awaited request: an
        invalid step does nothing, a recipient list over a loaded quota only
        raises an error, and otherwise the save starts and its request is
        issued. */
    method Save()
      requires !isSaving
      modifies this
      ensures !StepValid(old(formData), old(currentStep)) ==>
        !isSaving && requests == old(requests) && toasts == old(toasts)
      ensures StepValid(old(formData), old(currentStep)) && ExceedsLimit(emailLimit, |formData.hrList|) ==>
        !isSaving && requests == old(requests) && toasts == old(toasts) + [ToastError(SaveQuotaMessage(emailLimit.value.remainingLimit))]
      ensures StepValid(old(formData), old(currentStep)) && !ExceedsLimit(emailLimit, |formData.hrList|) ==>
        isSaving && requests == old(requests) + [SaveRequest(isEditing, campaignToEdit, formData)] && toasts == old(toasts)
      ensures currentStep == old(currentStep) && completedSteps == old(completedSteps)
      ensures formData == old(formData) && isEditing == old(isEditing)
      ensures isSending == old(isSending) && showSendPrompt == old(showSendPrompt)
      ensures savedCampaignId == old(savedCampaignId) && emailLimit == old(emailLimit) && exited == old(exited)
    {
      if !StepValid(formData, currentStep) {
        return;
      }
      if ExceedsLimit(emailLimit, |formData.hrList|) {
        toasts := toasts + [ToastError(SaveQuotaMessage(emailLimit.value.remainingLimit))];
        return;
      }
      isSaving := true;
      requests := requests + [SaveRequest(isEditing, campaignToEdit, formData)];
    }

    /** The second half of `handleSaveCampaign`, once the request settles: a
        success records the campaign's id and opens the send prompt, a failure
        raises an error; either way the save is over. */
    method SaveSettled(outcome: SaveOutcome)
      requires isSaving
      modifies this
      ensures !isSaving
      ensures outcome.Saved? ==>
        && savedCampaignId == SavedId(UpdatesExisting(isEditing, campaignToEdit), campaignToEdit, outcome.responseId)
        && showSendPrompt && toasts == old(toasts)
      ensures outcome.SaveFailed? ==>
        && savedCampaignId == old(savedCampaignId) && showSendPrompt == old(showSendPrompt)
        && toasts == old(toasts) + [ToastError(SaveErrorMessage(isEditing))]
      ensures currentStep == old(currentStep) && completedSteps == old(completedSteps)
      ensures formData == old(formData) && isEditing == old(isEditing) && requests == old(requests)
      ensures isSending == old(isSending) && emailLimit == old(emailLimit) && exited == old(exited)
    {
      isSaving := false;
      match outcome
      case Saved(responseId) =>
        savedCampaignId := SavedId(UpdatesExisting(isEditing, campaignToEdit), campaignToEdit, responseId);
        showSendPrompt := true;
      case SaveFailed =>
        toasts := toasts + [ToastError(SaveErrorMessage(isEditing))];
    }

    /** The first half of `handleSendNow`: nothing without a saved id or while
        a send is in flight, only an error over a loaded quota, and otherwise
        the send starts and its request is issued. */
    method SendNow()
      modifies this
      ensures !Truthy(old(savedCampaignId)) || old(isSending) ==>
        isSending == old(isSending) && requests == old(requests) && toasts == old(toasts)
      ensures Truthy(old(savedCampaignId)) && !old(isSending) && ExceedsLimit(emailLimit, |formData.hrList|) ==>
        !isSending && requests == old(requests) && toasts == old(toasts) + [ToastError(SendQuotaMessage(emailLimit.value.remainingLimit))]
      ensures Truthy(old(savedCampaignId)) && !old(isSending) && !ExceedsLimit(emailLimit, |formData.hrList|) ==>
        isSending && toasts == old(toasts)
        && requests == old(requests) + [Request(POST, "campaigns/" + old(savedCampaignId).value + "/send", NoBody)]
      ensures currentStep == old(currentStep) && completedSteps == old(completedSteps)
      ensures formData == old(formData) && isEditing == old(isEditing) && isSaving == old(isSaving)
      ensures showSendPrompt == old(showSendPrompt) && savedCampaignId == old(savedCampaignId)
      ensures emailLimit == old(emailLimit) && exited == old(exited)
    {
      if !Truthy(savedCampaignId) || isSending {
        return;
      }
      if ExceedsLimit(emailLimit, |formData.hrList|) {
        toasts := toasts + [ToastError(SendQuotaMessage(emailLimit.value.remainingLimit))];
        return;
      }
      isSending := true;
      requests := requests + [Request(POST, "campaigns/" + savedCampaignId.value + "/send", NoBody)];
    }

    /** The second half of `handleSendNow`: a success closes the prompt and
        leaves the wizard, a failure only raises an error. */
    method SendSettled(sent: bool)
      requires isSending
      modifies this
      ensures !isSending
      ensures sent ==> toasts == old(toasts) + [ToastSuccess(SentMessage)] && !showSendPrompt && exited
      ensures !sent ==>
        toasts == old(toasts) + [ToastError(SendFailedMessage)] && showSendPrompt == old(showSendPrompt) && exited == old(exited)
      ensures currentStep == old(currentStep) && completedSteps == old(completedSteps)
      ensures formData == old(formData) && isEditing == old(isEditing) && requests == old(requests)
      ensures isSaving == old(isSaving) && savedCampaignId == old(savedCampaignId) && emailLimit == old(emailLimit)
    {
      if sent {
        toasts := toasts + [ToastSuccess(SentMessage)];
        showSendPrompt := false;
        exited := true;
      } else {
        toasts := toasts + [ToastError(SendFailedMessage)];
      }
      isSending := false;
    }

    /** The prompt's "Maybe Later", enabled only while no send is in flight. */
    method MaybeLater()
      requires !isSending
      modifies this
      ensures !showSendPrompt && exited
      ensures currentStep == old(currentStep) && completedSteps == old(completedSteps)
      ensures formData == old(formData) && isEditing == old(isEditing) && requests == old(requests) && toasts == old(toasts)
      ensures isSaving == old(isSaving) && isSending == old(isSending)
      ensures savedCampaignId == old(savedCampaignId) && emailLimit == old(emailLimit)
    {
      showSendPrompt := false;
      exited := true;
    }

    // The steps' writes to the draft

    method SetCampaignName(name: string)
      modifies this`formData
      ensures formData == old(formData).(campaignName := name)
      ensures currentStep == old(currentStep) && completedSteps == old(completedSteps) && requests == old(requests)
    {
      formData := formData.(campaignName := name);
    }

    /** Choosing a company sets the company only; the recipients stay. */
    method SetCompany(company: string)
      modifies this`formData
      ensures formData == old(formData).(company := company)
      ensures formData.hrList == old(formData.hrList)
      ensures currentStep == old(currentStep) && completedSteps == old(completedSteps) && requests == old(requests)
    {
      formData := formData.(company := company);
    }

    /** The recipient-list normalisation effect. */
    method NormalizeHrList()
      modifies this`formData
      ensures formData == old(formData).(hrList := Normalize(old(formData.hrList)))
      ensures AllIds(formData.hrList)
      ensures currentStep == old(currentStep) && completedSteps == old(completedSteps) && requests == old(requests)
    {
      NormalizeSpec(formData.hrList);
      formData := formData.(hrList := Normalize(formData.hrList));
    }

    /** `addHr`: the contact's id goes to the end of the list. */
    method AddHr(hr: HrContact)
      modifies this`formData
      ensures formData == old(formData).(hrList := old(formData.hrList) + [HrId(hr.id)])
      ensures currentStep == old(currentStep) && completedSteps == old(completedSteps) && requests == old(requests)
    {
      formData := formData.(hrList := formData.hrList + [HrId(hr.id)]);
    }

    /** `removeHr`: every occurrence of the id leaves the list. */
    method RemoveHr(id: string)
      modifies this`formData
      ensures formData == old(formData).(hrList := Without(old(formData.hrList), id))
      ensures HrId(id) !in formData.hrList
      ensures currentStep == old(currentStep) && completedSteps == old(completedSteps) && requests == old(requests)
    {
      WithoutSpec(formData.hrList, id, HrId(id));
      formData := formData.(hrList := Without(formData.hrList, id));
    }

    method ClearAllSelected()
      modifies this`formData
      ensures formData == old(formData).(hrList := [])
      ensures currentStep == old(currentStep) && completedSteps == old(completedSteps) && requests == old(requests)
    {
      formData := formData.(hrList := []);
    }

    /** `handleSelectTemplate` of the template step. */
    method ChooseTemplate(templates: seq<Template>, selectedId: string)
      modifies this`formData
      ensures formData == SelectTemplate(old(formData), templates, selectedId)
      ensures formData.placeholders == Object([])
      ensures currentStep == old(currentStep) && completedSteps == old(completedSteps) && requests == old(requests)
    {
      formData := SelectTemplate(formData, templates, selectedId);
    }

    /** The template step's sync effect. */
    method SyncSelectedTemplate(templates: seq<Template>)
      modifies this`formData
      ensures formData == SyncSelected(old(formData), templates)
      ensures formData.placeholders == old(formData.placeholders)
      ensures currentStep == old(currentStep) && completedSteps == old(completedSteps) && requests == old(requests)
    {
      formData := SyncSelected(formData, templates);
    }

    /** The placeholder step's effect copying its local values into the draft. */
    method SyncPlaceholders(values: Entries)
      modifies this`formData
      ensures formData == old(formData).(placeholders := Object(values))
      ensures forall k :: Lookup(formData.placeholders, k) == Get(values, k)
      ensures currentStep == old(currentStep) && completedSteps == old(completedSteps) && requests == old(requests)
    {
      formData := formData.(placeholders := Object(values));
    }
  }
}
