/** The wizard's second step: choosing the template. */
module Step2Template {
  import opened Wrappers
  import opened Text
  import opened Seqs
  import opened JsObject
  import opened Entities

  /** `templates.find(tpl => tpl._id === id)` */
  function FindTemplate(templates: seq<Template>, id: string): Option<Template> {
    Find(templates, (t: Template) => t.id == id)
  }

  /** The draft after `handleSelectTemplate`: the chosen id, the listed template
      with that id (or none), and the placeholder values reset to `{}`. Choosing
      the "-- Select Template --" option chooses the empty id. */
  function SelectTemplate(d: Draft, templates: seq<Template>, selectedId: string): Draft {
    d.(template := selectedId,
       selectedTemplate := FindTemplate(templates, selectedId),
       placeholders := Object([]))
  }

  /** The draft after the sync effect: once the list is loaded, a non-empty
      template id pulls in the listed template with that id. */
  function SyncSelected(d: Draft, templates: seq<Template>): Draft {
    if d.template != "" && |templates| > 0 then
      match FindTemplate(templates, d.template)
      case Some(t) => d.(selectedTemplate := Some(t))
      case None => d
    else d
  }

  /** The draft records the chosen id; a selected template carries that id and
      is the first listed template with it; no template is selected exactly when
      none has the id; after the selection no placeholder has a value; the name,
      company and recipients stay as they were. */
  lemma SelectTemplateSpec(d: Draft, templates: seq<Template>, selectedId: string)
    ensures var d' := SelectTemplate(d, templates, selectedId);
      && d'.template == selectedId
      && (d'.selectedTemplate.Some? ==> d'.selectedTemplate.value.id == selectedId && d'.selectedTemplate.value in templates)
      && (d'.selectedTemplate.Some? ==>
            exists i :: 0 <= i < |templates| && templates[i] == d'.selectedTemplate.value
              && forall j :: 0 <= j < i ==> templates[j].id != selectedId)
      && (d'.selectedTemplate.None? <==> forall t :: t in templates ==> t.id != selectedId)
      && (forall k :: Lookup(d'.placeholders, k) == None)
      && d'.campaignName == d.campaignName && d'.company == d.company && d'.hrList == d.hrList
  {
    FindFirst(templates, (t: Template) => t.id == selectedId);
  }

  /** The sync only ever touches `selectedTemplate`, and only to install a listed
      template whose id is the draft's template id. */
  lemma SyncSelectedSpec(d: Draft, templates: seq<Template>)
    ensures var d' := SyncSelected(d, templates);
      && d' == d.(selectedTemplate := d'.selectedTemplate)
      && (d'.selectedTemplate != d.selectedTemplate ==>
            d'.selectedTemplate.Some? && d'.selectedTemplate.value.id == d.template && d'.selectedTemplate.value in templates)
    ensures d.template == "" || templates == [] || FindTemplate(templates, d.template).None? ==> SyncSelected(d, templates) == d
  {
  }

  /** Syncing right after a selection changes nothing, and syncing twice is
      syncing once. */
  lemma SyncAfterSelect(d: Draft, templates: seq<Template>, selectedId: string)
    ensures SyncSelected(SelectTemplate(d, templates, selectedId), templates) == SelectTemplate(d, templates, selectedId)
    ensures SyncSelected(SyncSelected(d, templates), templates) == SyncSelected(d, templates)
  {
  }
}
