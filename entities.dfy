/** The records the campaign pages work on, as the server sends them and as
    the wizard keeps them in its form state. Fields the server may omit are
    `Option`s; the wizard's own form fields are always present. */
module Entities {
  import opened Wrappers
  import opened JsObject

  /** An HR contact, as listed for a company or on the contacts page. */
  datatype HrContact = HrContact(
    id: string,
    name: Option<string>,
    email: Option<string>,
    company: Option<string>,
    isVerified: bool,
    isGlobal: bool,
    addedBy: Option<string>)

  /** An email template. `placeholders` is the list of names stored with it. */
  datatype Template = Template(
    id: string,
    name: Option<string>,
    subject: string,
    body: Option<string>,
    placeholders: Option<seq<string>>,
    isGlobal: bool,
    createdBy: Option<string>)

  /** `template.placeholders || []` */
  function DeclaredKeys(t: Template): seq<string> {
    t.placeholders.GetOr([])
  }

  /** An entry of a campaign's recipient list: normally a contact id, but a
      campaign fetched for editing may carry whole contact objects. */
  datatype HrEntry = HrId(id: string) | HrObject(objectId: string)

  /** The id an entry stands for (`typeof hr === "string" ? hr : hr._id`). */
  function EntryId(e: HrEntry): string {
    match e
    case HrId(id) => id
    case HrObject(id) => id
  }

  /** A campaign as the server lists it. Placeholder values are stored as a
      list of `{key, value}` pairs. */
  datatype Campaign = Campaign(
    id: Option<string>,
    campaignName: Option<string>,
    company: Option<string>,
    hrList: Option<seq<HrEntry>>,
    template: Option<Template>,
    placeholders: Option<seq<Entry>>,
    status: string,
    createdAt: Option<string>)

  /** The wizard's placeholder values: the server's pair list right after
      loading a campaign for editing, a plain object once the placeholder step
      has taken over. */
  datatype PlaceholderValues = Pairs(pairs: seq<Entry>) | Object(entries: Entries)

  /** `placeholders[key]`: a pair list has no string-named members. */
  function Lookup(pv: PlaceholderValues, key: string): Option<string> {
    match pv
    case Pairs(_) => None
    case Object(es) => Get(es, key)
  }

  /** The wizard's `formData`. */
  datatype Draft = Draft(
    campaignName: string,
    company: string,
    hrList: seq<HrEntry>,
    template: string,
    selectedTemplate: Option<Template>,
    placeholders: PlaceholderValues)

  const EmptyDraft: Draft := Draft("", "", [], "", None, Object([]))

  /** The daily sending quota returned by `campaigns/email-limit`. */
  datatype EmailLimit = EmailLimit(remainingLimit: int, maxLimit: int)

  /** A JavaScript string or `undefined` used as a condition. */
  predicate Truthy(s: Option<string>) {
    s.Some? && s.value != ""
  }
}
