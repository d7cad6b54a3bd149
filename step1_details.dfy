/** The wizard's first step: campaign name, company and the recipient list.
    The contact lists shown beside the recipient list are pure filters over
    the contacts fetched for the chosen company. */
module Step1Details {
  import opened Wrappers
  import opened Seqs
  import opened Entities

  // Normalising the recipient list

  predicate AllIds(l: seq<HrEntry>) {
    forall i :: 0 <= i < |l| ==> l[i].HrId?
  }

  /** `hrList.map(hr => typeof hr === "string" ? hr : hr._id)` */
  function IdList(l: seq<HrEntry>): (r: seq<HrEntry>)
    ensures |r| == |l|
    ensures forall i :: 0 <= i < |l| ==> r[i] == HrId(EntryId(l[i]))
    ensures AllIds(r)
  {
    if l == [] then [] else [HrId(EntryId(l[0]))] + IdList(l[1..])
  }

  /** The list after the normalisation effect: written back only when it is
      non-empty and differs from its id form. */
  function Normalize(l: seq<HrEntry>): seq<HrEntry> {
    if |l| > 0 && IdList(l) != l then IdList(l) else l
  }

  lemma IdListOfIds(l: seq<HrEntry>)
    requires AllIds(l)
    ensures IdList(l) == l
  {
    assert forall i :: 0 <= i < |l| ==> IdList(l)[i] == l[i];
  }

  /** Normalising replaces every object by its id and keeps every id; it leaves
      a list unchanged exactly when the list holds only ids; and a second run
      changes nothing. */
  lemma NormalizeSpec(l: seq<HrEntry>)
    ensures Normalize(l) == IdList(l)
    ensures Normalize(l) == l <==> AllIds(l)
    ensures Normalize(Normalize(l)) == Normalize(l)
  {
    if AllIds(l) {
      IdListOfIds(l);
    }
    IdListOfIds(IdList(l));
  }

  // Adding and removing recipients

  /** `hrList.filter(hrId => hrId !== id)`; whole contact objects never equal a string. */
  function Without(l: seq<HrEntry>, id: string): seq<HrEntry> {
    Filter(l, (e: HrEntry) => e != HrId(id))
  }

  /** Removal drops every occurrence of the id, keeps every other entry, and
      keeps the remaining entries in their order. */
  lemma WithoutSpec(l: seq<HrEntry>, id: string, e: HrEntry)
    ensures HrId(id) !in Without(l, id)
    ensures e in Without(l, id) <==> e in l && e != HrId(id)
    ensures IsSubsequence(Without(l, id), l)
  {
    FilterMembership(l, (e: HrEntry) => e != HrId(id), e);
    FilterMembership(l, (e: HrEntry) => e != HrId(id), HrId(id));
    FilterIsSubsequence(l, (e: HrEntry) => e != HrId(id));
  }

  /** Removing an id that was just added undoes the addition when the id was
      not selected before. */
  lemma AddThenRemove(l: seq<HrEntry>, id: string)
    requires HrId(id) !in l
    ensures Without(l + [HrId(id)], id) == l
  {
    FilterAppend(l, [HrId(id)], (e: HrEntry) => e != HrId(id));
    FilterAll(l, (e: HrEntry) => e != HrId(id));
  }

  // The contact lists beside the recipient list

  /** `hrList.includes(hr._id)` */
  predicate IsSelected(hrList: seq<HrEntry>, hr: HrContact) {
    HrId(hr.id) in hrList
  }

  /** `selectedHrs`: the fetched contacts whose id is in the recipient list. */
  function SelectedHrs(available: seq<HrContact>, hrList: seq<HrEntry>): seq<HrContact> {
    Filter(available, (hr: HrContact) => IsSelected(hrList, hr))
  }

  /** The verification filter of the contact list. */
  predicate PassesVerification(hr: HrContact, hrFilter: string) {
    if hrFilter == "verified" then hr.isVerified
    else if hrFilter == "unverified" then !hr.isVerified
    else true
  }

  /** `filteredAvailableHrs` */
  function FilteredAvailable(available: seq<HrContact>, hrList: seq<HrEntry>, hrFilter: string): seq<HrContact> {
    Filter(available, (hr: HrContact) => !IsSelected(hrList, hr) && PassesVerification(hr, hrFilter))
  }

  function GlobalHrs(filtered: seq<HrContact>): seq<HrContact> {
    Filter(filtered, (hr: HrContact) => hr.isGlobal)
  }

  function UserHrs(filtered: seq<HrContact>): seq<HrContact> {
    Filter(filtered, (hr: HrContact) => !hr.isGlobal)
  }

  /** The selected list is the fetched contacts in the recipient list, in the
      fetched order. */
  lemma SelectedSpec(available: seq<HrContact>, hrList: seq<HrEntry>, hr: HrContact)
    ensures hr in SelectedHrs(available, hrList) <==> hr in available && IsSelected(hrList, hr)
    ensures IsSubsequence(SelectedHrs(available, hrList), available)
  {
    FilterMembership(available, (hr: HrContact) => IsSelected(hrList, hr), hr);
    FilterIsSubsequence(available, (hr: HrContact) => IsSelected(hrList, hr));
  }

  /** The available list never offers a selected contact; "verified" and
      "unverified" keep exactly the contacts with that flag, and any other
      filter keeps every unselected contact. */
  lemma FilteredAvailableSpec(available: seq<HrContact>, hrList: seq<HrEntry>, hrFilter: string, hr: HrContact)
    ensures hr in FilteredAvailable(available, hrList, hrFilter) <==>
      && hr in available
      && !IsSelected(hrList, hr)
      && (hrFilter == "verified" ==> hr.isVerified)
      && (hrFilter == "unverified" ==> !hr.isVerified)
    ensures hr !in FilteredAvailable(available, hrList, hrFilter) || hr !in SelectedHrs(available, hrList)
  {
    FilterMembership(available, (hr: HrContact) => !IsSelected(hrList, hr) && PassesVerification(hr, hrFilter), hr);
    FilterMembership(available, (hr: HrContact) => IsSelected(hrList, hr), hr);
  }

  /** The global and the user-added lists split the available list by scope:
      together they hold each available contact exactly as often as it is listed. */
  lemma ScopePartition(filtered: seq<HrContact>, hr: HrContact)
    ensures multiset(GlobalHrs(filtered)) + multiset(UserHrs(filtered)) == multiset(filtered)
    ensures hr in GlobalHrs(filtered) ==> hr.isGlobal
    ensures hr in UserHrs(filtered) ==> !hr.isGlobal
  {
    var p := (hr: HrContact) => hr.isGlobal;
    FilterPartition(filtered, p, (hr: HrContact) => !hr.isGlobal);
    FilterMembership(filtered, p, hr);
    FilterMembership(filtered, (hr: HrContact) => !hr.isGlobal, hr);
  }
}
