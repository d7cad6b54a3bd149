/** The wizard's third step: a value for every placeholder the selected
    template declares. On entry the step reconciles the draft's values with
    the template's keys; each edit updates the local values and the local
    error messages, and the local values are copied back into the draft. */
module Step3Placeholders {
  import opened Wrappers
  import opened Text
  import opened JsObject
  import opened Entities
  import opened Step2Template

  /** The draft's values as an object: a pair list is reduced with later pairs
      overwriting earlier ones, an object is copied. */
  function Existing(pv: PlaceholderValues): Entries {
    match pv
    case Pairs(l) => FromPairs(l)
    case Object(es) => es
  }

  /** Both lists hold the same keys (compared as sets, as the two `every` calls do). */
  predicate SameKeySet(a: seq<string>, b: seq<string>) {
    (forall k :: k in a ==> k in b) && (forall k :: k in b ==> k in a)
  }

  /** The local values after the reconciliation effect. */
  function ReconcileValues(selected: Option<Template>, pv: PlaceholderValues): Entries {
    match selected
    case None => []
    case Some(t) =>
      var keys := DeclaredKeys(t);
      var existing := Existing(pv);
      if SameKeySet(keys, Keys(existing)) then existing
      else FromPairs(BlankEntries(keys))
  }

  lemma FromPairsKeys(pairs: Entries, k: string)
    ensures HasKey(FromPairs(pairs), k) <==> exists i :: 0 <= i < |pairs| && pairs[i].key == k
  {
    FromPairsLastWins(pairs, k);
  }

  lemma BlankKeys(keys: seq<string>, k: string)
    ensures HasKey(FromPairs(BlankEntries(keys)), k) <==> k in keys
    ensures forall e :: e in FromPairs(BlankEntries(keys)) ==> e.value == ""
  {
    var b := BlankEntries(keys);
    FromPairsKeys(b, k);
    if k in keys {
      var i :| 0 <= i < |keys| && keys[i] == k;
      assert b[i].key == k;
    }
    forall e | e in FromPairs(b) ensures e.value == "" {
      GetOfEntry(FromPairs(b), e);
      FromPairsLastWins(b, e.key);
    }
  }

  /** After reconciliation the values hold exactly the template's keys (none
      without a template); existing values survive only when their keys are
      the template's keys, otherwise every value is the empty string. */
  lemma ReconcileSpec(selected: Option<Template>, pv: PlaceholderValues, k: string)
    ensures selected.None? ==> ReconcileValues(selected, pv) == []
    ensures selected.Some? ==> (HasKey(ReconcileValues(selected, pv), k) <==> k in DeclaredKeys(selected.value))
    ensures selected.Some? && SameKeySet(DeclaredKeys(selected.value), Keys(Existing(pv))) ==>
      ReconcileValues(selected, pv) == Existing(pv)
    ensures selected.Some? && !SameKeySet(DeclaredKeys(selected.value), Keys(Existing(pv))) ==>
      forall e :: e in ReconcileValues(selected, pv) ==> e.value == ""
  {
    if selected.Some? {
      BlankKeys(DeclaredKeys(selected.value), k);
    }
  }

  /** Reconciling the values loaded with a campaign keeps them when the
      template's keys are exactly the stored keys, the last stored value of a
      key winning. */
  lemma LoadedValuesSurvive(t: Template, pairs: seq<Entry>, k: string)
    requires SameKeySet(DeclaredKeys(t), Keys(FromPairs(pairs)))
    ensures Get(ReconcileValues(Some(t), Pairs(pairs)), k) == LastValue(pairs, k)
  {
    FromPairsLastWins(pairs, k);
  }

  /** Because choosing a template empties the values, the values the step
      starts from after a template choice are all empty unless the template
      declares no keys. */
  lemma TemplateChangeResetsValues(d: Draft, templates: seq<Template>, selectedId: string)
    ensures var d' := SelectTemplate(d, templates, selectedId);
      forall e :: e in ReconcileValues(d'.selectedTemplate, d'.placeholders) ==> e.value == ""
  {
    var d' := SelectTemplate(d, templates, selectedId);
    if d'.selectedTemplate.Some? {
      BlankKeys(DeclaredKeys(d'.selectedTemplate.value), "");
    }
  }

  const RequiredMessage := "This field is required"

  /** The step's local state: the values object and the per-key error messages. */
  class PlaceholderForm {
    var values: Entries
    var errors: map<string, string>

    constructor ()
      ensures values == [] && errors == map[]
    {
      values := [];
      errors := map[];
    }

    /** The reconciliation effect. */
    method Reconcile(selected: Option<Template>, pv: PlaceholderValues)
      modifies this
      ensures values == ReconcileValues(selected, pv)
      ensures errors == old(errors)
    {
      values := ReconcileValues(selected, pv);
    }

    /** `handleChange(key, value)`: stores the raw value and records or clears
        that key's error. */
    method HandleChange(key: string, value: string)
      modifies this
      ensures values == Put(old(values), key, value)
      ensures errors == if IsBlank(value) then old(errors)[key := RequiredMessage] else old(errors) - {key}
    {
      values := Put(values, key, value);
      TrimEmptyIffBlank(value);
      if Trim(value) == "" {
        errors := errors[key := RequiredMessage];
      } else {
        errors := errors - {key};
      }
    }
  }

  /** An edit changes that key's value and error only: every other key reads
      and reports as before. */
  lemma HandleChangeLocal(values: Entries, errors: map<string, string>, key: string, value: string, other: string)
    requires other != key
    ensures Get(Put(values, key, value), key) == Some(value)
    ensures Get(Put(values, key, value), other) == Get(values, other)
    ensures var errors' := if IsBlank(value) then errors[key := RequiredMessage] else errors - {key};
      && (other in errors' <==> other in errors)
      && (other in errors ==> errors'[other] == errors[other])
      && (IsBlank(value) <==> key in errors')
  {
    PutGet(values, key, value, other);
  }
}
