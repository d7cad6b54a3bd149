/** Plain JavaScript objects with string keys and string values, kept as the
    ordered list of their own entries, which is what `Object.entries` and
    `Object.keys` walk: insertion order, one entry per key. Keys are taken to be
    neither integer-like (which JavaScript would list first) nor names
    inherited from `Object.prototype`. */
module JsObject {
  import opened Wrappers

  datatype Entry = Entry(key: string, value: string)

  type Entries = seq<Entry>

  function Keys(es: Entries): (r: seq<string>)
    ensures |r| == |es|
    ensures forall i :: 0 <= i < |es| ==> r[i] == es[i].key
  {
    if es == [] then [] else [es[0].key] + Keys(es[1..])
  }

  /** Every key occurs once, as in a real object. */
  predicate DistinctKeys(es: Entries) {
    forall i, j :: 0 <= i < j < |es| ==> es[i].key != es[j].key
  }

  predicate HasKey(es: Entries, k: string) {
    k in Keys(es)
  }

  /** `obj[k]`, `undefined` when absent. */
  function Get(es: Entries, k: string): (r: Option<string>)
    ensures r.None? <==> !HasKey(es, k)
    ensures r.Some? ==> Entry(k, r.value) in es
  {
    if es == [] then None
    else if es[0].key == k then Some(es[0].value)
    else Get(es[1..], k)
  }

  /** `{...obj, [k]: v}`: an existing key keeps its position, a new key goes last. */
  function Put(es: Entries, k: string, v: string): (r: Entries)
    ensures Keys(r) == if HasKey(es, k) then Keys(es) else Keys(es) + [k]
  {
    if es == [] then [Entry(k, v)]
    else if es[0].key == k then [Entry(k, v)] + es[1..]
    else [es[0]] + Put(es[1..], k, v)
  }

  /** Reading a key just written gives the written value; every other key reads
      as before. */
  lemma {:induction false} PutGet(es: Entries, k: string, v: string, other: string)
    ensures Get(Put(es, k, v), k) == Some(v)
    ensures other != k ==> Get(Put(es, k, v), other) == Get(es, other)
  {
    if es != [] && es[0].key != k {
      PutGet(es[1..], k, v, other);
    }
  }

  lemma PutDistinct(es: Entries, k: string, v: string)
    requires DistinctKeys(es)
    ensures DistinctKeys(Put(es, k, v))
  {
    var r := Put(es, k, v);
    var ks := Keys(r);
    forall i, j | 0 <= i < j < |r| ensures r[i].key != r[j].key {
      assert ks[i] == r[i].key && ks[j] == r[j].key;
      if !HasKey(es, k) && j == |es| {
        assert ks[i] == Keys(es)[i];
      } else {
        assert ks[i] == Keys(es)[i] && ks[j] == Keys(es)[j];
      }
    }
  }

  /** `Object.keys(obj).length` */
  function Size(es: Entries): nat {
    |es|
  }

  /** The object built by assigning the pairs one after another, as a
      `reduce((acc, {key, value}) => { acc[key] = value; return acc }, {})`
      does: a key that occurs again keeps its first position and its last value. */
  function FromPairs(pairs: Entries): (r: Entries)
    ensures DistinctKeys(r)
  {
    if pairs == [] then []
    else
      var prefix := FromPairs(pairs[..|pairs| - 1]);
      PutDistinct(prefix, pairs[|pairs| - 1].key, pairs[|pairs| - 1].value);
      Put(prefix, pairs[|pairs| - 1].key, pairs[|pairs| - 1].value)
  }

  /** The value last paired with `k`, reading the list from its end. */
  function LastValue(pairs: Entries, k: string): (r: Option<string>)
    ensures r.None? <==> forall i :: 0 <= i < |pairs| ==> pairs[i].key != k
    ensures r.Some? ==> Entry(k, r.value) in pairs
  {
    if pairs == [] then None
    else if pairs[|pairs| - 1].key == k then Some(pairs[|pairs| - 1].value)
    else
      var init := pairs[..|pairs| - 1];
      assert forall i :: 0 <= i < |init| ==> init[i] == pairs[i];
      LastValue(init, k)
  }

  /** In the reduced object every key reads as its last value in the pair list
      (and keys that never occur are absent). */
  lemma {:induction false} FromPairsLastWins(pairs: Entries, k: string)
    ensures Get(FromPairs(pairs), k) == LastValue(pairs, k)
  {
    if pairs != [] {
      var init := pairs[..|pairs| - 1];
      var last := pairs[|pairs| - 1];
      FromPairsLastWins(init, k);
      PutGet(FromPairs(init), last.key, last.value, k);
    }
  }

  /** On pairs that already have distinct keys, reducing changes nothing. */
  lemma {:induction false} FromPairsOfDistinct(pairs: Entries)
    requires DistinctKeys(pairs)
    ensures FromPairs(pairs) == pairs
  {
    if pairs != [] {
      var init := pairs[..|pairs| - 1];
      var last := pairs[|pairs| - 1];
      assert pairs == init + [last];
      DistinctSplit(pairs);
      FromPairsOfDistinct(init);
      FromPairsSnoc(init, last);
      PutAbsent(init, last);
    }
  }

  /** Reducing one more pair assigns it to the object reduced so far. */
  lemma FromPairsSnoc(init: Entries, last: Entry)
    ensures FromPairs(init + [last]) == Put(FromPairs(init), last.key, last.value)
  {
    var pairs := init + [last];
    assert pairs[..|pairs| - 1] == init;
    assert pairs[|pairs| - 1] == last;
  }

  /** Dropping the last pair of distinct pairs leaves distinct pairs that do
      not hold the last key. */
  lemma DistinctSplit(pairs: Entries)
    requires DistinctKeys(pairs) && pairs != []
    ensures DistinctKeys(pairs[..|pairs| - 1])
    ensures !HasKey(pairs[..|pairs| - 1], pairs[|pairs| - 1].key)
  {
    var init := pairs[..|pairs| - 1];
    forall i, j | 0 <= i < j < |init| ensures init[i].key != init[j].key {
      assert init[i] == pairs[i] && init[j] == pairs[j];
    }
    var ks := Keys(init);
    forall i | 0 <= i < |ks| ensures ks[i] != pairs[|pairs| - 1].key {
      assert ks[i] == pairs[i].key;
    }
  }

  lemma {:induction false} PutAbsent(es: Entries, e: Entry)
    requires !HasKey(es, e.key)
    ensures Put(es, e.key, e.value) == es + [e]
  {
    if es != [] {
      assert Keys(es) == [es[0].key] + Keys(es[1..]);
      PutAbsent(es[1..], e);
      assert [es[0]] + (es[1..] + [e]) == es + [e];
    }
  }

  /** In an object with distinct keys, each entry is what its key reads as. */
  lemma {:induction false} GetOfEntry(es: Entries, e: Entry)
    requires DistinctKeys(es) && e in es
    ensures Get(es, e.key) == Some(e.value)
  {
    if es[0] != e {
      assert es[0].key != e.key by {
        var j :| 0 <= j < |es| && es[j] == e;
        assert j != 0;
      }
      assert e in es[1..];
      GetOfEntry(es[1..], e);
    }
  }

  /** An object with the given keys, in order, all mapped to the empty string. */
  function BlankEntries(keys: seq<string>): (r: Entries)
    ensures |r| == |keys|
    ensures forall i :: 0 <= i < |keys| ==> r[i] == Entry(keys[i], "")
  {
    if keys == [] then [] else [Entry(keys[0], "")] + BlankEntries(keys[1..])
  }
}
