/** The review step's preview of a template with the campaign's placeholder
    values filled in: for each entry of the values object, in entry order,
    every `{{ key }}` token (any whitespace inside the braces) in the running
    text is replaced by the value, or by the canonical `{{key}}` when the
    value is empty. */
module Substitution {
  import opened Wrappers
  import opened Text
  import opened JsObject

  /** Characters that would change the meaning of the key once it is spliced,
      unescaped, into the regular expression. */
  predicate IsRegexMeta(c: char) {
    c in "\\^$.|?*+()[]{}"
  }

  /** The keys for which the spliced pattern matches the key literally and
      the whitespace on either side of it is all taken by the two `\s*`. */
  predicate SafeKey(key: string) {
    && |key| > 0
    && !IsSpace(key[0]) && !IsSpace(key[|key| - 1])
    && forall i :: 0 <= i < |key| ==> !IsRegexMeta(key[i])
  }

  /** Values that `String.prototype.replace` inserts verbatim (no `$` patterns). */
  predicate PlainValue(v: string) {
    '$' !in v
  }

  predicate SafeEntries(es: Entries) {
    forall i :: 0 <= i < |es| ==> SafeKey(es[i].key) && PlainValue(es[i].value)
  }

  /** Where a match of `{{\s*key\s*}}` starting at `p` ends, if there is one. */
  function MatchAt(s: string, p: nat, key: string): (r: Option<nat>)
    requires p <= |s|
    ensures r.Some? ==> p + 4 <= r.value <= |s|
  {
    if p + 1 < |s| && s[p] == '{' && s[p + 1] == '{' then
      var a := SpaceRunEnd(s, p + 2);
      if a + |key| <= |s| && s[a..a + |key|] == key then
        var b := SpaceRunEnd(s, a + |key|);
        if b + 1 < |s| && s[b] == '}' && s[b + 1] == '}' then Some(b + 2) else None
      else None
    else None
  }

  /** `s.replace(new RegExp("{{\\s*" + key + "\\s*}}", "g"), rep)` for a safe key
      and a `$`-free replacement. */
  function ReplaceAll(s: string, key: string, rep: string): string
    decreases |s|
  {
    if s == [] then []
    else
      match MatchAt(s, 0, key)
      case Some(e) => rep + ReplaceAll(s[e..], key, rep)
      case None => [s[0]] + ReplaceAll(s[1..], key, rep)
  }

  /** `value || "{{" + key + "}}"` */
  function Replacement(e: Entry): string {
    if e.value != "" then e.value else "{{" + e.key + "}}"
  }

  /** Applies the entries one after another to the running text. */
  function ApplyEntries(s: string, es: Entries): string
    decreases |es|
  {
    if es == [] then s else ApplyEntries(ReplaceAll(s, es[0].key, Replacement(es[0])), es[1..])
  }

  /** `replaceTemplateVariables(template, placeholders)`: a missing or empty text,
      or a missing values object, gives the text back untouched; otherwise each
      entry rewrites the running result in turn. */
  method ReplaceTemplateVariables(template: Option<string>, placeholders: Option<Entries>)
    returns (r: Option<string>)
    requires placeholders.Some? ==> SafeEntries(placeholders.value)
    ensures template.None? || template.value == "" || placeholders.None? ==> r == template
    ensures template.Some? && template.value != "" && placeholders.Some? ==>
      r == Some(ApplyEntries(template.value, placeholders.value))
  {
    if template.None? || template.value == "" || placeholders.None? {
      return template;
    }
    var es := placeholders.value;
    var result := template.value;
    var i := 0;
    while i < |es|
      invariant 0 <= i <= |es|
      invariant ApplyEntries(result, es[i..]) == ApplyEntries(template.value, es)
    {
      assert es[i..][1..] == es[i + 1..];
      result := ReplaceAll(result, es[i].key, Replacement(es[i]));
      i := i + 1;
    }
    assert es[i..] == [];
    return Some(result);
  }

  // Properties of one replacement pass

  /** Text without `{` passes through a replacement untouched, whatever follows. */
  lemma {:induction false} ReplacePlainPrefix(a: string, b: string, key: string, rep: string)
    requires '{' !in a
    ensures ReplaceAll(a + b, key, rep) == a + ReplaceAll(b, key, rep)
  {
    if a == [] {
      assert a + b == b;
    } else {
      var s := a + b;
      assert a[0] in a;
      assert s[0] == a[0] && s[1..] == a[1..] + b;
      SkipUnmatched(s, key, rep);
      assert '{' !in a[1..] by {
        forall c | c in a[1..] ensures c in a { }
      }
      ReplacePlainPrefix(a[1..], b, key, rep);
      var r := ReplaceAll(b, key, rep);
      assert ReplaceAll(s, key, rep) == [a[0]] + (a[1..] + r);
      assert a == [a[0]] + a[1..];
      assert [a[0]] + (a[1..] + r) == a + r;
    }
  }

  /** `{{`, then whitespace, the name, whitespace and `}}`. */
  function SpacedToken(pre: string, name: string, post: string): string {
    "{{" + pre + name + post + "}}"
  }

  /** A token for the key, with any whitespace inside its braces, is replaced
      as a whole and the scan resumes right after it. */
  lemma ReplaceKeyToken(pre: string, post: string, rest: string, key: string, rep: string)
    requires SafeKey(key) && AllSpace(pre) && AllSpace(post)
    ensures ReplaceAll(SpacedToken(pre, key, post) + rest, key, rep) == rep + ReplaceAll(rest, key, rep)
  {
    var s := SpacedToken(pre, key, post) + rest;
    TokenLayout(pre, key, post, rest);
    KeyTokenMatches(s, pre, key, post);
    SkipMatched(s, key, rep, 4 + |pre| + |key| + |post|);
  }

  /** `s` starts with a token: two opening braces, the whitespace `pre`, the
      name, the whitespace `post` and two closing braces. */
  predicate TokenAt(s: string, pre: string, name: string, post: string) {
    && 4 + |pre| + |name| + |post| <= |s|
    && s[0] == '{' && s[1] == '{'
    && (forall i :: 2 <= i < 2 + |pre| ==> s[i] == pre[i - 2])
    && NameAt(s, 2 + |pre|, name, post)
    && s[3 + |pre| + |name| + |post|] == '}'
  }

  /** Where the parts of a token followed by text sit. */
  lemma TokenLayout(pre: string, name: string, post: string, rest: string)
    ensures TokenAt(SpacedToken(pre, name, post) + rest, pre, name, post)
    ensures (SpacedToken(pre, name, post) + rest)[4 + |pre| + |name| + |post|..] == rest
  {
  }

  /** The whitespace after the opening braces ends where the name starts. */
  lemma OpeningRun(s: string, pre: string, name: string, post: string)
    requires TokenAt(s, pre, name, post) && AllSpace(pre) && name != "" && !IsSpace(name[0])
    ensures SpaceRunEnd(s, 2) == 2 + |pre|
  {
    assert s[2 + |pre|] == s[2 + |pre|..2 + |pre| + |name|][0];
    SpaceRunOver(s, 2, |pre|);
  }

  /** A token for the key matches as a whole. */
  lemma KeyTokenMatches(s: string, pre: string, key: string, post: string)
    requires TokenAt(s, pre, key, post) && SafeKey(key) && AllSpace(pre) && AllSpace(post)
    ensures MatchAt(s, 0, key) == Some(4 + |pre| + |key| + |post|)
  {
    var a := 2 + |pre|;
    var b := a + |key| + |post|;
    OpeningRun(s, pre, key, post);
    assert s[a..a + |key|] == key;
    assert s[b] == '}' && s[b + 1] == '}';
    SpaceRunOver(s, a + |key|, |post|);
  }

  /** Where a token starts, the scan writes the replacement and resumes after it. */
  lemma SkipMatched(s: string, key: string, rep: string, e: nat)
    requires s != [] && MatchAt(s, 0, key) == Some(e)
    ensures ReplaceAll(s, key, rep) == rep + ReplaceAll(s[e..], key, rep)
  {
  }

  /** A token for any other name is copied unchanged and the scan goes on after it. */
  lemma ReplaceOtherToken(pre: string, name: string, post: string, rest: string, key: string, rep: string)
    requires SafeKey(key) && AllSpace(pre) && AllSpace(post)
    requires name != "" && !IsSpace(name[0]) && !IsSpace(name[|name| - 1])
    requires '{' !in name && '}' !in name && name != key
    ensures ReplaceAll(SpacedToken(pre, name, post) + rest, key, rep)
         == SpacedToken(pre, name, post) + ReplaceAll(rest, key, rep)
  {
    var inner := pre + name + post + "}}";
    var s := SpacedToken(pre, name, post) + rest;
    TokenThenText(pre, name, post, rest);
    NoMatchOnOtherToken(pre, name, post, rest, key);
    InnerBraceFree(pre, name, post);
    assert inner[0] != '{' by { assert inner[0] in inner; }
    SecondBraceNoMatch(inner + rest, key);
    var s1 := ['{'] + (inner + rest);
    assert s[1..] == s1 && s1[1..] == inner + rest;
    var r := ReplaceAll(rest, key, rep);
    ReplacePlainPrefix(inner, rest, key, rep);
    SkipUnmatched(s1, key, rep);
    assert ReplaceAll(s1, key, rep) == ['{'] + (inner + r);
    SkipUnmatched(s, key, rep);
    assert ReplaceAll(s, key, rep) == ['{'] + (['{'] + (inner + r));
    TokenThenText(pre, name, post, r);
  }

  /** A token followed by text, regrouped as its two opening braces and the rest. */
  lemma TokenThenText(pre: string, name: string, post: string, r: string)
    ensures SpacedToken(pre, name, post) + r == ['{'] + (['{'] + ((pre + name + post + "}}") + r))
  {
  }

  /** Where no token starts, the scan copies one character and moves on. */
  lemma SkipUnmatched(s: string, key: string, rep: string)
    requires s != [] && MatchAt(s, 0, key).None?
    ensures ReplaceAll(s, key, rep) == [s[0]] + ReplaceAll(s[1..], key, rep)
  {
  }

  /** A single `{` followed by anything but `{` starts no token. */
  lemma SecondBraceNoMatch(tail: string, key: string)
    requires tail != [] && tail[0] != '{'
    ensures MatchAt(['{'] + tail, 0, key).None?
  {
    assert (['{'] + tail)[1] == tail[0];
  }

  /** The inside of a token for a brace-free name, with its closing braces,
      holds no `{`. */
  lemma InnerBraceFree(pre: string, name: string, post: string)
    requires AllSpace(pre) && AllSpace(post) && '{' !in name
    ensures '{' !in pre + name + post + "}}"
  {
    assert '{' !in pre by {
      forall i | 0 <= i < |pre| ensures pre[i] != '{' { assert IsSpace(pre[i]); }
    }
    assert '{' !in post by {
      forall i | 0 <= i < |post| ensures post[i] != '{' { assert IsSpace(post[i]); }
    }
  }

  /** The key cannot match at the start of a token for another name. */
  lemma NoMatchOnOtherToken(pre: string, name: string, post: string, rest: string, key: string)
    requires SafeKey(key) && AllSpace(pre) && AllSpace(post)
    requires name != "" && !IsSpace(name[0]) && !IsSpace(name[|name| - 1])
    requires '}' !in name && name != key
    ensures MatchAt(SpacedToken(pre, name, post) + rest, 0, key).None?
  {
    var s := SpacedToken(pre, name, post) + rest;
    TokenLayout(pre, name, post, rest);
    OpeningRun(s, pre, name, post);
    NoMatchAtName(s, 2 + |pre|, name, post, key);
  }

  /** The parts of a token laid out in `s`: opening braces, whitespace up to
      `a`, the name, the whitespace `post`, then a closing brace. */
  predicate NameAt(s: string, a: nat, name: string, post: string) {
    && a + |name| + |post| < |s|
    && s[a..a + |name|] == name
    && (forall i :: a + |name| <= i < a + |name| + |post| ==> s[i] == post[i - a - |name|])
    && s[a + |name| + |post|] == '}'
  }

  /** Once the whitespace after the braces is skipped, another name cannot
      be followed by the key's closing braces. */
  lemma NoMatchAtName(s: string, a: nat, name: string, post: string, key: string)
    requires NameAt(s, a, name, post) && s[0] == '{' && s[1] == '{' && SpaceRunEnd(s, 2) == a
    requires SafeKey(key) && AllSpace(post)
    requires name != "" && !IsSpace(name[|name| - 1]) && '}' !in name && name != key
    ensures MatchAt(s, 0, key).None?
  {
    var n := |name|;
    var k := |key|;
    if a + k <= |s| && s[a..a + k] == key {
      KeyShorterThanName(s, a, name, post, key);
      var b := SpaceRunEnd(s, a + k);
      assert s[a + n - 1] == name[n - 1];
      assert b < a + n;
      assert s[b] == name[b - a];
    }
  }

  /** A safe key that the text at a token's name starts with is shorter than
      the name: it cannot be the name itself, cannot end in the whitespace
      after it, and cannot reach the closing brace. */
  lemma KeyShorterThanName(s: string, a: nat, name: string, post: string, key: string)
    requires NameAt(s, a, name, post) && SafeKey(key) && AllSpace(post) && name != key
    requires a + |key| <= |s| && s[a..a + |key|] == key
    ensures |key| < |name|
  {
    var k := |key|;
    var n := |name|;
    assert forall i :: 0 <= i < k ==> key[i] == s[a + i];
    assert forall i :: a + n <= i < a + n + |post| ==> IsSpace(s[i]);
  }

  // Properties of the sequential fold

  /** Brace-free text ahead of the tokens survives every entry unchanged. */
  lemma {:induction false} ApplyPlainPrefix(a: string, b: string, es: Entries)
    requires '{' !in a
    ensures ApplyEntries(a + b, es) == a + ApplyEntries(b, es)
    decreases |es|
  {
    if es != [] {
      ReplacePlainPrefix(a, b, es[0].key, Replacement(es[0]));
      ApplyPlainPrefix(a, ReplaceAll(b, es[0].key, Replacement(es[0])), es[1..]);
    }
  }

  /** A token whose name is not a key of the values object is left unchanged. */
  lemma {:induction false} ApplyOtherToken(pre: string, name: string, post: string, rest: string, es: Entries)
    requires SafeEntries(es) && AllSpace(pre) && AllSpace(post)
    requires name != "" && !IsSpace(name[0]) && !IsSpace(name[|name| - 1])
    requires '{' !in name && '}' !in name && name !in Keys(es)
    ensures ApplyEntries(SpacedToken(pre, name, post) + rest, es)
         == SpacedToken(pre, name, post) + ApplyEntries(rest, es)
    decreases |es|
  {
    if es != [] {
      assert Keys(es) == [es[0].key] + Keys(es[1..]);
      ReplaceOtherToken(pre, name, post, rest, es[0].key, Replacement(es[0]));
      ApplyOtherToken(pre, name, post, ReplaceAll(rest, es[0].key, Replacement(es[0])), es[1..]);
    }
  }

  /** With a single entry, a token for its key becomes the value when the value
      is non-empty, and the canonical `{{key}}` when it is empty. */
  lemma SingleEntry(pre: string, key: string, post: string, value: string)
    requires SafeKey(key) && AllSpace(pre) && AllSpace(post)
    ensures ApplyEntries(SpacedToken(pre, key, post), [Entry(key, value)])
         == if value != "" then value else "{{" + key + "}}"
  {
    var t := SpacedToken(pre, key, post);
    ReplaceKeyToken(pre, post, "", key, Replacement(Entry(key, value)));
    assert t + "" == t;
  }

  /** Entries are applied one after another to the running result, so a value
      that holds a later key's token has that token filled in as well: a token
      for `a` whose value is a token for `b` ends up as `b`'s non-empty value. */
  lemma SequentialFill(pre: string, a: string, post: string, pre2: string, b: string, post2: string, x: string)
    requires SafeKey(a) && AllSpace(pre) && AllSpace(post)
    requires SafeKey(b) && AllSpace(pre2) && AllSpace(post2)
    requires x != ""
    ensures ApplyEntries(SpacedToken(pre, a, post), [Entry(a, SpacedToken(pre2, b, post2)), Entry(b, x)]) == x
  {
    var tb := SpacedToken(pre2, b, post2);
    assert |tb| >= 4;
    SingleEntry(pre, a, post, tb);
    SingleEntry(pre2, b, post2, x);
    ApplyOneThenRest(SpacedToken(pre, a, post), Entry(a, tb), [Entry(b, x)]);
  }

  /** An instance: `{{a}}` with a = `{{b}}` and b = `X` renders as `X`. */
  lemma SequentialFillExample()
    ensures ApplyEntries("{{a}}", [Entry("a", "{{b}}"), Entry("b", "X")]) == "X"
  {
    OneLetterToken('a');
    OneLetterToken('b');
    SingleLetterSafe('a');
    SingleLetterSafe('b');
    SequentialFill("", "a", "", "", "b", "", "X");
  }

  lemma OneLetterToken(c: char)
    ensures SpacedToken("", [c], "") == ['{', '{', c, '}', '}']
  {
  }

  /** A one-letter key that is neither whitespace nor a regular-expression
      metacharacter is safe. */
  lemma SingleLetterSafe(c: char)
    requires 'a' <= c <= 'z'
    ensures SafeKey([c])
  {
  }

  /** The first entry is applied on its own, then the rest. */
  lemma ApplyOneThenRest(s: string, e: Entry, es: Entries)
    ensures ApplyEntries(s, [e] + es) == ApplyEntries(ApplyEntries(s, [e]), es)
  {
    assert ([e] + es)[1..] == es;
    assert [e][1..] == [];
  }
}
