/** The global, lazy match of `/\{\{(.*?)\}\}/g` that both the template form
    (to find placeholder names) and the template list (to highlight them) run
    over a template body. A body is cut into literal characters and tokens;
    a token is the shortest `{{ ... }}` that starts at the scan position and
    does not cross a line terminator, since `.` does not match one. */
module TokenScan {
  import opened Wrappers
  import opened Text

  datatype Piece = Lit(c: char) | Tok(inner: string)

  predicate IsCloseAt(s: string, k: int) {
    0 <= k && k + 1 < |s| && s[k] == '}' && s[k + 1] == '}'
  }

  predicate IsOpenAt(s: string, k: int) {
    0 <= k && k + 1 < |s| && s[k] == '{' && s[k + 1] == '{'
  }

  /** Where the lazy `.*?` started at `k` stops: the first `}}` at or after
      `k`, provided no line terminator comes before it. */
  function CloseAt(s: string, k: nat): (r: Option<nat>)
    ensures r.Some? ==> k <= r.value && IsCloseAt(s, r.value)
    ensures r.Some? ==> forall i :: k <= i < r.value ==> !IsCloseAt(s, i) && !IsLineTerminator(s[i])
    decreases |s| - k
  {
    if k + 1 >= |s| then None
    else if s[k] == '}' && s[k + 1] == '}' then Some(k)
    else if IsLineTerminator(s[k]) then None
    else CloseAt(s, k + 1)
  }

  /** The pieces of `s`, left to right, as the global match sees them. */
  function Scan(s: string): (r: seq<Piece>)
    decreases |s|
  {
    if s == [] then []
    else if IsOpenAt(s, 0) && CloseAt(s, 2).Some? then
      var j := CloseAt(s, 2).value;
      [Tok(s[2..j])] + Scan(s[j + 2..])
    else [Lit(s[0])] + Scan(s[1..])
  }

  function TokenText(inner: string): string {
    "{{" + inner + "}}"
  }

  /** Writes the pieces back out, each token with its braces. */
  function Render(ps: seq<Piece>): string {
    if ps == [] then ""
    else
      match ps[0]
      case Lit(c) => [c] + Render(ps[1..])
      case Tok(inner) => TokenText(inner) + Render(ps[1..])
  }

  /** The scan loses and adds nothing: rendering the pieces gives the body back. */
  lemma {:induction false} ScanLossless(s: string)
    ensures Render(Scan(s)) == s
    decreases |s|
  {
    if s != [] {
      if IsOpenAt(s, 0) && CloseAt(s, 2).Some? {
        var j := CloseAt(s, 2).value;
        ScanLossless(s[j + 2..]);
        assert s == "{{" + s[2..j] + "}}" + s[j + 2..];
      } else {
        ScanLossless(s[1..]);
        assert s == [s[0]] + s[1..];
      }
    }
  }

  /** The inner text of every token, in order (the `$1` of each match). */
  function Tokens(ps: seq<Piece>): (r: seq<string>)
    ensures |r| <= |ps|
  {
    if ps == [] then []
    else if ps[0].Tok? then [ps[0].inner] + Tokens(ps[1..])
    else Tokens(ps[1..])
  }

  /** The inner text of a token never spans a line and never holds `}}`. */
  lemma {:induction false} TokenShape(s: string)
    ensures forall t :: t in Tokens(Scan(s)) ==>
      (forall i :: 0 <= i < |t| ==> !IsLineTerminator(t[i])) && forall i :: 0 <= i < |t| ==> !IsCloseAt(t, i)
    decreases |s|
  {
    if s != [] {
      if IsOpenAt(s, 0) && CloseAt(s, 2).Some? {
        var j := CloseAt(s, 2).value;
        TokenShape(s[j + 2..]);
        var t := s[2..j];
        forall i | 0 <= i < |t| ensures !IsLineTerminator(t[i]) && !IsCloseAt(t, i) {
          assert t[i] == s[i + 2];
          assert !IsCloseAt(s, i + 2);
        }
      } else {
        TokenShape(s[1..]);
      }
    }
  }

  /** A body without any `{{` has no tokens at all. */
  predicate HasNoOpen(s: string) {
    forall i :: 0 <= i < |s| ==> !IsOpenAt(s, i)
  }

  lemma {:induction false} NoOpenNoTokens(s: string)
    requires HasNoOpen(s)
    ensures Tokens(Scan(s)) == []
    decreases |s|
  {
    if s != [] {
      assert !IsOpenAt(s, 0);
      forall i | 0 <= i < |s| - 1 ensures !IsOpenAt(s[1..], i) {
        assert !IsOpenAt(s, i + 1);
      }
      NoOpenNoTokens(s[1..]);
    }
  }

  /** A body made of one well-formed token is that single token. */
  lemma SingleToken(inner: string)
    requires forall i :: 0 <= i < |inner| ==> inner[i] != '}' && !IsLineTerminator(inner[i])
    ensures Scan(TokenText(inner)) == [Tok(inner)]
  {
    var s := TokenText(inner);
    assert IsOpenAt(s, 0);
    CloseSkipsInner(s, inner, 2);
    assert s[2..|s| - 2] == inner;
    assert s[|s|..] == [];
  }

  lemma {:induction false} CloseSkipsInner(s: string, inner: string, k: nat)
    requires s == TokenText(inner) && 2 <= k <= |inner| + 2
    requires forall i :: 0 <= i < |inner| ==> inner[i] != '}' && !IsLineTerminator(inner[i])
    ensures CloseAt(s, k) == Some(|inner| + 2)
    decreases |s| - k
  {
    if k < |inner| + 2 {
      assert s[k] == inner[k - 2];
      CloseSkipsInner(s, inner, k + 1);
    }
  }
}
