/** The email shape test that both the HR form and the mail-keys form run,
    `/^[^\s@]+@[^\s@]+\.[^\s@]+$/`, written out by hand. */
module Email {
  import opened Text

  /** `/^[^\s@]+@[^\s@]+\.[^\s@]+$/.test(s)`: one `@` with at least one
      character before it, a `.` after it with at least one character on each
      side, and no whitespace anywhere. */
  predicate EmailShape(s: string) {
    NoSpace(s) && exists at, dot | 0 <= at < |s| && 0 <= dot < |s| :: ShapeAt(s, at, dot)
  }

  predicate NoSpace(s: string) {
    forall k :: 0 <= k < |s| ==> !IsSpace(s[k])
  }

  /** The only `@` is at `at`, and `dot` is a `.` after it with characters on
      both sides. */
  predicate ShapeAt(s: string, at: int, dot: int) {
    && 0 < at < dot - 1 && dot < |s| - 1
    && s[at] == '@' && s[dot] == '.'
    && forall k :: 0 <= k < |s| && k != at ==> s[k] != '@'
  }

  /** The shape test runs on the email as typed: leading or trailing
      whitespace fails it even though the emptiness check trims. */
  lemma PaddedEmailRejected(s: string, c: char)
    requires IsSpace(c)
    ensures !EmailShape([c] + s) && !EmailShape(s + [c])
  {
    assert ([c] + s)[0] == c;
    assert (s + [c])[|s|] == c;
  }

  /** An address with two `@`s, or with no `.` after its `@`, is rejected. */
  lemma EmailShapeNeeds(s: string, i: nat, j: nat)
    ensures i < j < |s| && s[i] == '@' && s[j] == '@' ==> !EmailShape(s)
    ensures EmailShape(s) ==> exists k :: 0 < k < |s| - 1 && s[k] == '.'
  {
  }

  /** A plain `local@host.tld` address passes. */
  lemma EmailShapeAccepts(local: string, host: string, tld: string)
    requires local != [] && host != [] && tld != []
    requires forall c :: c in local + host + tld ==> c != '@' && c != '.' && !IsSpace(c)
    ensures EmailShape(local + "@" + host + "." + tld)
  {
    var s := local + "@" + host + "." + tld;
    var at := |local|;
    var dot := |local| + 1 + |host|;
    assert s[at] == '@' && s[dot] == '.';
    forall k | 0 <= k < |s|
      ensures !IsSpace(s[k]) && (k != at ==> s[k] != '@')
    {
      if k < at {
        assert s[k] == local[k];
        assert local[k] in local + host + tld;
      } else if at < k < dot {
        assert s[k] == host[k - at - 1];
        assert host[k - at - 1] in local + host + tld;
      } else if dot < k {
        assert s[k] == tld[k - dot - 1];
        assert tld[k - dot - 1] in local + host + tld;
      }
    }
    assert ShapeAt(s, at, dot);
  }

  /** A well-shaped address is never blank, so the emptiness check before
      the shape test only chooses which message is shown. */
  lemma ShapedIsNotBlank(s: string)
    ensures EmailShape(s) ==> !IsBlank(s)
  {
    if EmailShape(s) {
      assert !IsSpace(s[0]);
    }
  }
}
