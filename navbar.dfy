/** The top bar: the avatar initials on the profile button, the name and
    letters shown in its dropdown, and the dropdown's open flag. */
module Navbar {
  import opened Wrappers
  import opened Text
  import opened Entities

  /** `word[0]?.toUpperCase()` joined into a string: an empty word gives
      `undefined`, which `join` writes as nothing. */
  function UpperInitial(w: string): (r: string)
    ensures |r| <= 1
    ensures r == [] <==> w == []
  {
    if w == [] then [] else [UpperChar(w[0])]
  }

  /** `n[0]` joined into a string, before any case mapping. */
  function Initial(w: string): (r: string)
    ensures |r| <= 1
    ensures r == [] <==> w == []
  {
    if w == [] then [] else [w[0]]
  }

  /** `words.map(word => word[0]?.toUpperCase()).join("")` */
  function UpperInitials(words: seq<string>): string {
    if words == [] then [] else UpperInitial(words[0]) + UpperInitials(words[1..])
  }

  /** `words.map(n => n[0]).join("")` */
  function Initials(words: seq<string>): (r: string)
    ensures |r| <= |words|
  {
    if words == [] then [] else Initial(words[0]) + Initials(words[1..])
  }

  /** `user.name || "User"` */
  function DisplayName(name: Option<string>): (r: string)
    ensures r != []
  {
    if Truthy(name) then name.value else "User"
  }

  /** The profile button: the first two letters of the word initials, or
      "??" when the stored user has no name. */
  function AvatarInitials(name: Option<string>): (r: string)
    ensures |r| <= 2
    ensures !Truthy(name) ==> r == "??"
  {
    if Truthy(name) then
      var all := UpperInitials(Split(name.value, ' '));
      if |all| <= 2 then all else all[..2]
    else "??"
  }

  /** The dropdown's avatar: the initials of every word of the display name,
      uppercased and not cut. */
  function DropdownLetters(name: Option<string>): string {
    Upper(Initials(Split(DisplayName(name), ' ')))
  }

  lemma {:induction false} UpperInitialsAppend(a: seq<string>, b: seq<string>)
    ensures UpperInitials(a + b) == UpperInitials(a) + UpperInitials(b)
  {
    if a == [] {
      assert a + b == b;
    } else {
      assert (a + b)[0] == a[0] && (a + b)[1..] == a[1..] + b;
      UpperInitialsAppend(a[1..], b);
    }
  }

  /** Uppercasing each initial is uppercasing the joined initials. */
  lemma {:induction false} UpperInitialsIsUpper(words: seq<string>)
    ensures UpperInitials(words) == Upper(Initials(words))
  {
    if words != [] {
      UpperInitialsIsUpper(words[1..]);
      UpperAppend(Initial(words[0]), Initials(words[1..]));
    }
  }

  /** Empty words, which repeated or surrounding spaces produce, add nothing
      to the initials. */
  lemma EmptyWordsContributeNothing(a: seq<string>, b: seq<string>)
    ensures UpperInitials(a + [""] + b) == UpperInitials(a + b)
  {
    var e: seq<string> := [""];
    assert UpperInitials(e) == [] by {
      assert e[1..] == [];
    }
    UpperInitialsAppend(a, e);
    assert UpperInitials(a + e) == UpperInitials(a);
    UpperInitialsAppend(a + e, b);
    UpperInitialsAppend(a, b);
  }

  /** With a name, the button shows the first (at most two) of the letters
      that the dropdown shows in full. */
  lemma AvatarIsPrefixOfDropdown(name: Option<string>)
    requires Truthy(name)
    ensures var d := DropdownLetters(name);
      AvatarInitials(name) == if |d| <= 2 then d else d[..2]
  {
    UpperInitialsIsUpper(Split(name.value, ' '));
  }

  /** A word without spaces splits to itself. */
  lemma {:induction false} SplitWithoutSeparator(s: string, sep: char)
    requires sep !in s
    ensures Split(s, sep) == [s]
    decreases |s|
  {
    if s != [] {
      assert sep !in s[1..] by {
        forall c | c in s[1..] ensures c in s { }
      }
      SplitWithoutSeparator(s[1..], sep);
      assert s == [s[0]] + s[1..];
    }
  }

  /** Text before the first separator is the first piece. */
  lemma {:induction false} SplitAtSeparator(a: string, b: string, sep: char)
    requires sep !in a
    ensures Split(a + [sep] + b, sep) == [a] + Split(b, sep)
    decreases |a|
  {
    var s := a + [sep] + b;
    if a == [] {
      assert s == [sep] + b;
      assert s[1..] == b;
    } else {
      assert sep !in a[1..] by {
        forall c | c in a[1..] ensures c in a { }
      }
      assert s[1..] == a[1..] + [sep] + b;
      SplitAtSeparator(a[1..], b, sep);
      assert s[0] == a[0] != sep;
      assert a == [a[0]] + a[1..];
    }
  }

  /** A first and last name give the two uppercased initials. */
  lemma TwoWordInitials(first: string, last: string)
    requires first != [] && last != []
    requires ' ' !in first && ' ' !in last
    ensures AvatarInitials(Some(first + " " + last)) == [UpperChar(first[0]), UpperChar(last[0])]
  {
    SplitAtSeparator(first, last, ' ');
    SplitWithoutSeparator(last, ' ');
    var words := [first, last];
    assert Split(first + " " + last, ' ') == words;
    assert words[1..][1..] == [];
    assert UpperInitials(words) == UpperInitial(first) + (UpperInitial(last) + UpperInitials([]));
  }

  /** Without a stored name the bar falls back to "??" on the button and to
      "User", lettered "U", in the dropdown. */
  lemma NoNameFallbacks(name: Option<string>)
    requires !Truthy(name)
    ensures AvatarInitials(name) == "??"
    ensures DisplayName(name) == "User"
    ensures DropdownLetters(name) == "U"
  {
    assert ' ' !in "User";
    SplitWithoutSeparator("User", ' ');
    assert Initials(["User"]) == Initial("User") + Initials([]);
  }

  class NavbarState {
    var dropdownOpen: bool

    constructor ()
      ensures !dropdownOpen
    {
      dropdownOpen := false;
    }

    /** The profile button: `setDropdownOpen(prev => !prev)`. */
    method ToggleDropdown()
      modifies `dropdownOpen
      ensures dropdownOpen == !old(dropdownOpen)
    {
      dropdownOpen := !dropdownOpen;
    }

    /** A mouse-down anywhere: outside the profile area it closes the
        dropdown, inside it changes nothing. */
    method MouseDown(insideProfile: bool)
      modifies `dropdownOpen
      ensures dropdownOpen == (old(dropdownOpen) && insideProfile)
    {
      if !insideProfile {
        dropdownOpen := false;
      }
    }
  }
}
