/** The accordion list of templates: one template open at a time, edit and
    duplicate buttons that hand the template to the editor, and the opened
    body shown trimmed, with blank lines collapsed and every `{{...}}` token
    wrapped in a highlighting span. */
module TemplateList {
  import opened Wrappers
  import opened Text
  import opened Entities
  import opened TokenScan
  import opened TemplateForm

  // Opening and closing

  /** `openId === id ? null : id` */
  function Toggled(openId: Option<string>, id: string): (r: Option<string>)
    ensures r.Some? ==> r == Some(id)
    ensures r.None? <==> openId == Some(id)
  {
    if openId == Some(id) then None else Some(id)
  }

  /** Clicking the same header twice restores the state exactly when no
      template, or that very template, was open before. */
  lemma ToggledTwice(openId: Option<string>, id: string)
    ensures Toggled(Toggled(openId, id), id) == openId <==> openId.None? || openId == Some(id)
  {
  }

  // Edit and duplicate

  /** A call of `navigate(path, {state})`. */
  datatype Navigation = Navigation(path: string, template: Template, mode: Option<string>)

  /** `template.createdBy === user._id`: both sides may be `undefined`, and
      two `undefined`s compare equal. */
  predicate CanEdit(t: Template, userId: Option<string>) {
    t.createdBy == userId
  }

  function EditNavigation(t: Template): Navigation {
    Navigation("/layout/templates/edit/" + t.id, t, None)
  }

  function DuplicateNavigation(t: Template): Navigation {
    Navigation("/layout/templates/duplicate/" + t.id, t, Some("duplicate"))
  }

  /** The editor reached through the duplicate button is in duplicate mode and
      not in edit mode; through the edit button it is in edit mode whenever
      the template has an id. */
  lemma NavigationModes(t: Template)
    ensures IsDuplicateMode(DuplicateNavigation(t).mode)
    ensures !IsEditMode(Some(t.id), DuplicateNavigation(t).mode)
    ensures IsEditMode(Some(t.id), EditNavigation(t).mode) <==> t.id != ""
    ensures !IsDuplicateMode(EditNavigation(t).mode)
  {
  }

  // What the list shows

  datatype ListView = Skeletons | NoTemplates | Cards(templates: seq<Template>)

  const NoTemplatesMessage := "No templates found. Try adding one."

  /** Five skeleton cards while loading, then the empty message or the cards. */
  function View(templates: seq<Template>, loading: bool): (r: ListView)
    ensures r == Skeletons <==> loading
    ensures r == NoTemplates <==> !loading && templates == []
    ensures r.Cards? ==> r.templates == templates && templates != []
  {
    if loading then Skeletons
    else if |templates| == 0 then NoTemplates
    else Cards(templates)
  }

  class TemplateListView {
    const templates: seq<Template>
    const userId: Option<string>
    var openId: Option<string>
    var navigatedTo: Option<Navigation>

    constructor (templates: seq<Template>, userId: Option<string>)
      ensures this.templates == templates && this.userId == userId
      ensures openId == None && navigatedTo == None
    {
      this.templates := templates;
      this.userId := userId;
      openId := None;
      navigatedTo := None;
    }

    /** `toggleAccordion` */
    method Toggle(id: string)
      modifies `openId
      ensures openId == Toggled(old(openId), id)
    {
      if openId == Some(id) {
        openId := None;
      } else {
        openId := Some(id);
      }
    }

    /** The edit button: navigates only for the template's author. */
    method Edit(t: Template)
      modifies `navigatedTo
      ensures CanEdit(t, userId) ==> navigatedTo == Some(EditNavigation(t))
      ensures !CanEdit(t, userId) ==> navigatedTo == old(navigatedTo)
    {
      if t.createdBy == userId {
        navigatedTo := Some(EditNavigation(t));
      }
    }

    /** The duplicate button: available for every template. */
    method Duplicate(t: Template)
      modifies `navigatedTo
      ensures navigatedTo == Some(DuplicateNavigation(t))
    {
      navigatedTo := Some(DuplicateNavigation(t));
    }
  }

  // Collapsing blank lines: `replace(/\n\s*\n/g, "\n")`

  /** The last line feed in `s[lo..hi]`: where the greedy `\s*` backs off to. */
  function LastNewline(s: string, lo: nat, hi: nat): (r: Option<nat>)
    requires lo <= hi <= |s|
    ensures r.Some? ==> lo <= r.value < hi && s[r.value] == '\n'
    ensures r.Some? ==> forall k :: r.value < k < hi ==> s[k] != '\n'
    ensures r.None? ==> forall k :: lo <= k < hi ==> s[k] != '\n'
    decreases hi - lo
  {
    if hi == lo then None
    else if s[hi - 1] == '\n' then Some(hi - 1)
    else LastNewline(s, lo, hi - 1)
  }

  /** Each line feed followed, across whitespace only, by another line feed
      starts a match that ends at the last such line feed; the match becomes
      one line feed. */
  function Collapse(s: string): (r: string)
    ensures |r| <= |s|
    ensures s != [] ==> r != [] && r[0] == s[0]
    decreases |s|
  {
    if s == [] then []
    else if s[0] == '\n' && LastNewline(s, 1, SpaceRunEnd(s, 1)).Some? then
      var k := LastNewline(s, 1, SpaceRunEnd(s, 1)).value;
      "\n" + Collapse(s[k + 1..])
    else [s[0]] + Collapse(s[1..])
  }

  predicate NoDoubleNewline(s: string) {
    forall i :: 0 <= i < |s| - 1 ==> !(s[i] == '\n' && s[i + 1] == '\n')
  }

  /** After collapsing, no two line feeds are adjacent. */
  lemma {:induction false} CollapseNoDoubleNewline(s: string)
    ensures NoDoubleNewline(Collapse(s))
    decreases |s|
  {
    if s != [] {
      var e := SpaceRunEnd(s, 1);
      if s[0] == '\n' && LastNewline(s, 1, e).Some? {
        var k := LastNewline(s, 1, e).value;
        var t := s[k + 1..];
        CollapseNoDoubleNewline(t);
        assert k + 1 < e ==> s[k + 1] != '\n';
        assert t != [] ==> t[0] == s[k + 1] && s[k + 1] != '\n';
        ConsNoDoubleNewline('\n', Collapse(t));
      } else {
        var t := s[1..];
        CollapseNoDoubleNewline(t);
        assert s[0] == '\n' && t != [] ==> t[0] != '\n';
        ConsNoDoubleNewline(s[0], Collapse(t));
      }
    }
  }

  /** A character put in front keeps line feeds apart unless it is a line
      feed in front of another. */
  lemma ConsNoDoubleNewline(c: char, t: string)
    requires NoDoubleNewline(t)
    requires c == '\n' && t != [] ==> t[0] != '\n'
    ensures NoDoubleNewline([c] + t)
  {
    var r := [c] + t;
    forall i | 0 <= i < |r| - 1 ensures !(r[i] == '\n' && r[i + 1] == '\n') {
      if i > 0 {
        assert r[i] == t[i - 1] && r[i + 1] == t[i];
      }
    }
  }

  /** The characters of `s` that are not whitespace, in order. */
  function NonSpace(s: string): (r: string)
    ensures |r| <= |s|
  {
    if s == [] then []
    else if IsSpace(s[0]) then NonSpace(s[1..])
    else [s[0]] + NonSpace(s[1..])
  }

  lemma {:induction false} NonSpaceSkip(s: string, m: nat)
    requires m <= |s| && AllSpace(s[..m])
    ensures NonSpace(s) == NonSpace(s[m..])
    decreases m
  {
    if m > 0 {
      assert IsSpace(s[..m][0]);
      assert s[1..][..m - 1] == s[..m][1..];
      NonSpaceSkip(s[1..], m - 1);
      assert s[1..][m - 1..] == s[m..];
    }
  }

  /** Collapsing removes whitespace only: every other character stays, in order. */
  lemma {:induction false} CollapseKeepsText(s: string)
    ensures NonSpace(Collapse(s)) == NonSpace(s)
    decreases |s|
  {
    if s != [] {
      var e := SpaceRunEnd(s, 1);
      if s[0] == '\n' && LastNewline(s, 1, e).Some? {
        var k := LastNewline(s, 1, e).value;
        CollapseKeepsText(s[k + 1..]);
        assert ("\n" + Collapse(s[k + 1..]))[1..] == Collapse(s[k + 1..]);
        NonSpaceSkip(s, k + 1);
      } else {
        CollapseKeepsText(s[1..]);
        assert ([s[0]] + Collapse(s[1..]))[1..] == Collapse(s[1..]);
      }
    }
  }

  /** Text without line feeds has nothing to collapse. */
  lemma {:induction false} CollapseWithoutNewline(s: string)
    requires '\n' !in s
    ensures Collapse(s) == s
    decreases |s|
  {
    if s != [] {
      assert forall c :: c in s[1..] ==> c in s;
      CollapseWithoutNewline(s[1..]);
      assert s == [s[0]] + s[1..];
    }
  }

  // Highlighting tokens: `replace(/\{\{(.*?)\}\}/g, '<span ...>{{$1}}</span>')`

  const SpanOpen := "<span class=\"font-semibold text-purple-300\">"
  const SpanClose := "</span>"

  function HighlightPieces(ps: seq<Piece>): string {
    if ps == [] then ""
    else
      match ps[0]
      case Lit(c) => [c] + HighlightPieces(ps[1..])
      case Tok(inner) => SpanOpen + TokenText(inner) + SpanClose + HighlightPieces(ps[1..])
  }

  function Highlight(s: string): string {
    HighlightPieces(Scan(s))
  }

  /** Highlighting only adds the two span tags around each token: the text
      grows by their length once per token. */
  lemma {:induction false} HighlightLength(ps: seq<Piece>)
    ensures |HighlightPieces(ps)| == |Render(ps)| + |Tokens(ps)| * (|SpanOpen| + |SpanClose|)
  {
    if ps != [] {
      HighlightLength(ps[1..]);
    }
  }

  /** With no tokens, highlighting gives the text back. */
  lemma {:induction false} HighlightWithoutTokens(ps: seq<Piece>)
    requires Tokens(ps) == []
    ensures HighlightPieces(ps) == Render(ps)
  {
    if ps != [] {
      assert ps[0].Lit?;
      HighlightWithoutTokens(ps[1..]);
    }
  }

  /** A body that is a single token is wrapped whole, its text still `{{x}}`. */
  lemma HighlightSingleToken(inner: string)
    requires forall i :: 0 <= i < |inner| ==> inner[i] != '}' && !IsLineTerminator(inner[i])
    ensures Highlight(TokenText(inner)) == SpanOpen + TokenText(inner) + SpanClose
  {
    SingleToken(inner);
    var ps := [Tok(inner)];
    assert ps[1..] == [];
    assert HighlightPieces(ps) == SpanOpen + TokenText(inner) + SpanClose + HighlightPieces([]);
  }

  /** The opened card's body: `template.body?.trim().replace(...).replace(...)`;
      a missing body stays missing. */
  function RenderBody(body: Option<string>): (r: Option<string>)
    ensures r.None? <==> body.None?
  {
    match body
    case None => None
    case Some(b) => Some(Highlight(Collapse(Trim(b))))
  }

  /** The body is trimmed before highlighting, and the trimmed, collapsed text
      has no blank line left and keeps every visible character. */
  lemma RenderBodySpec(b: string)
    ensures var c := Collapse(Trim(b));
      && RenderBody(Some(b)) == Some(Highlight(c))
      && NoDoubleNewline(c)
      && NonSpace(c) == NonSpace(Trim(b))
      && (c != [] ==> !IsSpace(c[0]))
  {
    CollapseNoDoubleNewline(Trim(b));
    CollapseKeepsText(Trim(b));
    TrimShape(b);
  }
}
