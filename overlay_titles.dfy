/** How an overlay button's title and body are resolved from its data
    attributes: the explicit `data-title`, else the overlay id turned into a
    title, else "Coming Soon"; the template's markup, else `data-content`,
    else nothing. */
module OverlayTitles {
  import opened Wrappers

  const DefaultTitle: string := "Coming Soon"

  /** A character of the regular-expression class `\w`. */
  predicate IsWordChar(c: char)
  {
    'a' <= c <= 'z' || 'A' <= c <= 'Z' || '0' <= c <= '9' || c == '_'
  }

  predicate IsSeparator(c: char)
  {
    c == '-' || c == '_'
  }

  /** Upper-cases an ASCII lower-case letter; every other character is kept. */
  function ToUpper(c: char): (u: char)
    ensures 'a' <= c <= 'z' ==> 'A' <= u <= 'Z' && u as int == c as int - 32
    ensures !('a' <= c <= 'z') ==> u == c
  {
    if 'a' <= c <= 'z' then (c as int - 32) as char else c
  }

  /** Every `-` and `_` becomes a space. */
  function SpaceSeparators(s: string): (r: string)
    ensures |r| == |s|
    ensures forall i :: 0 <= i < |s| ==> r[i] == (if IsSeparator(s[i]) then ' ' else s[i])
  {
    if s == [] then []
    else [if IsSeparator(s[0]) then ' ' else s[0]] + SpaceSeparators(s[1..])
  }

  /** Position `i` of `s` holds the first character of a word (`\b\w`): a word
      character not preceded by one; `afterWord` says whether the text before
      `s` ended in a word character. */
  predicate StartsWord(s: string, i: nat, afterWord: bool)
    requires i < |s|
  {
    IsWordChar(s[i]) && !(if i == 0 then afterWord else IsWordChar(s[i - 1]))
  }

  /** Upper-cases the first character of every word. */
  function CapitalizeWords(s: string, afterWord: bool): (r: string)
    ensures |r| == |s|
    ensures forall i :: 0 <= i < |s| ==>
      r[i] == (if StartsWord(s, i, afterWord) then ToUpper(s[i]) else s[i])
  {
    if s == [] then []
    else
      var head := if IsWordChar(s[0]) && !afterWord then ToUpper(s[0]) else s[0];
      var rest := CapitalizeWords(s[1..], IsWordChar(s[0]));
      assert forall i :: 1 <= i < |s| ==> StartsWord(s, i, afterWord) == StartsWord(s[1..], i - 1, IsWordChar(s[0]));
      [head] + rest
  }

  /** The title derived from an overlay id, e.g. "professional-experience"
      becomes "Professional Experience". */
  function Titleize(id: string): (t: string)
    ensures |t| == |id|
    ensures forall i :: 0 <= i < |id| ==>
      t[i] == (if StartsWord(SpaceSeparators(id), i, false) then ToUpper(SpaceSeparators(id)[i])
               else SpaceSeparators(id)[i])
  {
    CapitalizeWords(SpaceSeparators(id), false)
  }

  /** A derived title is as long as the id, holds no `-` or `_`, has a space
      exactly where the id has a separator or a space, and begins every word
      with a character that is not a lower-case letter. */
  lemma TitleizeShape(id: string)
    ensures |Titleize(id)| == |id|
    ensures forall i :: 0 <= i < |id| ==> !IsSeparator(Titleize(id)[i])
    ensures forall i :: 0 <= i < |id| ==> (Titleize(id)[i] == ' ' <==> IsSeparator(id[i]) || id[i] == ' ')
    ensures forall i :: 0 <= i < |id| && StartsWord(Titleize(id), i, false) ==> !('a' <= Titleize(id)[i] <= 'z')
  {
    var s := SpaceSeparators(id);
    var t := Titleize(id);
    forall i | 0 <= i < |id|
      ensures IsWordChar(t[i]) == IsWordChar(s[i])
      ensures StartsWord(t, i, false) ==> StartsWord(s, i, false)
    {
    }
  }

  /** Deriving a title from a derived title changes nothing. */
  lemma {:induction false} TitleizeIdempotent(id: string)
    ensures Titleize(Titleize(id)) == Titleize(id)
  {
    var s := SpaceSeparators(id);
    var t := Titleize(id);
    TitleizeShape(id);
    assert SpaceSeparators(t) == t;
    forall i | 0 <= i < |t|
      ensures IsWordChar(t[i]) == IsWordChar(s[i])
    {
    }
    forall i | 0 <= i < |t|
      ensures StartsWord(t, i, false) == StartsWord(s, i, false)
    {
    }
  }

  /** The id "about-me" becomes the title "About Me". */
  lemma TitleizeExample()
    ensures Titleize("about-me") == "About Me"
  {
    var id := "about-me";
    var s := SpaceSeparators(id);
    assert s[5] == ' ' && s[..5] == id[..5] && s[6..] == id[6..];
    assert s == "about me";
    var t := CapitalizeWords(s, false);
    assert StartsWord(s, 0, false) && StartsWord(s, 6, false);
    assert t[0] == 'A' && t[6] == 'M';
    assert forall i :: 0 < i < |s| && i != 6 ==> !StartsWord(s, i, false);
    assert t[1..6] == s[1..6] && t[7..] == s[7..];
  }

  /** The title shown for an overlay button: a non-empty `data-title`, else
      the id turned into a title, else the default. */
  function ResolveTitle(dataTitle: Option<string>, id: string): (t: string)
    ensures t != ""
    ensures dataTitle.Some? && dataTitle.value != "" ==> t == dataTitle.value
    ensures dataTitle.GetOr("") == "" && id != "" ==> t == Titleize(id)
    ensures dataTitle.GetOr("") == "" && id == "" ==> t == DefaultTitle
  {
    if dataTitle.Some? && dataTitle.value != "" then dataTitle.value
    else if Titleize(id) != "" then Titleize(id)
    else DefaultTitle
  }

  /** The markup of the template registered for overlay `id`, or "" when
      there is none. `templates` maps each overlay id to its template. */
  function TemplateHtml(templates: map<string, string>, id: string): (h: string)
    ensures id in templates ==> h == templates[id]
    ensures id !in templates ==> h == ""
  {
    if id in templates then templates[id] else ""
  }

  /** The body markup for an overlay button: the template's, else the button's
      `data-content`, else "". */
  function ResolveHtml(templates: map<string, string>, id: string, dataContent: Option<string>): (h: string)
    ensures TemplateHtml(templates, id) != "" ==> h == TemplateHtml(templates, id)
    ensures TemplateHtml(templates, id) == "" ==> h == dataContent.GetOr("")
    ensures h == "" <==> TemplateHtml(templates, id) == "" && dataContent.GetOr("") == ""
  {
    var tpl := TemplateHtml(templates, id);
    if tpl != "" then tpl
    else if dataContent.Some? && dataContent.value != "" then dataContent.value
    else ""
  }
}
