/** The overlay controller: a modal panel with a close button, a title and a
    body, opened by overlay buttons and closed by its close button, a click on
    the backdrop or the Escape key. */
module Overlay {
  import opened Wrappers
  import OverlayTitles

  const PlaceholderText: string := "I\U{2019}ll fill this with images/text later."

  /** A child of the overlay's content box. */
  datatype Node =
    | CloseButton              // the "✕" button labelled "Close"
    | Heading(text: string)    // the `h2` with id "overlay-title"
    | Markup(html: string)     // a `div` holding the body markup
    | Paragraph(text: string)  // a plain paragraph

  /** The title a content box shows, if it has one. */
  function ShownTitle(f: seq<Node>): Option<string>
  {
    if |f| >= 2 && f[1].Heading? then Some(f[1].text) else None
  }

  /** The body markup a content box shows; "" when it shows none. */
  function ShownHtml(f: seq<Node>): string
  {
    if |f| >= 3 && f[2].Markup? then f[2].html else ""
  }

  /** The fresh content box for an overlay: the close button, then the
      title, then the body markup, or the placeholder paragraph when the
      markup is empty. Reading the box back gives the title and markup. */
  function Frame(title: string, html: string): (f: seq<Node>)
    ensures |f| == 3 && f[0] == CloseButton
    ensures ShownTitle(f) == Some(title)
    ensures ShownHtml(f) == html
    ensures html == "" ==> f[2] == Paragraph(PlaceholderText)
  {
    [CloseButton, Heading(title), if html != "" then Markup(html) else Paragraph(PlaceholderText)]
  }

  /** Two opens show the same box only for the same title and markup. */
  lemma FrameInjective(t1: string, h1: string, t2: string, h2: string)
    requires Frame(t1, h1) == Frame(t2, h2)
    ensures t1 == t2 && h1 == h2
  {
    assert ShownTitle(Frame(t1, h1)) == ShownTitle(Frame(t2, h2));
    assert ShownHtml(Frame(t1, h1)) == ShownHtml(Frame(t2, h2));
  }

  /** The observable state of the overlay. `hasOverlay` and `hasContent` say
      whether the page has the overlay element and its content box;
      `isOpen` is the `is-open` class, `ariaHidden` the `aria-hidden`
      attribute, `content` the content box's children. */
  datatype OverlayState = OverlayState(hasOverlay: bool, hasContent: bool,
                                       isOpen: bool, ariaHidden: bool, content: seq<Node>)

  /** The state after opening with the given title and markup (each absent
      argument takes its default: "Coming Soon" and no markup). */
  function Opened(s: OverlayState, title: Option<string>, html: Option<string>): (r: OverlayState)
    ensures r.hasOverlay == s.hasOverlay && r.hasContent == s.hasContent
    ensures !(s.hasOverlay && s.hasContent) ==> r == s
    ensures s.hasOverlay && s.hasContent ==>
      r.isOpen && !r.ariaHidden &&
      ShownTitle(r.content) == Some(title.GetOr(OverlayTitles.DefaultTitle)) &&
      ShownHtml(r.content) == html.GetOr("") && |r.content| == 3
    ensures s.hasOverlay && s.hasContent ==>
      r.content == Frame(title.GetOr(OverlayTitles.DefaultTitle), html.GetOr(""))
  {
    if !s.hasOverlay || !s.hasContent then s
    else s.(isOpen := true, ariaHidden := false,
             content := Frame(title.GetOr(OverlayTitles.DefaultTitle), html.GetOr("")))
  }

  /** The state after closing: hidden, content left as it was. */
  function Closed(s: OverlayState): (r: OverlayState)
    ensures r.hasOverlay == s.hasOverlay && r.hasContent == s.hasContent && r.content == s.content
    ensures s.hasOverlay ==> !r.isOpen && r.ariaHidden
    ensures !s.hasOverlay ==> r == s
  {
    if !s.hasOverlay then s else s.(isOpen := false, ariaHidden := true)
  }

  /** The state after a key press: Escape closes an open overlay; every other
      key, and Escape on a closed overlay, changes nothing. */
  function KeyDown(s: OverlayState, key: string): (r: OverlayState)
    ensures r != s ==> key == "Escape" && s.hasOverlay && s.isOpen
    ensures key == "Escape" && s.isOpen ==> r == Closed(s)
  {
    if key == "Escape" && s.hasOverlay && s.isOpen then Closed(s) else s
  }

  /** `aria-hidden` says the opposite of `is-open`. */
  predicate Consistent(s: OverlayState)
  {
    s.hasOverlay ==> s.ariaHidden == !s.isOpen
  }

  /** Opening, closing and key presses keep `aria-hidden` consistent. */
  lemma TransitionsKeepConsistent(s: OverlayState, title: Option<string>, html: Option<string>, key: string)
    requires Consistent(s)
    ensures Consistent(Opened(s, title, html))
    ensures Consistent(Closed(s))
    ensures Consistent(KeyDown(s, key))
  {
  }

  /** A second open replaces the first one's content entirely: nothing of the
      earlier open survives. */
  lemma OpenReplaces(s: OverlayState, t1: Option<string>, h1: Option<string>,
                     t2: Option<string>, h2: Option<string>)
    ensures Opened(Opened(s, t1, h1), t2, h2) == Opened(s, t2, h2)
  {
  }

  /** Opening "Contact" without markup and then "Music" with markup shows
      Music's title and markup only. */
  lemma ContactThenMusic(s: OverlayState)
    requires s.hasOverlay && s.hasContent
    ensures Opened(Opened(s, Some("Contact"), Some("")), Some("Music"), Some("<p>x</p>")).content
            == [CloseButton, Heading("Music"), Markup("<p>x</p>")]
  {
    OpenReplaces(s, Some("Contact"), Some(""), Some("Music"), Some("<p>x</p>"));
  }

  /** Closing twice is closing once. */
  lemma CloseIdempotent(s: OverlayState)
    ensures Closed(Closed(s)) == Closed(s)
  {
  }

  /** On a consistent overlay, Escape does exactly what the close button
      does: a closed overlay stays as it is. */
  lemma EscapeIsClose(s: OverlayState)
    requires Consistent(s)
    ensures KeyDown(s, "Escape") == Closed(s)
  {
  }

  /** The overlay element of the page, updated in place. */
  class OverlayPanel {
    const hasOverlay: bool
    const hasContent: bool
    var isOpen: bool
    var ariaHidden: bool
    var content: seq<Node>

    function State(): OverlayState
      reads this
    {
      OverlayState(hasOverlay, hasContent, isOpen, ariaHidden, content)
    }

    constructor (hasOverlay: bool, hasContent: bool, isOpen: bool, ariaHidden: bool, content: seq<Node>)
      ensures State() == OverlayState(hasOverlay, hasContent, isOpen, ariaHidden, content)
    {
      this.hasOverlay, this.hasContent := hasOverlay, hasContent;
      this.isOpen, this.ariaHidden, this.content := isOpen, ariaHidden, content;
    }

    /** Builds a fresh content box, swaps it in and shows the overlay. */
    method Open(title: Option<string>, html: Option<string>)
      modifies this
      ensures State() == Opened(old(State()), title, html)
    {
      if !hasOverlay || !hasContent {
        return;
      }
      var t := title.GetOr(OverlayTitles.DefaultTitle);
      var h := html.GetOr("");
      var frag := [CloseButton];
      frag := frag + [Heading(t)];
      if h != "" {
        frag := frag + [Markup(h)];
      } else {
        frag := frag + [Paragraph(PlaceholderText)];
      }
      content := [];
      content := content + frag;
      isOpen := true;
      ariaHidden := false;
    }

    /** Hides the overlay. */
    method Close()
      modifies this
      ensures State() == Closed(old(State()))
    {
      if !hasOverlay {
        return;
      }
      isOpen := false;
      ariaHidden := true;
    }

    /** The window's key handler. */
    method OnKeyDown(key: string)
      modifies this
      ensures State() == KeyDown(old(State()), key)
    {
      if key == "Escape" && hasOverlay && isOpen {
        Close();
      }
    }

    /** A click on an overlay button with the given overlay id, `data-title`
        and `data-content`, where `templates` maps overlay ids to template
        markup. */
    method OnOverlayButtonClick(id: string, dataTitle: Option<string>, dataContent: Option<string>,
                                templates: map<string, string>)
      modifies this
      ensures State() == Opened(old(State()),
                                Some(OverlayTitles.ResolveTitle(dataTitle, id)),
                                Some(OverlayTitles.ResolveHtml(templates, id, dataContent)))
    {
      var title := OverlayTitles.ResolveTitle(dataTitle, id);
      var html := OverlayTitles.ResolveHtml(templates, id, dataContent);
      Open(Some(title), Some(html));
    }
  }

  /** A client: open "Contact" with no markup, then "Music" with markup, then
      close twice. */
  method OverlayClient(panel: OverlayPanel)
    requires panel.hasOverlay && panel.hasContent
    modifies panel
    ensures !panel.isOpen && panel.ariaHidden
    ensures panel.content == [CloseButton, Heading("Music"), Markup("<p>x</p>")]
  {
    panel.Open(Some("Contact"), Some(""));
    assert panel.content[2] == Paragraph(PlaceholderText);
    panel.Open(Some("Music"), Some("<p>x</p>"));
    assert panel.isOpen && ShownTitle(panel.content) == Some("Music");
    panel.Close();
    var once := panel.State();
    panel.Close();
    assert panel.State() == once;
  }
}
