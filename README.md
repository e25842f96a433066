# Wide-canvas portfolio page: verified model of its scroll, hint, width and overlay logic

The page lays five named sections (writing, code, home, music, contact) left to
right on one wide, horizontally scrolling canvas. Buttons scroll a section to the
centre of the viewport. Two edge arrows hint that more content lies to the left
or right. Buttons declared in viewport-width units are resized relative to the
background image. A modal overlay shows extra content. This project models the
logic of `script.js` behind those four features and proves what it promises:

- `Sections`: the section table and the centring offset
  `max(0, left% / 100 * scrollWidth - innerWidth / 2)`. It returns 0 for an
  unknown name or a missing label, and has no upper clamp.
- `EdgeHints`: the arrow decision as a pure function of the scroll range and
  position. It has a 1-px "no range" cutoff and a 2-px tolerance at each end.
  The class `EdgeHintFlags` holds the two arrows' `hidden` flags and updates
  them in place.
- `ButtonWidths`: the conversion `pct = (vw / 100 * vpW) / bgW * 100`. A loop
  applies it in place over the buttons. The whole pass is skipped when either
  width is 0, and a single button is skipped when its `data-wvw` is 0.
- `OverlayTitles`: the fallback chains for an overlay button's title and body.
  The title is built from the id by turning `-` and `_` into spaces and
  upper-casing each word's first character.
- `Overlay`: the content box built on each open, the open, close and Escape
  transitions as functions on the overlay state, and the class `OverlayPanel`
  whose methods perform them in place.
- `Wrappers`: an `Option` type.

All geometry uses exact `real` arithmetic. Each metric (`scrollWidth`,
`clientWidth`, `innerWidth`, the rendered background width, `scrollLeft`) is a
parameter, read at the time of the call. Strings are `seq<char>`.

The model states what the code does, including where it differs from what one
might expect of such a page:
- The section offset is clamped only below, at 0; it is not clamped to the
  scroll range. `Sections.NoUpperClamp` exhibits an offset larger than the
  scroll range. The browser clamps the actual scroll position, which is outside
  this model.
- A canvas no wider than the viewport does not by itself give offset 0. That
  holds only when the anchor lies within half a viewport of the canvas start
  (`Sections.NearStartGivesZero`); `Sections.NoUpperClamp` is a case where it
  does not.
- Closing the overlay does not clear its content. It only hides the overlay
  (`Overlay.Closed`).
- Resize events are not debounced: every resize re-runs the width pass and the
  edge-hint update.

## Model

| member | source | states |
|---|---|---|
| Sections.AnchorPercent | script.js:11-22 | a name has an anchor exactly when it is in the five-entry table and the page has a label at its index; the anchor is that label's left percentage |
| Sections.CenterTarget | script.js:24-27 | scrolling to the target puts the anchor point exactly at the viewport's horizontal centre |
| Sections.SectionOffset | script.js:20-30 | the offset is never negative; it is 0 for an unknown name or a missing label; otherwise it is the least non-negative value not below the centring target (max(0, target)) |
| Sections.PositiveOffsetCentres | script.js:27-29 | a positive offset centres the section's anchor in the viewport |
| Sections.NearStartGivesZero | script.js:27-29 | an anchor within half a viewport of the canvas start gives offset 0 |
| Sections.OffsetMonotone | script.js:25-29 | a section whose anchor lies further right never gets a smaller offset |
| Sections.OffsetUpperBound | script.js:25-29 | for anchors in [0, 100] the offset is 0 or at most the canvas width minus half the viewport |
| Sections.HomeExample | script.js:11-29 | anchors 10/30/50/70/90, canvas 2000, viewport 400: "home" resolves to 800 |
| Sections.NoUpperClamp | script.js:29 | no upper clamp: with canvas and viewport both 1000, "contact" resolves to 400, beyond the scroll range 0 |
| Sections.UnknownNameGivesZero | script.js:21-22 | any name outside the table resolves to 0 whatever the metrics |
| EdgeHints.ScrollRange | script.js:178 | the scroll range is max(0, scrollWidth - clientWidth) |
| EdgeHints.Decide | script.js:181-188 | at range <= 1 both arrows are hidden; otherwise the left one is hidden exactly when x <= 2 and the right one exactly when x >= range - 2 |
| EdgeHints.BothHiddenIff | script.js:181-188 | both arrows are hidden iff range <= 1 or x is within 2 px of both ends |
| EdgeHints.WideRangeShowsAnArrow | script.js:186-188 | for a range over 4 px at least one arrow is shown at every position |
| EdgeHints.AtTheEnds | script.js:186-188 | for a range over 2 px, at position 0 only the right arrow shows and at the far end only the left one shows |
| EdgeHints.MonotoneInPosition | script.js:187-188 | as x grows the left arrow only goes from hidden to shown and the right one only from shown to hidden |
| EdgeHints.LeftToleranceExample | script.js:187 | on a scrollable page x = 1 hides the left arrow and x = 3 shows it |
| EdgeHints.EdgeHintFlags.ShowArrows | script.js:166-169 | each arrow that exists loses `hidden`; a missing one is untouched |
| EdgeHints.EdgeHintFlags.HideArrows | script.js:170-173 | each arrow that exists gets `hidden`; a missing one is untouched |
| EdgeHints.EdgeHintFlags.Update | script.js:175-189 | no-op when either arrow is missing; otherwise the flags become the decision for the current range and position, independent of the old flags |
| EdgeHints.UpdateTwice | script.js:175-189 | a second update with unchanged metrics leaves the flags as the first one set them |
| ButtonWidths.OrElse | script.js:150-151 | the JavaScript `a \|\| b` fallback on numbers: a unless it is 0, then b; 0 only when both are 0 |
| ButtonWidths.BackgroundWidth | script.js:150 | the background's rendered width, or the scroll area's scroll width when the rendered width is 0 |
| ButtonWidths.ViewportWidth | script.js:151 | the window's inner width, or the document's client width when the inner width is 0 |
| ButtonWidths.WidthPercent | script.js:159-160 | the percentage of the background width equals, in pixels, vw viewport-width units of the viewport |
| ButtonWidths.SameWidthKeepsValue | script.js:159-160 | when background and viewport are equally wide the percentage equals the vw value |
| ButtonWidths.Resized | script.js:153-161 | a button keeps its width when the background or viewport width or its own vw is 0; otherwise it gets a width whose pixel size matches its vw |
| ButtonWidths.ResizedAll | script.js:155-162 | every button is resized independently and the number of buttons is unchanged |
| ButtonWidths.UnmeasuredSkipsPass | script.js:153 | with background or viewport width 0 no button changes |
| ButtonWidths.ZeroWvwKept | script.js:156-161 | a button with vw 0 keeps its width while another button is still sized |
| ButtonWidths.PassIsIdempotent | script.js:155-162 | a second pass with the same metrics changes nothing |
| ButtonWidths.ApplyButtonWidths | script.js:147-163 | without a background image nothing changes; otherwise the buttons become the resized pass over the old buttons, with the background and viewport widths chosen by their fallbacks |
| OverlayTitles.ToUpper | script.js:135 | a lower-case ASCII letter becomes its upper-case letter; every other character is kept |
| OverlayTitles.SpaceSeparators | script.js:135 | every `-` and `_` becomes a space and nothing else changes |
| OverlayTitles.CapitalizeWords | script.js:135 | exactly the characters that start a word (a word character not preceded by one) are upper-cased |
| OverlayTitles.Titleize | script.js:135 | the title is as long as the id; position i holds the separator-spaced id's character, upper-cased exactly when i starts a word |
| OverlayTitles.TitleizeShape | script.js:135 | a derived title is as long as the id, holds no `-` or `_`, has spaces exactly at the id's separators and spaces, and starts no word with a lower-case letter |
| OverlayTitles.TitleizeIdempotent | script.js:135 | deriving a title from a derived title changes nothing |
| OverlayTitles.TitleizeExample | script.js:134-135 | the id "about-me" yields the title "About Me" |
| OverlayTitles.ResolveTitle | script.js:135 | the title is never empty: a non-empty data-title, else the derived title of a non-empty id, else "Coming Soon" |
| OverlayTitles.TemplateHtml | script.js:63-67 | the markup of the template registered for the id when there is one, else "" |
| OverlayTitles.ResolveHtml | script.js:136 | the body is the template markup, else the data-content, else ""; it is empty exactly when both are empty |
| Overlay.Frame | script.js:72-95 | the fresh box is the close button, the title, then the markup; reading it back gives the title and markup; empty markup gives the placeholder paragraph |
| Overlay.FrameInjective | script.js:72-95 | different titles or markup give different boxes |
| Overlay.Opened | script.js:69-102 | no-op without the overlay or its content box; otherwise the overlay is open, not aria-hidden, and its whole content is the fresh box for the given title and markup (defaults "Coming Soon" and none): close button, title, markup or placeholder |
| Overlay.Closed | script.js:104-108 | no-op without the overlay; otherwise not open and aria-hidden, content kept |
| Overlay.KeyDown | script.js:124-128 | only Escape on an open overlay changes anything, and it then closes it |
| Overlay.TransitionsKeepConsistent | script.js:100-107 | open, close and key presses keep aria-hidden the negation of is-open |
| Overlay.OpenReplaces | script.js:97-98 | a second open leaves exactly what opening once with its arguments leaves |
| Overlay.ContactThenMusic | script.js:87-101 | opening "Contact" without markup then "Music" with "<p>x</p>" shows only Music's box |
| Overlay.CloseIdempotent | script.js:104-108 | closing twice is closing once |
| Overlay.EscapeIsClose | script.js:124-127 | on a consistent overlay Escape has exactly the effect of the close button |
| Overlay.OverlayPanel.Open | script.js:69-102 | the panel's new state is the opened state |
| Overlay.OverlayPanel.Close | script.js:104-108 | the panel's new state is the closed state |
| Overlay.OverlayPanel.OnKeyDown | script.js:124-128 | the panel's new state is the key-press transition |
| Overlay.OverlayPanel.OnOverlayButtonClick | script.js:133-138 | a click opens the overlay with the resolved title and body |
| Overlay.OverlayClient | script.js:69-108 | opening Contact, then Music, then closing twice leaves a hidden overlay holding Music's box |

## Left out

- DOM queries and listener registration (section buttons, overlay buttons, the wrapper's scroll listener, the resize listener, the arrow click listeners, script.js:1-8, 38-57, 111-121, 199-207) are wiring. The presence of the arrows, the background image, the overlay and its content box is a parameter of the model; their values are parameters too.
- The `.wrapper` and `.scroll-area` elements are assumed to exist. Without them the script throws a TypeError (script.js:26, 178, 203); the model has no such error path.
- The overlay's two click handlers (close button, click outside the content box, script.js:111-121) are listener wiring. Both route to the close operation, which is modelled.
- Actual scrolling (`scrollTo` and `scrollBy` with smooth behaviour, script.js:32-35, 191-194) is done by the browser, which animates it and clamps the position.
- `nudge` and `NUDGE` (script.js:191-200) scroll by a rounded 20% of the viewport width, negative for the left arrow and positive for the right. This needs IEEE rounding and the browser's scrolling, so it is not modelled.
- Timing is not modelled: the 250 ms re-sync after a nudge, `requestAnimationFrame`, and the image-load gating of the initial layout (script.js:193, 209-238). These are event-loop scheduling.
- `parseFloat` of the label's `left` style and of `data-wvw` (script.js:25, 156) is not modelled. Inputs are already-parsed reals, so NaN from unparsable text is not modelled.
- Markup is an opaque string. Template and body parsing by `innerHTML` (script.js:66, 89) is not modelled.
- IEEE floating point is replaced by exact reals.
- Section-table keys inherited from JavaScript's object prototype (such as "constructor") are not in the model's table. In the source they also end at offset 0, because no label exists at a non-numeric index.
- EdgeHints.EdgeHintFlags.Update: the two arrows are separate flags. A page where one element matches both arrow selectors (aliasing) is not modelled.
- ButtonWidths.Resized: a negative `data-wvw` gives a negative percentage, which the model stores as the button's width. The browser rejects a negative CSS width and keeps the old one; that rejection is not modelled.
- Overlay.OverlayPanel: only the `is-open` class is modelled. The overlay's other classes and the close button's attributes (type, aria-label, text) are not.
