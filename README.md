# AuthenticityCo-Pilot shared navigation, modelled in Dafny

`shared-nav.js` defines the class `AuthenticityCoPilotNav`. It gives the
pages of the AuthenticityCo-Pilot reports site a header bar and a footer bar.
The model covers the part of the class that computes those bars:

- `getNavItemsForPath` lower-cases the page path and picks the navigation
  items with a first-match-wins chain of equality and substring tests.
- `generateNavHTML` renders the items as styled anchors and buttons inside
  fixed branding markup. For the footer it adds a Back-to-Top button.
- `createNavigation` classifies a path once and renders the item list twice,
  once as a header and once as a footer.
- `baseStyles` is the record of inline CSS blocks that the constructor
  writes and the renderer reads.

All of it is pure, so the model is made of functions and lemmas in three
modules:

- `JsString` (`js_string.dfy`) models the two string operations the code
  uses. `toLowerCase` becomes an ASCII character map and `includes` becomes a
  left-to-right substring scan.
- `NavItems` (`nav_items.dfy`) holds the item datatype and the classifier
  `GetNavItemsForPath`.
- `NavHtml` (`nav_html.dfy`) holds the style record `BaseStyles`, the
  renderer `GenerateNavHTML` and `CreateNavigation`.

The style blocks, the hover handlers and the template text are reproduced
character for character. That includes the line breaks and indentation of
the template literals. `baseStyles` (shared-nav.js:8-70) is the constant
`NavHtml.BaseStyles`, written declaration by declaration. As a constant it
has no contract of its own. The one fact the proofs need about it is that no
block holds the Back-to-Top arrow, which `NavHtml.BaseStylesArrowFree`
states.

The renderer takes the style record as a parameter. It stands for the
object's `baseStyles` field, and `CreateNavigation` passes the record that
the constructor builds. Most lemmas about the markup hold for any style
record. The lemmas about `CreateNavigation` instantiate them with
`BaseStyles`.

The comments in `getNavItemsForPath` name three kinds of page: the
"Reports directory" (shared-nav.js:90) gets a Home link, and an "Individual
report" (shared-nav.js:100) is meant to get "Back to Reports and Home". The
code does not make that split. The reports-directory guard
(shared-nav.js:89) tests whether the path *includes* `/reports/`, so every
report page passes it. The individual-report guard (shared-nav.js:99)
implies it, and so its two-item branch never runs. The model follows the
code: every path gets exactly one item, the Reports link on a root path and
the Home link to `../index.html` everywhere else.

## Model

| member | source | states |
|---|---|---|
| JsString.LowerChar | shared-nav.js:77 | The lower-cased character is never an ASCII capital. A character that is not a capital is left unchanged. A capital moves by the fixed offset from `A` to `a`. |
| JsString.Lower | shared-nav.js:77 | `toLowerCase` keeps the length and lower-cases each character in place. |
| JsString.LowerFixesLowerCase | shared-nav.js:77 | The result of lower-casing has no capital letter, and a string without capitals is left unchanged. |
| JsString.LowerIdempotent | shared-nav.js:77 | Lower-casing twice gives the same string as lower-casing once. |
| JsString.Includes | shared-nav.js:89 | `includes` is a scan over every start position; every string includes the empty needle. |
| JsString.IncludesIffOccurs | shared-nav.js:89 | The `includes` scan finds a needle exactly when the needle occurs at some index of the string. |
| JsString.IncludesTransitive | shared-nav.js:89 | A string that includes `mid` includes everything that `mid` includes. |
| JsString.IncludesKeepsChars | shared-nav.js:89 | Every character of an included needle is a character of the string. |
| NavItems.GetNavItemsForPath | shared-nav.js:76-126 | Every path gets exactly one item: the primary Reports link to `reports/index.html` on a root path, the primary Home link to `../index.html` on every other path. The individual-report branch is never taken. |
| NavItems.ClassificationIgnoresCase | shared-nav.js:76-126 | Classifying a path gives the same items as classifying its lower-cased form. |
| NavItems.CaseVariantsClassifiedAlike | shared-nav.js:77-125 | Two paths that agree after lower-casing get the same items. |
| NavItems.RootPathsGetReportsLink | shared-nav.js:79-88 | `''`, `'/'` and `'/index.html'` in any letter case get exactly one item: the primary link to `reports/index.html` labelled "📊 Reports". |
| NavItems.CapitalisedIndexIsRoot | shared-nav.js:77-88 | `/INDEX.HTML` is classified as a root path. |
| NavItems.ReportsIndexIncludesReportsDirectory | shared-nav.js:89 | A path that includes `/reports/index.html` includes `/reports/`, so the first disjunct of the guard is redundant. |
| NavItems.ReportsDirectoryGetsHomeLink | shared-nav.js:79-98 | A path that includes `/reports/index.html` or `/reports/` is never a root path, and it gets exactly one item: the primary Home link to `../index.html`. |
| NavItems.ReportPageBranchUnreachable | shared-nav.js:89-114 | The report-page guard implies the reports-directory guard. No path gets the "← All Reports" item or the `../../index.html` Home link, and every result has length 1. |
| NavItems.ClassificationClosedForm | shared-nav.js:76-126 | The result is the Reports link if and only if the path is a root path. It is the Home link to `../index.html` if and only if the path is not a root path. |
| NavItems.ClassifiedItemsArePrimaryLinks | shared-nav.js:81-124 | Every item the classifier returns is a primary link. |
| NavItems.ReportPageExample | shared-nav.js:99-124 | The report page `/reports/episode42.html` gets the same single Home link as every other non-root path. |
| NavHtml.RenderItem | shared-nav.js:134-145 | An item contributes the empty string exactly when its type is neither 'link' nor 'button'. |
| NavHtml.LinkFragment | shared-nav.js:135-141 | A link renders as `<a href="href" style="…" …>text</a>`. The style is `primaryButton` exactly when the item's style is primary, and `secondaryButton` otherwise. |
| NavHtml.ButtonFragment | shared-nav.js:142-143 | A button renders as `<button onclick="onclick" style="secondaryButton" …>text</button>`. |
| NavHtml.RenderItems | shared-nav.js:134-145 | The joined fragments are empty exactly when no item is a link or a button. |
| NavHtml.RenderItemsAppend | shared-nav.js:134-145 | The map-and-join of two lists concatenated is the two renderings concatenated. |
| NavHtml.RenderItemsInOrder | shared-nav.js:134-145 | Item `i`'s fragment sits between the fragments of the items before it and the items after it, in input order. |
| NavHtml.RenderItemsIncludeEach | shared-nav.js:134-145 | The joined fragments contain each item's fragment. |
| NavHtml.Recognised | shared-nav.js:134-145 | The filtered list is no longer than the input. Every kept item is a 'link' or 'button' item of the input, and every such input item is kept. |
| NavHtml.UnrecognisedItemsVanish | shared-nav.js:134-145 | Rendering all items gives the same text as rendering only the 'link' and 'button' items. |
| NavHtml.ShellIncludesButtons | shared-nav.js:151-164 | The template contains the joined item fragments. |
| NavHtml.GenerateNavHTML | shared-nav.js:131-165 | The output of `generateNavHTML` contains the rendered items. |
| NavHtml.ShellStartsWithMargin | shared-nav.js:151-152 | The template opens with the container's tag, its style block and the margin fragment. |
| NavHtml.ContainerMargin | shared-nav.js:132-152 | The container's style ends with `margin-top: 0;` for the footer and with `margin-bottom: 0;` for the header. |
| NavHtml.Middle | shared-nav.js:152-159 | The text between the margin fragment and the Back-to-Top slot contains the rendered items. |
| NavHtml.ShellSlots | shared-nav.js:151-164 | The template is fixed text around three slots: the margin fragment, the rendered items and the Back-to-Top button. |
| NavHtml.HeaderFooterShapes | shared-nav.js:131-164 | Header and footer of one item list share the text before the margin, the middle and the closing text. The footer alone has the Back-to-Top button, before the closing text. |
| NavHtml.CreateNavigation | shared-nav.js:170-180 | `headerNav` and `footerNav` render the classifier's single item with the constructor's styles, as a header and as a footer: the Reports link on a root path and the Home link elsewhere. |
| NavHtml.HeaderFooterDifferOnlyInSlots | shared-nav.js:170-180 | `createNavigation` renders header and footer from one item list, and they differ only in the margin fragment and the Back-to-Top button. |
| NavHtml.OutputIncludesAnchor | shared-nav.js:134-159 | The output contains `<a href="href" style="` for every link item. |
| NavHtml.NavigationLinkTarget | shared-nav.js:170-180 | Header and footer both contain an anchor to `reports/index.html` on root paths and to `../index.html` on every other path. |
| NavHtml.ArrowInBackToTop | shared-nav.js:149 | The Back-to-Top button holds the arrow that starts its label. |
| NavHtml.BaseStylesArrowFree | shared-nav.js:8-70 | No block of `baseStyles` holds that arrow. |
| NavHtml.ShellArrowFree | shared-nav.js:151-164 | When no style block holds the arrow, the fixed template text and both margin fragments hold none either. |
| NavHtml.RenderItemArrowFree | shared-nav.js:134-145 | When no style block holds the arrow, an item's fragment holds it only if the item's text, href or onclick does. |
| NavHtml.RenderItemsArrowFree | shared-nav.js:134-145 | When no style block holds the arrow, the joined fragments hold none unless an item does. |
| NavHtml.LabelInBackToTop | shared-nav.js:149 | The Back-to-Top button carries the label "⬆️ Back to Top", whose first character is the arrow. |
| NavHtml.FooterHasBackToTop | shared-nav.js:147-160 | For any items and any style record, the footer contains the Back-to-Top button and its label "⬆️ Back to Top". |
| NavHtml.HeaderLacksBackToTop | shared-nav.js:147-160 | When no style block and no item's text, href or onclick holds the arrow, the header contains neither the Back-to-Top button nor its label. |
| NavHtml.HeaderCanHoldLabel | shared-nav.js:134-160 | Without that condition the header can hold the label: a link whose text is "⬆️ Back to Top" puts it there. |
| NavHtml.BackToTopIffFooter | shared-nav.js:147-160 | When no style block and no item holds the arrow, the output contains the Back-to-Top button, and its label, if and only if `isFooter` holds. |
| NavHtml.ClassifiedItemsArrowFree | shared-nav.js:81-124 | None of the classifier's items holds the arrow. |
| NavHtml.NavigationBackToTop | shared-nav.js:170-180 | For every path the footer contains the Back-to-Top button and its label "⬆️ Back to Top"; the header contains neither. |

## Left out

- `autoInit` (shared-nav.js:185-199) is not modelled. It reads `window.location.pathname` and inserts the two bars into the live document.
- The `DOMContentLoaded` listener and the `window.AuthenticityCoPilotNav` export (shared-nav.js:203-209) are not modelled. They are host-environment wiring.
- The runtime effect of the inline handlers (hover colours, `window.scrollTo(0,0)`) and the meaning of the CSS are not modelled. Both are kept only as literal text.
- JsString.Lower maps only the ASCII capitals `A`-`Z`. JavaScript's `toLowerCase` also lower-cases other Unicode letters and can change a string's length. The guards compare only against ASCII text, so such letters never make a path match. Even so, a path made of non-ASCII letters is not modelled exactly.
- The item's `type` and `style` strings are modelled as the datatypes `ItemKind` and `Emphasis`. The renderer tests only `type === 'link'`, `type === 'button'` and `style === 'primary'`. Every other type string becomes `Unrecognised` and every other style string becomes `Secondary`, which the renderer treats the same way.
- A button item without an `onclick` field renders the text `undefined` in JavaScript. In the model, a caller passes that text as the item's `onclick` string. The classifier's items are links, so the field never matters for them.
- Missing or non-string item fields and a non-boolean `isFooter` are not modelled. An item without `text` or `href` renders `undefined` in JavaScript, as a missing `onclick` does. `generateNavHTML` defaults `isFooter` to `false` and tests it for truthiness (shared-nav.js:131-132, 148). The model's fields are strings and its `isFooter` is a `bool`, which covers the two calls `createNavigation` makes.
- HTML escaping is not modelled. The code inserts `href`, `text` and `onclick` unescaped, and the model does the same.
- NavHtml.HeaderLacksBackToTop and NavHtml.BackToTopIffFooter require that the style blocks and the items' text, href and onclick do not contain the arrow `⬆` of the Back-to-Top label. Only the header half needs it: NavHtml.HeaderCanHoldLabel shows an item whose text is the label putting it into the header, and NavHtml.FooterHasBackToTop states the footer half with no condition. NavHtml.NavigationBackToTop discharges the condition for every path that `createNavigation` sees.
