/** The markup side of `AuthenticityCoPilotNav`: the `baseStyles` record its
    constructor writes, `generateNavHTML` and `createNavigation`. Style blocks
    and inline event-handler attributes are literal text. */
module NavHtml {
  import opened JsString
  import opened NavItems

  /** The `baseStyles` record. The constructor writes it once and nothing
      changes it afterwards. */
  datatype Styles = Styles(
    container: string,
    flexContainer: string,
    branding: string,
    brandingTitle: string,
    brandingSubtitle: string,
    navContainer: string,
    primaryButton: string,
    secondaryButton: string)

  /** One declaration of a style block on its own line: sixteen spaces of
      indentation, `property: value;` and a line break. A block opens with a
      line break and closes with the twelve spaces before the closing quote
      of its template literal. The longer values are written as several
      literals joined by `+`; the text is the same, and the proofs that a
      block lacks a character then work on short pieces. */
  function Declaration(property: string, value: string): string {
    "                " + property + ": " + value + ";\n"
  }

  const ContainerStyle :=
    "\n"
    + Declaration("margin-bottom", "0")
    + Declaration("padding", "12px 20px")
    + Declaration("background", "linear-gradient(180deg, " + "rgba(30,41,59,0.6) 0%, " + "rgba(15,23,42,0.6) 100%)")
    + Declaration("border-bottom", "1px solid " + "rgba(148,163,184,0.1)")
    + Declaration("border-radius", "0")
    + Declaration("box-shadow", "none")
    + Indent12

  const FlexContainerStyle :=
    "\n"
    + Declaration("display", "flex")
    + Declaration("justify-content", "space-between")
    + Declaration("align-items", "center")
    + Declaration("flex-wrap", "wrap")
    + Declaration("gap", "20px")
    + Indent12

  const BrandingStyle :=
    "\n"
    + Declaration("font-size", "10px")
    + Declaration("color", "#64748b")
    + Indent12

  const BrandingTitleStyle :=
    "\n"
    + Declaration("margin", "0")
    + Declaration("color", "#94a3b8")
    + Declaration("font-weight", "500")
    + Declaration("font-size", "11px")
    + Indent12

  const BrandingSubtitleStyle :=
    "\n"
    + Declaration("margin", "2px 0 0 0")
    + Declaration("font-size", "9px")
    + Declaration("opacity", "0.8")
    + Indent12

  const NavContainerStyle :=
    "\n"
    + Declaration("display", "flex")
    + Declaration("gap", "15px")
    + Declaration("flex-wrap", "wrap")
    + Declaration("align-items", "center")
    + Indent12

  const PrimaryButtonStyle :=
    "\n"
    + Declaration("display", "inline-block")
    + Declaration("background", "#3b82f6")
    + Declaration("color", "white")
    + Declaration("padding", "8px 16px")
    + Declaration("text-decoration", "none")
    + Declaration("border-radius", "6px")
    + Declaration("font-weight", "500")
    + Declaration("font-size", "14px")
    + Declaration("transition", "all 0.3s")
    + Declaration("box-shadow", "0 0 12px " + "rgba(59,130,246,0.4)")
    + Indent12

  const SecondaryButtonStyle :=
    "\n"
    + Declaration("display", "inline-block")
    + Declaration("background", "transparent")
    + Declaration("color", "#cbd5e1")
    + Declaration("padding", "8px 16px")
    + Declaration("text-decoration", "none")
    + Declaration("border-radius", "6px")
    + Declaration("font-weight", "500")
    + Declaration("font-size", "14px")
    + Declaration("border", "1px solid " + "rgba(203,213,225,0.2)")
    + Declaration("transition", "all 0.3s")
    + Declaration("cursor", "pointer")
    + Indent12

  const BaseStyles := Styles(
    ContainerStyle,
    FlexContainerStyle,
    BrandingStyle,
    BrandingTitleStyle,
    BrandingSubtitleStyle,
    NavContainerStyle,
    PrimaryButtonStyle,
    SecondaryButtonStyle)

  /** An inline event-handler attribute, `event="code"`. */
  function Handler(event: string, code: string): string {
    event + "=\"" + code + "\""
  }

  /** One statement of a hover handler, `this.style.property='value'`. */
  function StyleAssignment(property: string, value: string): string {
    "this.style." + property + "='" + value + "'"
  }

  /** Hover handlers of a primary link. */
  const PrimaryHover :=
    Handler("onmouseover", StyleAssignment("background", "#2563eb") + "; " + StyleAssignment("transform", "translateY(-1px)"))
    + " "
    + Handler("onmouseout", StyleAssignment("background", "#3b82f6") + "; " + StyleAssignment("transform", "translateY(0)"))

  /** Hover handlers of a secondary link and of every button. */
  const SecondaryHover :=
    Handler("onmouseover", StyleAssignment("borderColor", "rgba(203,213,225,0.4)") + "; " + StyleAssignment("color", "#e2e8f0"))
    + " "
    + Handler("onmouseout", StyleAssignment("borderColor", "rgba(203,213,225,0.2)") + "; " + StyleAssignment("color", "#cbd5e1"))

  /** The opening tag of a link's anchor. */
  function AnchorOpen(href: string, css: string, hover: string): string {
    "<a href=\"" + href + "\" style=\"" + css + "\" " + hover + ">"
  }

  /** The opening tag of a button. */
  function ButtonOpen(onclick: string, css: string, hover: string): string {
    "<button onclick=\"" + onclick + "\" style=\"" + css + "\" " + hover + ">"
  }

  /** A link is styled with the primary block exactly when its style is
      primary; every other style gets the secondary block. */
  function ButtonStyle(styles: Styles, style: Emphasis): string {
    if style == Primary then styles.primaryButton else styles.secondaryButton
  }

  function HoverEvents(style: Emphasis): string {
    if style == Primary then PrimaryHover else SecondaryHover
  }

  /** The fragment one item contributes: an anchor for a link, a
      secondary-styled button for a button, and, since `map` yields undefined
      and `join` turns that into the empty string, nothing for any other
      type. */
  function RenderItem(styles: Styles, item: NavItem): (r: string)
    ensures r == [] <==> item.kind == Unrecognised
  {
    match item.kind
    case Link => AnchorOpen(item.href, ButtonStyle(styles, item.style), HoverEvents(item.style)) + (item.text + "</a>")
    case Button => ButtonOpen(item.onclick, styles.secondaryButton, SecondaryHover) + (item.text + "</button>")
    case Unrecognised => ""
  }

  /** `navItems.map(...).join('')`: empty exactly when no item is a link or
      a button. */
  function RenderItems(styles: Styles, items: seq<NavItem>): (r: string)
    ensures r == [] <==> forall item :: item in items ==> item.kind == Unrecognised
  {
    if items == [] then "" else RenderItem(styles, items[0]) + RenderItems(styles, items[1..])
  }

  const BackToTopLabel := "⬆️ Back to Top"

  /** The footer's extra button, which scrolls the window back to the top. */
  function BackToTopButton(styles: Styles): string {
    ButtonOpen("window.scrollTo(0,0)", styles.secondaryButton, SecondaryHover) + (BackToTopLabel + "</button>")
  }

  /** A line of the returned template: a line break, the indentation and the
      text. */
  function Line(indent: string, text: string): string {
    "\n" + indent + text
  }

  const Indent8 := "        "
  const Indent12 := "            "
  const Indent16 := "                "
  const Indent20 := "                    "
  const Indent24 := "                        "

  /** An opening tag carrying a style attribute. */
  function StyledOpen(tag: string, css: string): string {
    "<" + tag + " style=\"" + css + "\">"
  }

  const BrandName := "AuthenticityCo-Pilot"
  const Tagline := "Advanced Podcast Coaching Analysis" + " • " + "Evidence-based insights"

  /** The outer container up to its margin fragment; its style attribute is
      left open for that fragment. */
  function ContainerOpen(styles: Styles): string {
    Line(Indent12, "<div style=\"" + styles.container + " ")
  }

  /** From the end of the container's opening tag to the first item: the
      branding column and the opening of the navigation row. */
  function Branding(styles: Styles): string {
    Line(Indent16, StyledOpen("div", styles.flexContainer))
    + Line(Indent20, StyledOpen("div", styles.branding))
    + Line(Indent24, StyledOpen("p", styles.brandingTitle) + BrandName + "</p>")
    + Line(Indent24, StyledOpen("p", styles.brandingSubtitle) + Tagline + "</p>")
    + Line(Indent20, "</div>")
    + Line(Indent20, StyledOpen("div", styles.navContainer))
    + Line(Indent24, "")
  }

  const ButtonsGap := Line(Indent24, "")

  const ShellClose :=
    Line(Indent20, "</div>")
    + Line(Indent16, "</div>")
    + Line(Indent12, "</div>")
    + Line(Indent8, "")

  /** The returned template literal as a function of its four interpolated
      values. */
  function NavShell(styles: Styles, marginStyle: string, navButtonsHTML: string, backToTopButton: string): string {
    ContainerOpen(styles) + marginStyle + "\">" + Branding(styles) + navButtonsHTML + ButtonsGap + backToTopButton + ShellClose
  }

  const MarginHeader := "margin-bottom: 0;"
  const MarginFooter := "margin-top: 0;"

  function MarginStyle(isFooter: bool): string {
    if isFooter then MarginFooter else MarginHeader
  }

  function BackToTop(styles: Styles, isFooter: bool): string {
    if isFooter then BackToTopButton(styles) else ""
  }

  /** `generateNavHTML(navItems, isFooter)`, where `styles` is the object's
      `baseStyles`. The output holds the rendered items. */
  function GenerateNavHTML(styles: Styles, items: seq<NavItem>, isFooter: bool): (r: string)
    ensures Includes(r, RenderItems(styles, items))
  {
    var buttons := RenderItems(styles, items);
    ShellIncludesButtons(styles, MarginStyle(isFooter), buttons, BackToTop(styles, isFooter));
    NavShell(styles, MarginStyle(isFooter), buttons, BackToTop(styles, isFooter))
  }

  /** The result of `createNavigation`. */
  datatype Navigation = Navigation(headerNav: string, footerNav: string)

  /** `createNavigation(currentPath)`: one classification, rendered twice with
      the styles the constructor set. */
  function CreateNavigation(currentPath: string): (r: Navigation)
    ensures var items := if IsRootPath(currentPath) then [ReportsLink] else [HomeLink];
      && r.headerNav == GenerateNavHTML(BaseStyles, items, false)
      && r.footerNav == GenerateNavHTML(BaseStyles, items, true)
  {
    var items := GetNavItemsForPath(currentPath);
    Navigation(GenerateNavHTML(BaseStyles, items, false), GenerateNavHTML(BaseStyles, items, true))
  }

  /** A link item renders as an anchor to its `href`, styled with the primary
      button block exactly when its style is primary, and closing with its
      text. */
  lemma LinkFragment(styles: Styles, item: NavItem)
    requires item.kind == Link
    ensures StartsWith(RenderItem(styles, item),
      "<a href=\"" + item.href + "\" style=\""
      + (if item.style == Primary then styles.primaryButton else styles.secondaryButton) + "\" ")
    ensures EndsWith(RenderItem(styles, item), ">" + item.text + "</a>")
  {
    var lead := "<a href=\"" + item.href + "\" style=\"" + ButtonStyle(styles, item.style) + "\" ";
    var hover := HoverEvents(item.style);
    var rest := item.text + "</a>";
    StartsWithConcat(lead, hover);
    StartsWithAppend(lead + hover, ">", lead);
    StartsWithAppend(lead + hover + ">", rest, lead);
    AppendAssoc(lead + hover, ">", rest);
    EndsWithConcat(lead + hover, ">" + rest);
    AppendAssoc(">", item.text, "</a>");
  }

  /** A button item renders as a secondary-styled button running its
      `onclick`, closing with its text. */
  lemma ButtonFragment(styles: Styles, item: NavItem)
    requires item.kind == Button
    ensures StartsWith(RenderItem(styles, item),
      "<button onclick=\"" + item.onclick + "\" style=\"" + styles.secondaryButton + "\" ")
    ensures EndsWith(RenderItem(styles, item), ">" + item.text + "</button>")
  {
    var lead := "<button onclick=\"" + item.onclick + "\" style=\"" + styles.secondaryButton + "\" ";
    var rest := item.text + "</button>";
    StartsWithConcat(lead, SecondaryHover);
    StartsWithAppend(lead + SecondaryHover, ">", lead);
    StartsWithAppend(lead + SecondaryHover + ">", rest, lead);
    AppendAssoc(lead + SecondaryHover, ">", rest);
    EndsWithConcat(lead + SecondaryHover, ">" + rest);
    AppendAssoc(">", item.text, "</button>");
  }

  /** Rendering a concatenation renders each part in turn. */
  lemma {:induction false} RenderItemsAppend(styles: Styles, a: seq<NavItem>, b: seq<NavItem>)
    ensures RenderItems(styles, a + b) == RenderItems(styles, a) + RenderItems(styles, b)
  {
    if a == [] {
      assert a + b == b;
      AppendEmpty(RenderItems(styles, b));
    } else {
      assert (a + b)[0] == a[0] && (a + b)[1..] == a[1..] + b;
      RenderItemsAppend(styles, a[1..], b);
      AppendAssoc(RenderItem(styles, a[0]), RenderItems(styles, a[1..]), RenderItems(styles, b));
    }
  }

  /** Items are rendered in input order: the fragment of item `i` sits
      between the fragments of the items before it and those after it. */
  lemma RenderItemsInOrder(styles: Styles, items: seq<NavItem>, i: nat)
    requires i < |items|
    ensures RenderItems(styles, items)
      == RenderItems(styles, items[..i]) + RenderItem(styles, items[i]) + RenderItems(styles, items[i + 1..])
  {
    var before, item, after := items[..i], items[i], items[i + 1..];
    assert items == before + ([item] + after);
    RenderItemsAppend(styles, before, [item] + after);
    assert ([item] + after)[0] == item && ([item] + after)[1..] == after;
    AppendAssoc(RenderItems(styles, before), RenderItem(styles, item), RenderItems(styles, after));
  }

  /** The rendered list contains each item's fragment. */
  lemma RenderItemsIncludeEach(styles: Styles, items: seq<NavItem>, i: nat)
    requires i < |items|
    ensures Includes(RenderItems(styles, items), RenderItem(styles, items[i]))
  {
    RenderItemsInOrder(styles, items, i);
    var before, fragment := RenderItems(styles, items[..i]), RenderItem(styles, items[i]);
    IncludesSelf(fragment);
    IncludesExtend(fragment, fragment, before, "");
    IncludesExtend(before + fragment, fragment, "", RenderItems(styles, items[i + 1..]));
  }

  /** The items of type 'link' or 'button', in order. */
  function Recognised(items: seq<NavItem>): (r: seq<NavItem>)
    ensures |r| <= |items|
    ensures forall item :: item in r ==> item in items && item.kind != Unrecognised
    ensures forall item :: item in items && item.kind != Unrecognised ==> item in r
  {
    if items == [] then []
    else if items[0].kind == Unrecognised then Recognised(items[1..])
    else [items[0]] + Recognised(items[1..])
  }

  /** Items of any other type contribute the empty string: the rendering
      equals that of the recognised items alone. */
  lemma {:induction false} UnrecognisedItemsVanish(styles: Styles, items: seq<NavItem>)
    ensures RenderItems(styles, Recognised(items)) == RenderItems(styles, items)
  {
    if items != [] {
      UnrecognisedItemsVanish(styles, items[1..]);
      var rest := Recognised(items[1..]);
      if items[0].kind == Unrecognised {
        AppendEmpty(RenderItems(styles, items[1..]));
      } else {
        assert ([items[0]] + rest)[0] == items[0] && ([items[0]] + rest)[1..] == rest;
      }
    }
  }

  /** The template holds the rendered items. */
  lemma ShellIncludesButtons(styles: Styles, marginStyle: string, navButtonsHTML: string, backToTopButton: string)
    ensures Includes(NavShell(styles, marginStyle, navButtonsHTML, backToTopButton), navButtonsHTML)
  {
    var before := ContainerOpen(styles) + marginStyle + "\">" + Branding(styles);
    var buttons := navButtonsHTML;
    IncludesSelf(buttons);
    IncludesExtend(buttons, buttons, before, "");
    IncludesExtend(before + buttons, buttons, "", ButtonsGap);
    IncludesExtend(before + buttons + ButtonsGap, buttons, "", backToTopButton);
    IncludesExtend(before + buttons + ButtonsGap + backToTopButton, buttons, "", ShellClose);
  }

  /** The template opens with the container and the margin fragment. */
  lemma ShellStartsWithMargin(styles: Styles, marginStyle: string, navButtonsHTML: string, backToTopButton: string)
    ensures StartsWith(NavShell(styles, marginStyle, navButtonsHTML, backToTopButton),
      ContainerOpen(styles) + marginStyle + "\">")
  {
    var head := ContainerOpen(styles) + marginStyle + "\">";
    StartsWithConcat(head, Branding(styles));
    StartsWithAppend(head + Branding(styles), navButtonsHTML, head);
    StartsWithAppend(head + Branding(styles) + navButtonsHTML, ButtonsGap, head);
    StartsWithAppend(head + Branding(styles) + navButtonsHTML + ButtonsGap, backToTopButton, head);
    StartsWithAppend(head + Branding(styles) + navButtonsHTML + ButtonsGap + backToTopButton, ShellClose, head);
  }

  /** The outer container's style is the container block followed by the
      margin fragment: 'margin-top: 0;' for the footer, 'margin-bottom: 0;'
      for the header. */
  lemma ContainerMargin(styles: Styles, items: seq<NavItem>, isFooter: bool)
    ensures StartsWith(GenerateNavHTML(styles, items, isFooter),
      ContainerOpen(styles) + (if isFooter then "margin-top: 0;" else "margin-bottom: 0;") + "\">")
  {
    ShellStartsWithMargin(styles, MarginStyle(isFooter), RenderItems(styles, items), BackToTop(styles, isFooter));
  }

  /** The text between the margin fragment and the Back-to-Top slot: the
      end of the container's opening tag, the branding column, the opening of
      the navigation row and the rendered items. */
  function Middle(styles: Styles, navButtonsHTML: string): (r: string)
    ensures Includes(r, navButtonsHTML)
  {
    MiddleIncludesButtons(styles, navButtonsHTML);
    "\">" + Branding(styles) + navButtonsHTML + ButtonsGap
  }

  lemma MiddleIncludesButtons(styles: Styles, buttons: string)
    ensures Includes("\">" + Branding(styles) + buttons + ButtonsGap, buttons)
  {
    IncludesSelf(buttons);
    IncludesExtend(buttons, buttons, "\">" + Branding(styles), "");
    IncludesExtend("\">" + Branding(styles) + buttons, buttons, "", ButtonsGap);
  }

  /** The template is the same text around its margin and Back-to-Top slots. */
  lemma ShellSlots(styles: Styles, marginStyle: string, navButtonsHTML: string, backToTopButton: string)
    ensures NavShell(styles, marginStyle, navButtonsHTML, backToTopButton)
      == ContainerOpen(styles) + marginStyle + Middle(styles, navButtonsHTML) + backToTopButton + ShellClose
  {
    var head := ContainerOpen(styles) + marginStyle;
    AppendAssoc(head, "\">" + Branding(styles) + navButtonsHTML, ButtonsGap);
    AppendAssoc(head, "\">" + Branding(styles), navButtonsHTML);
    AppendAssoc(head, "\">", Branding(styles));
  }

  /** The two renderings of one item list share the text before the margin
      fragment, the middle holding the items and the closing text; they
      differ only in the margin fragment and the Back-to-Top slot. */
  lemma HeaderFooterShapes(styles: Styles, items: seq<NavItem>)
    ensures GenerateNavHTML(styles, items, false)
      == ContainerOpen(styles) + MarginHeader + Middle(styles, RenderItems(styles, items)) + ShellClose
    ensures GenerateNavHTML(styles, items, true)
      == ContainerOpen(styles) + MarginFooter + Middle(styles, RenderItems(styles, items)) + BackToTopButton(styles) + ShellClose
  {
    var buttons := RenderItems(styles, items);
    RenderedAsShell(styles, items);
    ShellSlots(styles, MarginHeader, buttons, "");
    ShellSlots(styles, MarginFooter, buttons, BackToTopButton(styles));
    AppendEmpty(ContainerOpen(styles) + MarginHeader + Middle(styles, buttons));
  }

  lemma RenderedAsShell(styles: Styles, items: seq<NavItem>)
    ensures GenerateNavHTML(styles, items, false) == NavShell(styles, MarginHeader, RenderItems(styles, items), "")
    ensures GenerateNavHTML(styles, items, true)
      == NavShell(styles, MarginFooter, RenderItems(styles, items), BackToTopButton(styles))
  {
  }

  /** Header and footer of `createNavigation` are rendered from one item list
      and differ only in the margin fragment and the Back-to-Top slot. */
  lemma HeaderFooterDifferOnlyInSlots(currentPath: string)
    ensures var middle := Middle(BaseStyles, RenderItems(BaseStyles, GetNavItemsForPath(currentPath)));
      && CreateNavigation(currentPath).headerNav == ContainerOpen(BaseStyles) + MarginHeader + middle + ShellClose
      && CreateNavigation(currentPath).footerNav
         == ContainerOpen(BaseStyles) + MarginFooter + middle + BackToTopButton(BaseStyles) + ShellClose
  {
    HeaderFooterShapes(BaseStyles, GetNavItemsForPath(currentPath));
  }

  /** Every link item's anchor, up to its style attribute, appears in the
      output. */
  lemma OutputIncludesAnchor(styles: Styles, items: seq<NavItem>, isFooter: bool, i: nat)
    requires i < |items| && items[i].kind == Link
    ensures Includes(GenerateNavHTML(styles, items, isFooter), "<a href=\"" + items[i].href + "\" style=\"")
  {
    var item := items[i];
    var fragment := RenderItem(styles, item);
    var anchor := "<a href=\"" + item.href + "\" style=\"";
    var css := ButtonStyle(styles, item.style);
    LinkFragment(styles, item);
    StartsWithShorter(fragment, anchor + css, "\" ");
    StartsWithShorter(fragment, anchor, css);
    StartsWithIncludes(fragment, anchor);
    RenderItemsIncludeEach(styles, items, i);
    IncludesTransitive(RenderItems(styles, items), fragment, anchor);
    IncludesTransitive(GenerateNavHTML(styles, items, isFooter), RenderItems(styles, items), anchor);
  }

  /** Header and footer both open an anchor to 'reports/index.html' on a root
      path and to '../index.html' on every other path. */
  lemma NavigationLinkTarget(currentPath: string)
    ensures var target := if IsRootPath(currentPath) then "reports/index.html" else "../index.html";
      && Includes(CreateNavigation(currentPath).headerNav, "<a href=\"" + target + "\" style=\"")
      && Includes(CreateNavigation(currentPath).footerNav, "<a href=\"" + target + "\" style=\"")
  {
    var items := GetNavItemsForPath(currentPath);
    ClassificationClosedForm(currentPath);
    OutputIncludesAnchor(BaseStyles, items, false, 0);
    OutputIncludesAnchor(BaseStyles, items, true, 0);
  }

  /** The character that marks the Back-to-Top button. */
  const Arrow: char := '⬆'

  /** None of the item's rendered fields holds the arrow. */
  predicate ArrowFree(item: NavItem) {
    Arrow !in item.text && Arrow !in item.href && Arrow !in item.onclick
  }

  /** No style block of the record holds the arrow. */
  predicate StylesArrowFree(styles: Styles) {
    && Arrow !in styles.container && Arrow !in styles.flexContainer
    && Arrow !in styles.branding && Arrow !in styles.brandingTitle
    && Arrow !in styles.brandingSubtitle && Arrow !in styles.navContainer
    && Arrow !in styles.primaryButton && Arrow !in styles.secondaryButton
  }

  lemma ArrowInBackToTop(styles: Styles)
    ensures Arrow in BackToTopButton(styles)
  {
    var open := ButtonOpen("window.scrollTo(0,0)", styles.secondaryButton, SecondaryHover);
    assert BackToTopLabel[0] == Arrow;
    assert BackToTopButton(styles)[|open|] == (BackToTopLabel + "</button>")[0];
  }

  /** The Back-to-Top button carries its label, which starts with the arrow. */
  lemma LabelInBackToTop(styles: Styles)
    ensures Includes(BackToTopButton(styles), BackToTopLabel)
    ensures Arrow in BackToTopLabel
  {
    var open := ButtonOpen("window.scrollTo(0,0)", styles.secondaryButton, SecondaryHover);
    IncludesMiddle(open, BackToTopLabel, "</button>");
    AppendAssoc(open, BackToTopLabel, "</button>");
    assert BackToTopLabel[0] == Arrow;
  }

  /** A declaration holds the arrow only if its property or value does. */
  lemma DeclarationArrowFree(property: string, value: string)
    requires Arrow !in property && Arrow !in value
    ensures Arrow !in Declaration(property, value)
  {
  }

  lemma ContainerStyleArrowFree()
    ensures Arrow !in ContainerStyle
  {
    DeclarationArrowFree("margin-bottom", "0");
    DeclarationArrowFree("padding", "12px 20px");
    DeclarationArrowFree("background", "linear-gradient(180deg, " + "rgba(30,41,59,0.6) 0%, " + "rgba(15,23,42,0.6) 100%)");
    DeclarationArrowFree("border-bottom", "1px solid " + "rgba(148,163,184,0.1)");
    DeclarationArrowFree("border-radius", "0");
    DeclarationArrowFree("box-shadow", "none");
  }

  lemma FlexContainerStyleArrowFree()
    ensures Arrow !in FlexContainerStyle
  {
    DeclarationArrowFree("display", "flex");
    DeclarationArrowFree("justify-content", "space-between");
    DeclarationArrowFree("align-items", "center");
    DeclarationArrowFree("flex-wrap", "wrap");
    DeclarationArrowFree("gap", "20px");
  }

  lemma BrandingStyleArrowFree()
    ensures Arrow !in BrandingStyle
  {
    DeclarationArrowFree("font-size", "10px");
    DeclarationArrowFree("color", "#64748b");
  }

  lemma BrandingTitleStyleArrowFree()
    ensures Arrow !in BrandingTitleStyle
  {
    DeclarationArrowFree("margin", "0");
    DeclarationArrowFree("color", "#94a3b8");
    DeclarationArrowFree("font-weight", "500");
    DeclarationArrowFree("font-size", "11px");
  }

  lemma BrandingSubtitleStyleArrowFree()
    ensures Arrow !in BrandingSubtitleStyle
  {
    DeclarationArrowFree("margin", "2px 0 0 0");
    DeclarationArrowFree("font-size", "9px");
    DeclarationArrowFree("opacity", "0.8");
  }

  lemma NavContainerStyleArrowFree()
    ensures Arrow !in NavContainerStyle
  {
    DeclarationArrowFree("display", "flex");
    DeclarationArrowFree("gap", "15px");
    DeclarationArrowFree("flex-wrap", "wrap");
    DeclarationArrowFree("align-items", "center");
  }

  lemma PrimaryButtonStyleArrowFree()
    ensures Arrow !in PrimaryButtonStyle
  {
    DeclarationArrowFree("display", "inline-block");
    DeclarationArrowFree("background", "#3b82f6");
    DeclarationArrowFree("color", "white");
    DeclarationArrowFree("padding", "8px 16px");
    DeclarationArrowFree("text-decoration", "none");
    DeclarationArrowFree("border-radius", "6px");
    DeclarationArrowFree("font-weight", "500");
    DeclarationArrowFree("font-size", "14px");
    DeclarationArrowFree("transition", "all 0.3s");
    DeclarationArrowFree("box-shadow", "0 0 12px " + "rgba(59,130,246,0.4)");
  }

  lemma SecondaryButtonStyleArrowFree()
    ensures Arrow !in SecondaryButtonStyle
  {
    DeclarationArrowFree("display", "inline-block");
    DeclarationArrowFree("background", "transparent");
    DeclarationArrowFree("color", "#cbd5e1");
    DeclarationArrowFree("padding", "8px 16px");
    DeclarationArrowFree("text-decoration", "none");
    DeclarationArrowFree("border-radius", "6px");
    DeclarationArrowFree("font-weight", "500");
    DeclarationArrowFree("font-size", "14px");
    DeclarationArrowFree("border", "1px solid " + "rgba(203,213,225,0.2)");
    DeclarationArrowFree("transition", "all 0.3s");
    DeclarationArrowFree("cursor", "pointer");
  }

  /** The constructor's styles hold no arrow. */
  lemma BaseStylesArrowFree()
    ensures StylesArrowFree(BaseStyles)
  {
    ContainerStyleArrowFree();
    FlexContainerStyleArrowFree();
    BrandingStyleArrowFree();
    BrandingTitleStyleArrowFree();
    BrandingSubtitleStyleArrowFree();
    NavContainerStyleArrowFree();
    PrimaryButtonStyleArrowFree();
    SecondaryButtonStyleArrowFree();
  }

  /** A handler holds the arrow only if its event or code does. */
  lemma HandlerArrowFree(event: string, code: string)
    requires Arrow !in event && Arrow !in code
    ensures Arrow !in Handler(event, code)
  {
  }

  lemma StyleAssignmentArrowFree(property: string, value: string)
    requires Arrow !in property && Arrow !in value
    ensures Arrow !in StyleAssignment(property, value)
  {
  }

  lemma PrimaryHoverArrowFree()
    ensures Arrow !in PrimaryHover
  {
    StyleAssignmentArrowFree("background", "#2563eb");
    StyleAssignmentArrowFree("transform", "translateY(-1px)");
    StyleAssignmentArrowFree("background", "#3b82f6");
    StyleAssignmentArrowFree("transform", "translateY(0)");
    HandlerArrowFree("onmouseover", StyleAssignment("background", "#2563eb") + "; " + StyleAssignment("transform", "translateY(-1px)"));
    HandlerArrowFree("onmouseout", StyleAssignment("background", "#3b82f6") + "; " + StyleAssignment("transform", "translateY(0)"));
  }

  lemma SecondaryHoverArrowFree()
    ensures Arrow !in SecondaryHover
  {
    StyleAssignmentArrowFree("borderColor", "rgba(203,213,225,0.4)");
    StyleAssignmentArrowFree("color", "#e2e8f0");
    StyleAssignmentArrowFree("borderColor", "rgba(203,213,225,0.2)");
    StyleAssignmentArrowFree("color", "#cbd5e1");
    HandlerArrowFree("onmouseover", StyleAssignment("borderColor", "rgba(203,213,225,0.4)") + "; " + StyleAssignment("color", "#e2e8f0"));
    HandlerArrowFree("onmouseout", StyleAssignment("borderColor", "rgba(203,213,225,0.2)") + "; " + StyleAssignment("color", "#cbd5e1"));
  }

  /** A template line holds the arrow only if its text does. */
  lemma LineArrowFree(indent: string, text: string)
    requires indent in {Indent8, Indent12, Indent16, Indent20, Indent24}
    requires Arrow !in text
    ensures Arrow !in Line(indent, text)
  {
  }

  lemma StyledOpenArrowFree(tag: string, css: string)
    requires tag in {"div", "p"} && Arrow !in css
    ensures Arrow !in StyledOpen(tag, css)
  {
  }

  lemma BrandingTextArrowFree()
    ensures Arrow !in BrandName + "</p>" && Arrow !in Tagline + "</p>"
  {
  }

  lemma BrandingArrowFree(styles: Styles)
    requires StylesArrowFree(styles)
    ensures Arrow !in Branding(styles)
  {
    StyledOpenArrowFree("div", styles.flexContainer);
    StyledOpenArrowFree("div", styles.branding);
    StyledOpenArrowFree("p", styles.brandingTitle);
    StyledOpenArrowFree("p", styles.brandingSubtitle);
    StyledOpenArrowFree("div", styles.navContainer);
    BrandingTextArrowFree();
    LineArrowFree(Indent16, StyledOpen("div", styles.flexContainer));
    LineArrowFree(Indent20, StyledOpen("div", styles.branding));
    LineArrowFree(Indent24, StyledOpen("p", styles.brandingTitle) + BrandName + "</p>");
    LineArrowFree(Indent24, StyledOpen("p", styles.brandingSubtitle) + Tagline + "</p>");
    LineArrowFree(Indent20, "</div>");
    LineArrowFree(Indent20, StyledOpen("div", styles.navContainer));
    LineArrowFree(Indent24, "");
  }

  /** The fixed text of the template holds no arrow. */
  lemma ShellArrowFree(styles: Styles)
    requires StylesArrowFree(styles)
    ensures Arrow !in ContainerOpen(styles) && Arrow !in Branding(styles)
    ensures Arrow !in ButtonsGap && Arrow !in ShellClose
    ensures Arrow !in MarginHeader && Arrow !in MarginFooter
  {
    LineArrowFree(Indent12, "<div style=\"" + styles.container + " ");
    BrandingArrowFree(styles);
    LineArrowFree(Indent24, "");
    LineArrowFree(Indent20, "</div>");
    LineArrowFree(Indent16, "</div>");
    LineArrowFree(Indent12, "</div>");
    LineArrowFree(Indent8, "");
  }

  lemma AnchorOpenArrowFree(href: string, css: string, hover: string)
    requires Arrow !in href && Arrow !in css && Arrow !in hover
    ensures Arrow !in AnchorOpen(href, css, hover)
  {
  }

  lemma ButtonOpenArrowFree(onclick: string, css: string, hover: string)
    requires Arrow !in onclick && Arrow !in css && Arrow !in hover
    ensures Arrow !in ButtonOpen(onclick, css, hover)
  {
  }

  /** An item's fragment holds the arrow only if its own fields do. */
  lemma RenderItemArrowFree(styles: Styles, item: NavItem)
    requires StylesArrowFree(styles) && ArrowFree(item)
    ensures Arrow !in RenderItem(styles, item)
  {
    match item.kind
    case Link =>
      PrimaryHoverArrowFree();
      SecondaryHoverArrowFree();
      AnchorOpenArrowFree(item.href, ButtonStyle(styles, item.style), HoverEvents(item.style));
    case Button =>
      SecondaryHoverArrowFree();
      ButtonOpenArrowFree(item.onclick, styles.secondaryButton, SecondaryHover);
    case Unrecognised =>
  }

  lemma {:induction false} RenderItemsArrowFree(styles: Styles, items: seq<NavItem>)
    requires StylesArrowFree(styles)
    requires forall item :: item in items ==> ArrowFree(item)
    ensures Arrow !in RenderItems(styles, items)
  {
    if items != [] {
      RenderItemArrowFree(styles, items[0]);
      RenderItemsArrowFree(styles, items[1..]);
    }
  }

  /** The footer always holds the Back-to-Top button and its label, whatever
      the items and the styles. */
  lemma FooterHasBackToTop(styles: Styles, items: seq<NavItem>)
    ensures Includes(GenerateNavHTML(styles, items, true), BackToTopButton(styles))
    ensures Includes(GenerateNavHTML(styles, items, true), BackToTopLabel)
  {
    var button := BackToTopButton(styles);
    var before := ContainerOpen(styles) + MarginFooter + "\">" + Branding(styles) + RenderItems(styles, items) + ButtonsGap;
    IncludesSelf(button);
    IncludesExtend(button, button, before, "");
    IncludesExtend(before + button, button, "", ShellClose);
    LabelInBackToTop(styles);
    IncludesTransitive(GenerateNavHTML(styles, items, true), button, BackToTopLabel);
  }

  /** The header holds neither the Back-to-Top button nor its label, as long
      as neither a style block nor an item's own text, target or handler
      holds the arrow that starts the label. */
  lemma HeaderLacksBackToTop(styles: Styles, items: seq<NavItem>)
    requires StylesArrowFree(styles)
    requires forall item :: item in items ==> ArrowFree(item)
    ensures !Includes(GenerateNavHTML(styles, items, false), BackToTopButton(styles))
    ensures !Includes(GenerateNavHTML(styles, items, false), BackToTopLabel)
  {
    var before := ContainerOpen(styles) + MarginHeader + "\">" + Branding(styles) + RenderItems(styles, items) + ButtonsGap;
    ShellArrowFree(styles);
    RenderItemsArrowFree(styles, items);
    assert Arrow !in before + "" + ShellClose;
    ArrowInBackToTop(styles);
    IncludesKeepsChars(GenerateNavHTML(styles, items, false), BackToTopButton(styles), Arrow);
    LabelInBackToTop(styles);
    IncludesKeepsChars(GenerateNavHTML(styles, items, false), BackToTopLabel, Arrow);
  }

  /** Under the arrow-free condition, the output holds the Back-to-Top button
      and its label exactly for the footer. */
  lemma BackToTopIffFooter(styles: Styles, items: seq<NavItem>, isFooter: bool)
    requires StylesArrowFree(styles)
    requires forall item :: item in items ==> ArrowFree(item)
    ensures Includes(GenerateNavHTML(styles, items, isFooter), BackToTopButton(styles)) <==> isFooter
    ensures Includes(GenerateNavHTML(styles, items, isFooter), BackToTopLabel) <==> isFooter
  {
    if isFooter {
      FooterHasBackToTop(styles, items);
    } else {
      HeaderLacksBackToTop(styles, items);
    }
  }

  /** Without the arrow-free condition the header can hold the label: a link
      whose text is the label puts it there. */
  lemma HeaderCanHoldLabel(styles: Styles, href: string)
    ensures var item := NavItem(Link, BackToTopLabel, href, Primary, "");
      Includes(GenerateNavHTML(styles, [item], false), BackToTopLabel)
  {
    var item := NavItem(Link, BackToTopLabel, href, Primary, "");
    var open := AnchorOpen(item.href, ButtonStyle(styles, item.style), HoverEvents(item.style));
    IncludesMiddle(open, BackToTopLabel, "</a>");
    AppendAssoc(open, BackToTopLabel, "</a>");
    assert RenderItems(styles, [item]) == RenderItem(styles, item) + RenderItems(styles, []);
    AppendEmpty(RenderItem(styles, item));
    IncludesTransitive(GenerateNavHTML(styles, [item], false), RenderItems(styles, [item]), BackToTopLabel);
  }

  lemma ClassifiedItemsArrowFree(currentPath: string)
    ensures forall item :: item in GetNavItemsForPath(currentPath) ==> ArrowFree(item)
  {
    ClassificationClosedForm(currentPath);
    assert ArrowFree(ReportsLink) && ArrowFree(HomeLink);
  }

  /** For every path the footer carries the Back-to-Top button and its label
      '⬆️ Back to Top', and the header carries neither. */
  lemma NavigationBackToTop(currentPath: string)
    ensures Includes(CreateNavigation(currentPath).footerNav, BackToTopButton(BaseStyles))
    ensures !Includes(CreateNavigation(currentPath).headerNav, BackToTopButton(BaseStyles))
    ensures Includes(CreateNavigation(currentPath).footerNav, BackToTopLabel)
    ensures !Includes(CreateNavigation(currentPath).headerNav, BackToTopLabel)
  {
    var items := GetNavItemsForPath(currentPath);
    ClassifiedItemsArrowFree(currentPath);
    BaseStylesArrowFree();
    BackToTopIffFooter(BaseStyles, items, true);
    BackToTopIffFooter(BaseStyles, items, false);
  }
}
