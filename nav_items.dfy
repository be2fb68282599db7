/** The navigation items and the path classifier `getNavItemsForPath` of
    `AuthenticityCoPilotNav`. */
module NavItems {
  import opened JsString

  /** The item's `type`. The renderer distinguishes only 'link' and 'button';
      every other type string behaves as `Unrecognised`. */
  datatype ItemKind = Link | Button | Unrecognised

  /** The item's `style`. The renderer tests only for 'primary'; every other
      style string is styled as `Secondary`. */
  datatype Emphasis = Primary | Secondary

  /** One navigation item. `onclick` is read only for buttons. */
  datatype NavItem = NavItem(kind: ItemKind, text: string, href: string, style: Emphasis, onclick: string)

  const ReportsLink := NavItem(Link, "📊 Reports", "reports/index.html", Primary, "")
  const HomeLink := NavItem(Link, "🏠 Home", "../index.html", Primary, "")
  /** The two items of the individual-report branch. */
  const AllReportsLink := NavItem(Link, "← All Reports", "index.html", Secondary, "")
  const ReportHomeLink := NavItem(Link, "🏠 Home", "../../index.html", Primary, "")

  /** The first guard: the site root, in any letter case. */
  predicate IsRootPath(currentPath: string) {
    var path := Lower(currentPath);
    path == "/" || path == "/index.html" || path == ""
  }

  /** The second guard: somewhere under a reports directory. */
  predicate InReportsDirectory(currentPath: string) {
    var path := Lower(currentPath);
    Includes(path, "/reports/index.html") || Includes(path, "/reports/")
  }

  /** The third guard: an individual report page. */
  predicate IsReportPage(currentPath: string) {
    var path := Lower(currentPath);
    Includes(path, "/reports/") && Includes(path, ".html")
  }

  /** `getNavItemsForPath`: the guards in source order, the first that holds
      wins. The third guard implies the second, so its branch is never taken
      and every path gets exactly one item: the Reports link on a root path,
      the Home link to '../index.html' everywhere else. */
  function GetNavItemsForPath(currentPath: string): (r: seq<NavItem>)
    ensures r == if IsRootPath(currentPath) then [ReportsLink] else [HomeLink]
  {
    if IsRootPath(currentPath) then [ReportsLink]
    else if InReportsDirectory(currentPath) then [HomeLink]
    else if IsReportPage(currentPath) then [AllReportsLink, ReportHomeLink]
    else [HomeLink]
  }

  /** Only the lower-cased path is inspected, so the classification ignores
      letter case. */
  lemma ClassificationIgnoresCase(currentPath: string)
    ensures GetNavItemsForPath(Lower(currentPath)) == GetNavItemsForPath(currentPath)
  {
    LowerIdempotent(currentPath);
  }

  /** Two paths that differ only in the case of ASCII letters are classified
      alike. */
  lemma CaseVariantsClassifiedAlike(p: string, q: string)
    requires Lower(p) == Lower(q)
    ensures GetNavItemsForPath(p) == GetNavItemsForPath(q)
  {
    ClassificationIgnoresCase(p);
    ClassificationIgnoresCase(q);
  }

  /** The root paths in any letter case give the single primary Reports link. */
  lemma RootPathsGetReportsLink(currentPath: string)
    requires Lower(currentPath) in {"", "/", "/index.html"}
    ensures GetNavItemsForPath(currentPath) == [ReportsLink]
    ensures GetNavItemsForPath(currentPath)[0].href == "reports/index.html"
    ensures GetNavItemsForPath(currentPath)[0].text == "📊 Reports"
  {
  }

  /** A capitalised root path is still a root path. */
  lemma CapitalisedIndexIsRoot(p: string)
    requires p == "/INDEX.HTML"
    ensures GetNavItemsForPath(p) == [ReportsLink]
  {
    forall i | 0 <= i < |p| ensures Lower(p)[i] == "/index.html"[i] {
    }
    assert Lower(p) == "/index.html";
    RootPathsGetReportsLink(p);
  }

  /** The first disjunct of the reports-directory guard is redundant: a path
      that includes '/reports/index.html' includes '/reports/'. */
  lemma ReportsIndexIncludesReportsDirectory(path: string)
    requires Includes(path, "/reports/index.html")
    ensures Includes(path, "/reports/")
  {
    IncludesMiddle([], "/reports/", "index.html");
    assert [] + "/reports/" + "index.html" == "/reports/index.html";
    IncludesTransitive(path, "/reports/index.html", "/reports/");
  }

  /** A path whose lower-cased form includes '/reports/index.html' or
      '/reports/' is never a root path (none of the three root paths holds an
      'r'), so it gets the single primary Home link to '../index.html'. */
  lemma ReportsDirectoryGetsHomeLink(currentPath: string)
    requires InReportsDirectory(currentPath)
    ensures !IsRootPath(currentPath)
    ensures GetNavItemsForPath(currentPath) == [HomeLink]
    ensures GetNavItemsForPath(currentPath)[0].href == "../index.html"
  {
    var path := Lower(currentPath);
    if Includes(path, "/reports/index.html") {
      ReportsIndexIncludesReportsDirectory(path);
    }
    assert 'r' in "/reports/";
    IncludesKeepsChars(path, "/reports/", 'r');
    assert 'r' !in "/index.html";
  }

  /** The individual-report guard implies the reports-directory guard that is
      tested before it, so its branch is never taken: no path gets the
      'All Reports' item. */
  lemma ReportPageBranchUnreachable(currentPath: string)
    ensures IsReportPage(currentPath) ==> InReportsDirectory(currentPath)
    ensures AllReportsLink !in GetNavItemsForPath(currentPath)
    ensures ReportHomeLink !in GetNavItemsForPath(currentPath)
    ensures |GetNavItemsForPath(currentPath)| == 1
  {
  }

  /** Closed form: the classification is the Reports link exactly on root
      paths and the Home link to '../index.html' on every other path, whether
      it reaches the reports branch or the fallback. */
  lemma ClassificationClosedForm(currentPath: string)
    ensures GetNavItemsForPath(currentPath) == [ReportsLink] <==> IsRootPath(currentPath)
    ensures GetNavItemsForPath(currentPath) == [HomeLink] <==> !IsRootPath(currentPath)
  {
  }

  /** Every item the classifier returns is a primary link. */
  lemma ClassifiedItemsArePrimaryLinks(currentPath: string)
    ensures forall item :: item in GetNavItemsForPath(currentPath) ==>
      item.kind == Link && item.style == Primary
  {
  }

  /** The report page that the three-way reading of the classifier would
      give a Back link gets the same single Home link as every other non-root
      path. */
  lemma ReportPageExample(p: string)
    requires p == "/reports/episode42.html"
    ensures GetNavItemsForPath(p) == [HomeLink]
  {
    assert |Lower(p)| == 23;
    assert !IsRootPath(p);
    ClassificationClosedForm(p);
  }
}
