/** The navigation of src/components/layout/DashboardSidebar.tsx: the table of tool
    links and the rule that highlights the link of the current page. */
module DashboardSidebar {
  import opened Common
  import Text

  datatype NavItem = NavItem(title: string, url: string, icon: Icon)

  const RootUrl := "/dashboard"
  const SectionPrefix := "/dashboard/"

  /** `navigationItems`, in display order. */
  const NavigationItems: seq<NavItem> := [
    NavItem("Dashboard", "/dashboard", LayoutDashboardIcon),
    NavItem("Article Generator", "/dashboard/article-generator", FileTextIcon),
    NavItem("Image Generator", "/dashboard/image-generator", ImageIcon),
    NavItem("Background Remover", "/dashboard/background-remover", ScissorsIcon),
    NavItem("Resume Analyzer", "/dashboard/resume-analyzer", FileUserIcon),
    NavItem("History", "/dashboard/history", HistoryIcon)
  ]

  const ActiveClass := "bg-primary text-primary-foreground font-medium hover:bg-primary-hover"
  const InactiveClass := "hover:bg-muted/50 text-muted-foreground hover:text-foreground"

  /** `isActive`: the root link only on the root page itself, every other link on
      its own page and anything below it. */
  function IsActive(currentPath: string, path: string): (r: bool)
    ensures path == RootUrl ==> (r <==> currentPath == RootUrl)
    ensures path != RootUrl && r ==> |path| <= |currentPath| && currentPath[..|path|] == path
  {
    if path == RootUrl then currentPath == RootUrl
    else Text.StartsWith(currentPath, path)
  }

  /** `getNavCls`: one of two class strings, the highlighted one exactly for the
      active link. */
  function NavClass(currentPath: string, path: string): (r: string)
    ensures r == ActiveClass <==> IsActive(currentPath, path)
    ensures r == ActiveClass || r == InactiveClass
  {
    if IsActive(currentPath, path) then ActiveClass else InactiveClass
  }

  /** The `end` flag on a link: exact matching for the router. */
  function EndFlag(item: NavItem): bool
  {
    item.url == RootUrl
  }

  /** Six links with distinct titles (the list keys) and distinct URLs; the first is
      the root, and every other URL lies under `/dashboard/`. */
  lemma TableShape()
    ensures |NavigationItems| == 6
    ensures NavigationItems[0].url == RootUrl
    ensures forall i :: 1 <= i < |NavigationItems| ==> Text.StartsWith(NavigationItems[i].url, SectionPrefix)
    ensures forall i, j :: 0 <= i < j < |NavigationItems| ==>
              NavigationItems[i].url != NavigationItems[j].url && NavigationItems[i].title != NavigationItems[j].title
  {
    var items := NavigationItems;
    forall i | 1 <= i < |items|
      ensures Text.StartsWith(items[i].url, SectionPrefix)
    {
      assert items[i].url[..11] == SectionPrefix;
    }
    ToolUrlsDifferAfterSection();
    forall i, j | 0 <= i < j < |items|
      ensures items[i].url != items[j].url && items[i].title != items[j].title
    {
      assert |items[i].title| > 0 && |items[j].title| > 0;
      assert items[i].title[0] != items[j].title[0];
      if i >= 1 {
        assert items[i].url[11] != items[j].url[11];
      } else {
        assert |items[i].url| != |items[j].url|;
      }
    }
  }

  /** Only the root link carries the `end` flag. */
  lemma EndFlagOnlyOnRoot()
    ensures forall i :: 0 <= i < |NavigationItems| ==> (EndFlag(NavigationItems[i]) <==> i == 0)
  {
    TableShape();
  }

  /** The tool links part ways right after `/dashboard/`: their twelfth
      characters are pairwise different. */
  lemma ToolUrlsDifferAfterSection()
    ensures forall i :: 1 <= i < |NavigationItems| ==> |NavigationItems[i].url| > 11
    ensures forall i, j :: (1 <= i < |NavigationItems| && 1 <= j < |NavigationItems|
                            && NavigationItems[i].url[11] == NavigationItems[j].url[11]) ==> i == j
  {
  }

  /** A tool link is active only on paths whose twelfth character is that of its
      URL, and the root link only on a path of the root's length. */
  lemma ActiveShape(currentPath: string, i: nat)
    requires i < |NavigationItems| && IsActive(currentPath, NavigationItems[i].url)
    ensures i == 0 ==> |currentPath| == |RootUrl|
    ensures i >= 1 ==> |currentPath| > 11 && currentPath[11] == NavigationItems[i].url[11]
  {
    TableShape();
    ToolUrlsDifferAfterSection();
    var url := NavigationItems[i].url;
    if i >= 1 {
      assert currentPath[..|url|] == url;
      assert currentPath[11] == currentPath[..|url|][11];
    }
  }

  /** No tool link's URL is a prefix of another's. */
  lemma NoToolUrlIsPrefixOfAnother()
    ensures forall i, j :: (1 <= i < |NavigationItems| && 1 <= j < |NavigationItems|
                            && Text.StartsWith(NavigationItems[j].url, NavigationItems[i].url)) ==> i == j
  {
    TableShape();
    forall i, j | 1 <= i < |NavigationItems| && 1 <= j < |NavigationItems|
                  && Text.StartsWith(NavigationItems[j].url, NavigationItems[i].url)
      ensures i == j
    {
      ActiveShape(NavigationItems[j].url, i);
      ToolUrlsDifferAfterSection();
    }
  }

  /** For any path at most one link is highlighted. */
  lemma AtMostOneActive(currentPath: string)
    ensures forall i, j :: (0 <= i < |NavigationItems| && 0 <= j < |NavigationItems|
                            && IsActive(currentPath, NavigationItems[i].url)
                            && IsActive(currentPath, NavigationItems[j].url)) ==> i == j
  {
    forall i, j | 0 <= i < |NavigationItems| && 0 <= j < |NavigationItems|
                  && IsActive(currentPath, NavigationItems[i].url) && IsActive(currentPath, NavigationItems[j].url)
      ensures i == j
    {
      ActiveShape(currentPath, i);
      ActiveShape(currentPath, j);
      ToolUrlsDifferAfterSection();
    }
  }

  /** Each tool's page, and any page below it, highlights that tool's link. */
  lemma OwnPageActivates(i: nat, rest: string)
    requires 1 <= i < |NavigationItems|
    ensures IsActive(NavigationItems[i].url + rest, NavigationItems[i].url)
  {
    var url := NavigationItems[i].url;
    assert url != RootUrl by {
      TableShape();
    }
    assert (url + rest)[..|url|] == url;
  }
}
