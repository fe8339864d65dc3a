/**
 The navigation sidebar (src/components/layout/AppSidebar.tsx): its four fixed entries and which
 of them is highlighted for the current pathname.
 */
module AppSidebar {
  import opened Text
  import opened Seqs

  datatype NavItem = NavItem(href: string, name: string)

  const DashboardHref: string := "/dashboard"

  /** `navItems`, in menu order. */
  const NavItems: seq<NavItem> := [
    NavItem(DashboardHref, "Dashboard"),
    NavItem("/training-plan", "Training Plan"),
    NavItem("/profile", "Profile"),
    NavItem("/feedback", "Feedback")]

  /** The predicate both the `isActive` prop and the highlight class use: an exact match, or for
      every entry but the dashboard, a raw string prefix of the pathname. */
  predicate IsActive(pathname: string, href: string)
    ensures IsActive(pathname, href) ==> StartsWith(pathname, href)
    ensures IsActive(pathname, href) && href == DashboardHref ==> pathname == href
  {
    pathname == href || (href != DashboardHref && StartsWith(pathname, href))
  }

  /** The dashboard entry is active only on its own pathname. */
  lemma DashboardIsExact(pathname: string)
    ensures IsActive(pathname, DashboardHref) <==> pathname == DashboardHref
  {
  }

  /** Any other entry is active for its own pathname followed by anything at all: the prefix
      test does not stop at a "/". */
  lemma OthersMatchPrefixes(href: string, rest: string)
    requires href != DashboardHref
    ensures IsActive(href + rest, href)
  {
    assert (href + rest)[..|href|] == href;
  }

  /** "/profileX" lights up the Profile entry. */
  lemma ProfileXIsProfile()
    ensures IsActive("/profileX", NavItems[2].href)
  {
    OthersMatchPrefixes("/profile", "X");
    assert "/profile" + "X" == "/profileX";
  }

  /** An active entry shares the pathname's second character. */
  lemma ActiveSharesSecondChar(pathname: string, href: string)
    requires |href| >= 2 && IsActive(pathname, href)
    ensures |pathname| >= 2 && pathname[1] == href[1]
  {
    if pathname != href {
      assert pathname[..|href|] == href;
      assert pathname[..|href|][1] == pathname[1];
    }
  }

  /** The entries' hrefs all differ in their second character. */
  lemma HrefsDiffer(i: nat, j: nat)
    requires i < j < |NavItems|
    ensures |NavItems[i].href| >= 2 && |NavItems[j].href| >= 2
    ensures NavItems[i].href[1] != NavItems[j].href[1]
  {
  }

  /** For any pathname, at most one entry of the menu is highlighted. */
  lemma AtMostOneActive(pathname: string, i: nat, j: nat)
    requires i < j < |NavItems|
    ensures !(IsActive(pathname, NavItems[i].href) && IsActive(pathname, NavItems[j].href))
  {
    HrefsDiffer(i, j);
    if IsActive(pathname, NavItems[i].href) && IsActive(pathname, NavItems[j].href) {
      ActiveSharesSecondChar(pathname, NavItems[i].href);
      ActiveSharesSecondChar(pathname, NavItems[j].href);
    }
  }

  function ActiveOf(pathname: string): NavItem -> bool {
    (item: NavItem) => IsActive(pathname, item.href)
  }

  /** The highlighted entries, in menu order: never more than one. */
  function ActiveItems(pathname: string): (r: seq<NavItem>)
    ensures |r| <= 1
    ensures forall k :: 0 <= k < |r| ==> r[k] in NavItems && IsActive(pathname, r[k].href)
    ensures forall k :: 0 <= k < |NavItems| && IsActive(pathname, NavItems[k].href) ==> NavItems[k] in r
  {
    AtMostOneActiveItem(pathname);
    Filter(ActiveOf(pathname), NavItems)
  }

  /** The menu filtered by activity has at most one entry. */
  lemma AtMostOneActiveItem(pathname: string)
    ensures |Filter(ActiveOf(pathname), NavItems)| <= 1
  {
    var p := ActiveOf(pathname);
    var n := NavItems;
    assert n == [n[0]] + ([n[1]] + ([n[2]] + [n[3]]));
    FilterAppend(p, [n[0]], [n[1]] + ([n[2]] + [n[3]]));
    FilterAppend(p, [n[1]], [n[2]] + [n[3]]);
    FilterAppend(p, [n[2]], [n[3]]);
    forall a, b | 0 <= a < b < 4
      ensures !(p(n[a]) && p(n[b]))
    {
      AtMostOneActive(pathname, a, b);
    }
  }
}
