/**
 * The dashboard navigation (components/dashboard/DashboardSidebar.tsx): the five menu items
 * and the rule that highlights the item for the current pathname.
 */
module DashboardSidebar {
  import opened JsString

  /** A menu entry: its id, the label shown, the link target and the caption under the label. */
  datatype MenuItem = MenuItem(id: string, title: string, href: string, description: string)

  const MenuItems: seq<MenuItem> := [
    MenuItem("dashboard", "Dashboard", "/dashboard", "Overview"),
    MenuItem("portfolio", "Portfolio", "/dashboard/portfolio", "Assets & Holdings"),
    MenuItem("markets", "Markets", "/dashboard/markets", "Explore Crypto"),
    MenuItem("transactions", "Transactions", "/dashboard/transactions", "History & Activity"),
    MenuItem("settings", "Settings", "/dashboard/settings", "Preferences")
  ]

  /** `pathname === item.href || (item.id !== 'dashboard' && pathname.startsWith(item.href))`. */
  predicate IsActive(pathname: string, item: MenuItem) {
    pathname == item.href || (item.id != "dashboard" && StartsWith(pathname, item.href))
  }

  /** Any item is active on its own href. */
  lemma {:induction false} ActiveOnOwnHref(item: MenuItem)
    ensures IsActive(item.href, item)
  {
    assert item.href[..|item.href|] == item.href;
  }

  /** The overview item is active on exactly `/dashboard` and nowhere below it. */
  lemma {:induction false} DashboardOnlyExact(pathname: string)
    ensures IsActive(pathname, MenuItems[0]) <==> pathname == "/dashboard"
  {
  }

  /** Every other item is active on its href and on every path below it (a plain prefix test). */
  lemma {:induction false} OthersByPrefix(pathname: string, i: nat)
    requires 1 <= i < |MenuItems|
    ensures IsActive(pathname, MenuItems[i]) <==> StartsWith(pathname, MenuItems[i].href)
  {
    if pathname == MenuItems[i].href {
      ActiveOnOwnHref(MenuItems[i]);
    }
  }

  /** The four prefix-matched hrefs share `/dashboard/` and then differ at their twelfth character. */
  lemma {:induction false} HrefsDiverge()
    ensures forall i :: 1 <= i < |MenuItems| ==> |MenuItems[i].href| > 11 && StartsWith(MenuItems[i].href, "/dashboard/")
    ensures forall i, j :: 1 <= i < j < |MenuItems| ==> MenuItems[i].href[11] != MenuItems[j].href[11]
  {
  }

  /** No two items are highlighted at once, whatever the pathname. */
  lemma {:induction false} AtMostOneActive(pathname: string, i: nat, j: nat)
    requires i < j < |MenuItems|
    ensures !(IsActive(pathname, MenuItems[i]) && IsActive(pathname, MenuItems[j]))
  {
    HrefsDiverge();
    var a, b := MenuItems[i].href, MenuItems[j].href;
    OthersByPrefix(pathname, j);
    if i == 0 {
      assert IsActive(pathname, MenuItems[i]) ==> |pathname| < |b|;
    } else {
      OthersByPrefix(pathname, i);
      assert StartsWith(pathname, a) ==> pathname[11] == pathname[..|a|][11] == a[11];
      assert StartsWith(pathname, b) ==> pathname[11] == pathname[..|b|][11] == b[11];
    }
  }

  /** On a page below the dashboard only that page's item is active, e.g. Portfolio on `/dashboard/portfolio`. */
  lemma {:induction false} OnlyOwnItemActive(i: nat, rest: string)
    requires 1 <= i < |MenuItems|
    ensures forall j :: 0 <= j < |MenuItems| ==> (IsActive(MenuItems[i].href + rest, MenuItems[j]) <==> j == i)
  {
    var pathname := MenuItems[i].href + rest;
    assert pathname[..|MenuItems[i].href|] == MenuItems[i].href;
    assert IsActive(pathname, MenuItems[i]);
    forall j | 0 <= j < |MenuItems| && j != i
      ensures !IsActive(pathname, MenuItems[j])
    {
      if j < i { AtMostOneActive(pathname, j, i); } else { AtMostOneActive(pathname, i, j); }
    }
  }
}
