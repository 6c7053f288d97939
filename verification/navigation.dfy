/** The bottom navigation bar of `src/components/bottom-navbar.tsx`: its four
    items and the active-route test. */
module Navigation {
  import opened Strings

  datatype NavItem = NavItem(href: string, caption: string)

  const NAV_ITEMS: seq<NavItem> := [
    NavItem("/ai-services", "AI Services"),
    NavItem("/lifestyle", "Lifestyle"),
    NavItem("/banana", "Banana"),
    NavItem("/profile", "Profile")
  ]

  /** `isActive(href)`: the root only on an exact match, any other route on
      a prefix match. */
  predicate IsActive(pathname: string, href: string) {
    if href == "/" then pathname == "/" else StartsWith(pathname, href)
  }

  /** The root is active on exactly one pathname. */
  lemma RootActiveOnlyAtRoot(pathname: string)
    ensures IsActive(pathname, "/") <==> pathname == "/"
  {
  }

  /** Any route other than the root is active on itself and on every
      pathname below it, and only on pathnames at least as long. */
  lemma ActiveBelowHref(href: string, rest: string, pathname: string)
    requires href != "/"
    ensures IsActive(href + rest, href)
    ensures IsActive(pathname, href) ==> |pathname| >= |href|
  {
    assert (href + rest)[..|href|] == href;
  }

  /** The prefix test also matches longer route names. */
  lemma PrefixMatchesLongerName()
    ensures IsActive("/bananas", "/banana")
    ensures IsActive("/banana/edit", "/banana")
    ensures !IsActive("/", "/banana")
  {
    assert "/bananas"[..7] == "/banana";
    assert "/banana/edit"[..7] == "/banana";
  }

  /** No item's href is a prefix of another's. */
  lemma HrefsPrefixFree()
    ensures forall i, j :: 0 <= i < |NAV_ITEMS| && 0 <= j < |NAV_ITEMS| && i != j ==>
      !StartsWith(NAV_ITEMS[j].href, NAV_ITEMS[i].href)
  {
    assert NAV_ITEMS[0].href[1] == 'a';
    assert NAV_ITEMS[1].href[1] == 'l';
    assert NAV_ITEMS[2].href[1] == 'b';
    assert NAV_ITEMS[3].href[1] == 'p';
    forall i, j | 0 <= i < |NAV_ITEMS| && 0 <= j < |NAV_ITEMS| && i != j
      ensures !StartsWith(NAV_ITEMS[j].href, NAV_ITEMS[i].href)
    {
      assert NAV_ITEMS[i].href[1] != NAV_ITEMS[j].href[1];
      if |NAV_ITEMS[i].href| <= |NAV_ITEMS[j].href| {
        assert NAV_ITEMS[j].href[..|NAV_ITEMS[i].href|][1] == NAV_ITEMS[j].href[1];
      }
    }
  }

  /** Of two hrefs neither of which is a prefix of the other, a pathname
      starting with one does not start with the other. */
  lemma PrefixFreeExclusive(p: string, a: string, b: string)
    requires !StartsWith(a, b) && !StartsWith(b, a) && StartsWith(p, a)
    ensures !StartsWith(p, b)
  {
    if |b| <= |p| {
      if |a| <= |b| {
        assert p[..|b|][..|a|] == a;
        assert b[..|a|] != a;
      } else {
        assert p[..|b|] == a[..|b|];
      }
    }
  }

  /** At most one item is active for any pathname. */
  lemma AtMostOneActive(pathname: string)
    ensures forall i, j :: 0 <= i < j < |NAV_ITEMS| && IsActive(pathname, NAV_ITEMS[i].href) ==>
      !IsActive(pathname, NAV_ITEMS[j].href)
  {
    HrefsPrefixFree();
    forall i, j | 0 <= i < j < |NAV_ITEMS| && IsActive(pathname, NAV_ITEMS[i].href)
      ensures !IsActive(pathname, NAV_ITEMS[j].href)
    {
      PrefixFreeExclusive(pathname, NAV_ITEMS[i].href, NAV_ITEMS[j].href);
    }
  }
}
