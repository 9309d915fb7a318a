/** The sidebar's navigation list and the rule that marks an entry active
    for the current path. */
module Sidebar {
  import opened Strings

  datatype NavItem = NavItem(name: string, href: string)

  /** The fixed navigation list, in order. */
  const Navigation: seq<NavItem> := [
    NavItem("Dashboard", "/dashboard"),
    NavItem("My Plans", "/plans"),
    NavItem("Milestones", "/accountability/milestones"),
    NavItem("Check-ins", "/accountability/check-ins"),
    NavItem("Settings", "/settings")
  ]

  /** An entry is active on its own path and on every path below it: the
      path equals the href or continues it after a `/`. */
  predicate IsActive(pathname: string, href: string) {
    pathname == href || StartsWith(pathname, href + "/")
  }

  /** An active entry's href, followed by `/`, starts the path followed by
      `/`. */
  lemma ActiveMeansSlashPrefix(pathname: string, href: string)
    requires IsActive(pathname, href)
    ensures StartsWith(pathname + "/", href + "/")
  {
    if pathname != href {
      assert (pathname + "/")[..|href + "/"|] == pathname[..|href + "/"|];
    }
  }

  /** Two prefixes of the same string agree wherever the shorter one has a
      character. */
  lemma PrefixesNest(s: string, a: string, b: string)
    requires StartsWith(s, a) && StartsWith(s, b) && |a| <= |b|
    ensures forall k :: 0 <= k < |a| ==> a[k] == b[k]
  {
    forall k | 0 <= k < |a| ensures a[k] == b[k] {
      assert a[k] == s[..|a|][k] && b[k] == s[..|b|][k];
    }
  }

  /** Hrefs whose `/`-extended forms differ at some position inside both
      are never active together. */
  lemma NeverBothActive(pathname: string, a: string, b: string, k: nat)
    requires k < |a + "/"| && k < |b + "/"| && (a + "/")[k] != (b + "/")[k]
    ensures !(IsActive(pathname, a) && IsActive(pathname, b))
  {
    if IsActive(pathname, a) && IsActive(pathname, b) {
      ActiveMeansSlashPrefix(pathname, a);
      ActiveMeansSlashPrefix(pathname, b);
      if |a + "/"| <= |b + "/"| {
        PrefixesNest(pathname + "/", a + "/", b + "/");
      } else {
        PrefixesNest(pathname + "/", b + "/", a + "/");
      }
      assert false;
    }
  }

  /** Whatever the path, at most one entry of the list is active. */
  lemma AtMostOneActive(pathname: string)
    ensures forall i, j :: 0 <= i < j < |Navigation| ==>
      !(IsActive(pathname, Navigation[i].href) && IsActive(pathname, Navigation[j].href))
  {
    var h := seq(|Navigation|, i requires 0 <= i < |Navigation| => Navigation[i].href);
    assert h == ["/dashboard", "/plans", "/accountability/milestones", "/accountability/check-ins", "/settings"];
    // "/d…", "/p…", "/a…", "/s…" differ at 1; the two accountability pages differ at 16.
    NeverBothActive(pathname, h[0], h[1], 1);
    NeverBothActive(pathname, h[0], h[2], 1);
    NeverBothActive(pathname, h[0], h[3], 1);
    NeverBothActive(pathname, h[0], h[4], 1);
    NeverBothActive(pathname, h[1], h[2], 1);
    NeverBothActive(pathname, h[1], h[3], 1);
    NeverBothActive(pathname, h[1], h[4], 1);
    NeverBothActive(pathname, h[2], h[3], 16);
    NeverBothActive(pathname, h[2], h[4], 1);
    NeverBothActive(pathname, h[3], h[4], 1);
  }

  /** A path that merely shares the letters of an href does not activate
      it: `/plansX` leaves My Plans inactive. */
  lemma LookalikePathInactive()
    ensures !IsActive("/plansX", "/plans")
  {
    assert ("/plansX")[6] != '/';
  }

  /** A page nested below an entry activates it. */
  lemma NestedPathActive(rest: string)
    ensures IsActive("/accountability/milestones/" + rest, "/accountability/milestones")
  {
    var p := "/accountability/milestones/" + rest;
    assert p[..|"/accountability/milestones/"|] == "/accountability/milestones/";
  }
}
