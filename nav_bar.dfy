/** The navigation of src/components/NavBar.tsx: which links are visible,
 *  which one is active, and the name shown for the signed-in user. */
module NavBar {
  import opened Common
  import opened Types

  datatype NavLink = NavLink(href: string, title: string, isProtected: bool)

  const NAV_LINKS: seq<NavLink> := [
    NavLink("/", "Home", false),
    NavLink("/scan", "Scan", true),
    NavLink("/compare", "Compare", true),
    NavLink("/history", "History", true)
  ]

  /** `visibleLinks`: the unprotected links, and the protected ones only when
      signed in, in list order. */
  function VisibleLinks(isAuthenticated: bool): (links: seq<NavLink>)
    ensures Subsequence(links, NAV_LINKS)
    ensures forall i :: 0 <= i < |links| ==> links[i] in NAV_LINKS && (!links[i].isProtected || isAuthenticated)
    ensures forall i :: 0 <= i < |NAV_LINKS| && (!NAV_LINKS[i].isProtected || isAuthenticated) ==>
              NAV_LINKS[i] in links
  {
    FilterIsSubsequence(NAV_LINKS, (link: NavLink) => !link.isProtected || isAuthenticated);
    Filter(NAV_LINKS, (link: NavLink) => !link.isProtected || isAuthenticated)
  }

  /** Signed out, only the home link shows; signed in, all four in order. */
  lemma VisibleLinksBySession()
    ensures VisibleLinks(false) == [NavLink("/", "Home", false)]
    ensures VisibleLinks(true) == NAV_LINKS
  {
    FilterAll(NAV_LINKS, (link: NavLink) => !link.isProtected || true);
    var links := VisibleLinks(false);
    assert NAV_LINKS[1..][1..][1..][1..] == [];
  }

  /** A link is highlighted when the current path is its own. */
  predicate IsActive(pathname: string, link: NavLink) {
    pathname == link.href
  }

  /** At most one visible link is highlighted. */
  lemma AtMostOneActive(pathname: string, isAuthenticated: bool, i: int, j: int)
    requires 0 <= i < |VisibleLinks(isAuthenticated)| && 0 <= j < |VisibleLinks(isAuthenticated)|
    requires IsActive(pathname, VisibleLinks(isAuthenticated)[i]) && IsActive(pathname, VisibleLinks(isAuthenticated)[j])
    ensures VisibleLinks(isAuthenticated)[i] == VisibleLinks(isAuthenticated)[j]
  {
    var links := VisibleLinks(isAuthenticated);
    HrefIdentifiesLink(links[i], links[j]);
  }

  /** No two links share a path. */
  lemma HrefIdentifiesLink(a: NavLink, b: NavLink)
    requires a in NAV_LINKS && b in NAV_LINKS && a.href == b.href
    ensures a == b
  {
  }

  /** `user?.name || "User"`. */
  function DisplayName(user: Option<User>): (name: string)
    ensures name != ""
    ensures user.Some? && user.value.name != "" ==> name == user.value.name
    ensures user.None? || user.value.name == "" ==> name == "User"
  {
    if user.Some? then Or(user.value.name, "User") else "User"
  }
}
