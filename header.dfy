/**
 * The site header (src/components/layout/Header.tsx): which nav link is
 * active, the name and initial shown for the signed-in user, and the menu
 * entries that depend on the role.
 */
module Header {
  import opened Wrappers
  import opened Strings
  import opened Database
  import opened Display

  /** `isActive`: the home link only on the home page; any other link on its whole subtree. */
  predicate IsActive(pathname: string, href: string) {
    if href == "/" then pathname == "/" else StartsWith(pathname, href)
  }

  /** The nav links in order. */
  const NavHrefs: seq<string> := ["/", "/write", "/exhibitions", "/gallery"]

  /** On the home page only the home link is lit; away from it, the home link never is. */
  lemma HomeLinkExact(pathname: string)
    ensures IsActive(pathname, "/") <==> pathname == "/"
    ensures pathname == "/" ==> forall i :: 1 <= i < |NavHrefs| ==> !IsActive(pathname, NavHrefs[i])
  {
  }

  /** A link stays lit on every page below it. */
  lemma ActiveBelow(pathname: string, href: string, rest: string)
    requires href != "/" && IsActive(pathname, href)
    ensures IsActive(pathname + rest, href)
  {
    assert (pathname + rest)[..|href|] == pathname[..|href|];
  }

  /** The header's name: the profile name, else the email before '@', else "사용자". */
  function HeaderName(profileName: Option<string>, email: Option<string>): (r: string)
    ensures r != ""
    ensures profileName.Some? && profileName.value != "" ==> r == profileName.value
    ensures (profileName.None? || profileName.value == "") && email.Some? && BeforeFirst(email.value, '@') != ""
      ==> r == BeforeFirst(email.value, '@')
    ensures (profileName.None? || profileName.value == "") && (email.None? || BeforeFirst(email.value, '@') == "")
      ==> r == "사용자"
  {
    OrElse(profileName, OrElse(EmailLocalPart(email), "사용자"))
  }

  /** The user menu entries that depend on the role. */
  datatype RoleMenu = RoleMenu(adminNav: bool, managementPanel: bool, roleLabel: Option<string>)

  /** The label under the email: none for plain users. */
  function RoleLabel(role: Option<UserRole>): (r: Option<string>)
    ensures r.Some? <==> role == Some(Editor) || role == Some(Admin)
    ensures r == Some("관리자") <==> role == Some(Admin)
  {
    match role
    case Some(Admin) => Some("관리자")
    case Some(Editor) => Some("에디터")
    case _ => None
  }

  /** The admin nav link follows `isAdmin`; the management link and the label follow the role. */
  function Menu(isAdmin: bool, role: Option<UserRole>): (m: RoleMenu)
    ensures m.adminNav <==> isAdmin
    ensures m.managementPanel <==> role == Some(Editor) || role == Some(Admin)
    ensures m.roleLabel.Some? <==> m.managementPanel
  {
    RoleMenu(isAdmin, role == Some(Editor) || role == Some(Admin), RoleLabel(role))
  }
}
