/**
 * The wrapper around the admin screens (src/components/admin/AdminOnly.tsx):
 * a spinner while the profile loads, then either the screen or a denial
 * panel with a redirect to the dashboard.
 */
module AdminGate {
  import opened Wrappers
  import opened Database
  import opened AdminRole

  /** Editors are let in unless the screen says otherwise. */
  const DefaultAllowEditor := true

  /** `isAdmin || (allowEditor && isEditor)`. */
  function HasPermission(flags: RoleFlags, allowEditor: bool): (ok: bool)
    ensures ok <==> flags.isAdmin || (allowEditor && flags.isEditor)
  {
    flags.isAdmin || (allowEditor && flags.isEditor)
  }

  datatype View = Spinner | Denied | Screen

  /** What the gate shows, and whether its effect sends the browser to the dashboard. */
  datatype Decision = Decision(view: View, redirectToAdmin: bool)

  function Decide(flags: RoleFlags, loading: bool, allowEditor: bool): (d: Decision)
    ensures loading ==> d == Decision(Spinner, false)
    ensures d.view == Screen <==> !loading && HasPermission(flags, allowEditor)
    ensures d.redirectToAdmin <==> !loading && !HasPermission(flags, allowEditor)
    ensures d.redirectToAdmin <==> d.view == Denied
  {
    if loading then Decision(Spinner, false)
    else if HasPermission(flags, allowEditor) then Decision(Screen, false)
    else Decision(Denied, true)
  }

  /** In terms of the role: admins always get in, editors only where editors are allowed, others never. */
  lemma GateByRole(profileRole: Option<UserRole>, allowEditor: bool)
    ensures Decide(Flags(profileRole), false, allowEditor).view == Screen <==>
      profileRole == Some(Admin) || (allowEditor && profileRole == Some(Editor))
    ensures !allowEditor && profileRole == Some(Editor) ==>
      Decide(Flags(profileRole), false, allowEditor) == Decision(Denied, true)
  {
  }
}
