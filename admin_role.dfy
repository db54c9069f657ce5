/**
 * The role flags every admin screen reads (src/hooks/use-admin.ts), derived
 * from the signed-in user's profile, which may not be loaded.
 */
module AdminRole {
  import opened Wrappers
  import opened Database

  datatype RoleFlags = RoleFlags(isAdmin: bool, isEditor: bool, isUser: bool, role: Option<UserRole>)

  /** `useAdmin`'s three flags and the role itself. */
  function Flags(profileRole: Option<UserRole>): (f: RoleFlags)
    ensures f.isAdmin <==> profileRole == Some(Admin)
    ensures f.isEditor <==> profileRole == Some(Editor) || profileRole == Some(Admin)
    ensures f.isUser <==> profileRole.Some?
    ensures f.role == profileRole
  {
    var isAdmin := profileRole == Some(Admin);
    RoleFlags(isAdmin, profileRole == Some(Editor) || isAdmin, profileRole.Some?, profileRole)
  }

  /** The flags are ordered: an admin is an editor, and an editor has a profile. */
  lemma FlagsAreOrdered(profileRole: Option<UserRole>)
    ensures Flags(profileRole).isAdmin ==> Flags(profileRole).isEditor
    ensures Flags(profileRole).isEditor ==> Flags(profileRole).isUser
    ensures profileRole.None? ==> !Flags(profileRole).isAdmin && !Flags(profileRole).isEditor
  {
  }
}
