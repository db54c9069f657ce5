/**
 * The user management page (src/app/admin/users/page.tsx): the role and
 * search filters, the role cards, the role labels and badges, and the name
 * and initial shown for a user.
 *
 * The fetch is a backend call; its outcome is a parameter.
 */
module UserList {
  import opened Wrappers
  import opened Strings
  import opened Seqs
  import opened Database
  import opened Display

  /** A row of `profiles` as the page reads it; `role` is the stored text. */
  datatype UserRow = UserRow(
    id: string,
    email: string,
    name: Option<string>,
    displayName: Option<string>,
    role: string,
    avatarUrl: Option<string>)

  /** `getRoleLabel`: admin and editor get their labels, anything else is a plain user. */
  function RoleLabel(role: string): (shown: string)
    ensures ParseRole(role) == Some(Admin) ==> shown == "관리자"
    ensures ParseRole(role) == Some(Editor) ==> shown == "에디터"
    ensures ParseRole(role) != Some(Admin) && ParseRole(role) != Some(Editor) ==> shown == "일반 사용자"
  {
    if role == "admin" then "관리자"
    else if role == "editor" then "에디터"
    else "일반 사용자"
  }

  /** `getRoleBadgeVariant`: admin and editor get their badges, anything else the outline badge. */
  function RoleBadgeVariant(role: string): (v: BadgeVariant)
    ensures v == Default <==> ParseRole(role) == Some(Admin)
    ensures v == Secondary <==> ParseRole(role) == Some(Editor)
  {
    if role == "admin" then Default
    else if role == "editor" then Secondary
    else Outline
  }

  /** The three roles get three different labels and three different badges. */
  lemma RolesShownDistinctly(r: UserRole, t: UserRole)
    requires r != t
    ensures RoleLabel(RoleName(r)) != RoleLabel(RoleName(t))
    ensures RoleBadgeVariant(RoleName(r)) != RoleBadgeVariant(RoleName(t))
  {
    RoleNameRoundTrip(r);
    RoleNameRoundTrip(t);
  }

  /** The name column: the display name, else the name, else "이름 없음". */
  function ShownName(u: UserRow): (shown: string)
    ensures shown != ""
    ensures u.displayName.Some? && u.displayName.value != "" ==> shown == u.displayName.value
    ensures (u.displayName.None? || u.displayName.value == "") && u.name.Some? && u.name.value != ""
      ==> shown == u.name.value
    ensures (u.displayName.None? || u.displayName.value == "") && (u.name.None? || u.name.value == "")
      ==> shown == "이름 없음"
  {
    OrElse(u.displayName, OrElse(u.name, "이름 없음"))
  }

  /** The avatar placeholder: the upper-cased first character of the name, else of the email. */
  function Initial(u: UserRow): (r: string)
    ensures |r| <= 1
    ensures u.name.Some? && u.name.value != "" ==> r == [Upper(u.name.value[0])]
    ensures (u.name.None? || u.name.value == "") && u.email != "" ==> r == [Upper(u.email[0])]
  {
    UpperInitial(OrElse(u.name, u.email))
  }

  /** `text?.toLowerCase().includes(term.toLowerCase())`: a null text never matches. */
  predicate OptionalMatches(text: Option<string>, term: string) {
    text.Some? && ContainsIgnoringCase(text.value, term)
  }

  /** The search: email, name or display name contains the term, ignoring case. */
  predicate UserMatches(u: UserRow, term: string) {
    ContainsIgnoringCase(u.email, term) || OptionalMatches(u.name, term)
    || OptionalMatches(u.displayName, term)
  }

  /** The role filter: `None` is "all", otherwise the stored role must be that role's name. */
  predicate HasChosenRole(u: UserRow, selected: Option<UserRole>) {
    selected.None? || u.role == RoleName(selected.value)
  }

  predicate UserAdmits(u: UserRow, selected: Option<UserRole>, term: string) {
    HasChosenRole(u, selected) && (term == "" || UserMatches(u, term))
  }

  function RoleStage(selected: Option<UserRole>): UserRow -> bool {
    u => HasChosenRole(u, selected)
  }

  function SearchStage(term: string): UserRow -> bool {
    u => term == "" || UserMatches(u, term)
  }

  function UserAdmit(selected: Option<UserRole>, term: string): UserRow -> bool {
    u => UserAdmits(u, selected, term)
  }

  /** The users the table lists. */
  function UserFilterView(users: seq<UserRow>, selected: Option<UserRole>, term: string): seq<UserRow> {
    Filter(users, UserAdmit(selected, term))
  }

  /**
   * A user is listed iff fetched, holding the chosen role (any role for
   * "all"), and matching the search on email, name or display name.
   */
  lemma UserFilterMembers(users: seq<UserRow>, selected: Option<UserRole>, term: string, u: UserRow)
    ensures u in UserFilterView(users, selected, term) <==>
      u in users
      && (selected.Some? ==> ParseRole(u.role) == selected)
      && (term != "" ==> UserMatches(u, term))
  {
    FilterMembership(users, UserAdmit(selected, term), u);
    if selected.Some? {
      RoleNameRoundTrip(selected.value);
    }
  }

  /** The listed users are an order-preserving subsequence of the fetched users. */
  lemma UserFilterSubseq(users: seq<UserRow>, selected: Option<UserRole>, term: string)
    ensures Subseq(UserFilterView(users, selected, term), users)
  {
    FilterIsSubseq(users, UserAdmit(selected, term));
  }

  /** A user with neither name nor display name is found by email alone. */
  lemma NullNamesNeverMatch(u: UserRow, term: string)
    requires u.name.None? && u.displayName.None?
    ensures UserMatches(u, term) <==> ContainsIgnoringCase(u.email, term)
  {
  }

  function HasRole(r: UserRole): UserRow -> bool {
    (u: UserRow) => u.role == RoleName(r)
  }

  /** A role card: the users whose stored role is `r`. */
  function RoleCount(users: seq<UserRow>, r: UserRole): nat {
    Count(users, HasRole(r))
  }

  /** When every stored role is one of the three, the role cards add up to the total card. */
  lemma {:induction false} RoleCountsSumToTotal(users: seq<UserRow>)
    requires forall i :: 0 <= i < |users| ==> ParseRole(users[i].role).Some?
    ensures RoleCount(users, Admin) + RoleCount(users, Editor) + RoleCount(users, User) == |users|
  {
    if users != [] {
      RoleCountsSumToTotal(users[1..]);
      assert ParseRole(users[0].role).Some?;
    }
  }

  class UsersPage {
    var users: seq<UserRow>
    var filteredUsers: seq<UserRow>
    var searchTerm: string
    var loadingUsers: bool
    var selectedRole: Option<UserRole>

    constructor()
      ensures users == [] && filteredUsers == [] && searchTerm == ""
      ensures loadingUsers && selectedRole.None?
    {
      users := [];
      filteredUsers := [];
      searchTerm := "";
      loadingUsers := true;
      selectedRole := None;
    }

    /** Loads the users; a failed fetch keeps the list, an absent result stores the empty list. */
    method FetchUsers(failed: bool, data: Option<seq<UserRow>>)
      modifies this`users, this`loadingUsers
      ensures users == if failed then old(users) else data.GetOr([])
      ensures !loadingUsers
    {
      loadingUsers := true;
      if !failed {
        users := data.GetOr([]);
      }
      loadingUsers := false;
    }

    /** The filter effect: the role stage, then the search stage. */
    method ApplyFilters()
      modifies this`filteredUsers
      ensures filteredUsers == UserFilterView(users, selectedRole, searchTerm)
    {
      var filtered := users;
      if selectedRole.Some? {
        filtered := Filter(filtered, RoleStage(selectedRole));
      } else {
        FilterKeepsAll(filtered, RoleStage(selectedRole));
      }
      if searchTerm != "" {
        filtered := Filter(filtered, SearchStage(searchTerm));
      } else {
        FilterKeepsAll(filtered, SearchStage(searchTerm));
      }
      FilterFusion(users, RoleStage(selectedRole), SearchStage(searchTerm), UserAdmit(selectedRole, searchTerm));
      filteredUsers := filtered;
    }
  }
}
