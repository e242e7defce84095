/** The user-management screen: the per-user permission map and its checkbox grid, the status
    toggle, the role select list, and the client-side search over the fetched
    user list. Remote mutations are out of scope; what is modelled is what the screen computes. */
module Users {
  import opened Wrappers
  import opened Seqs
  import opened Text
  import opened Designations

  // ---------------------------------------------------------------------------------------
  // Permission map
  // ---------------------------------------------------------------------------------------

  /** One module's flags, keyed by action name; an action may be absent. */
  type ModulePermissions = map<string, bool>

  /** A user's permissions, keyed by module id; a module may be absent. */
  type UserPermissions = map<string, ModulePermissions>

  datatype PermissionModule = PermissionModule(id: string, caption: string)

  /** The module registry the permission editor lists, in display order. */
  const MODULES: seq<PermissionModule> := [
    PermissionModule("dashboard", "Dashboard"),
    PermissionModule("certificates", "Certificates"),
    PermissionModule("reports", "Reports"),
    PermissionModule("formats", "Formats"),
    PermissionModule("events", "Events"),
    PermissionModule("jobs", "Jobs"),
    PermissionModule("blogs", "Blogs"),
    PermissionModule("causes", "Causes"),
    PermissionModule("crowd-funding", "Crowd-Funding"),
    PermissionModule("forum", "Forum"),
    PermissionModule("shop", "Shop")
  ]

  /** The four actions offered per module, in display order. */
  const ACTIONS: seq<string> := ["read", "create", "update", "delete"]

  /** The registry's module ids: eleven of them, pairwise distinct. */
  function ModuleIds(): (ids: seq<string>)
    ensures |ids| == 11
    ensures forall i, j :: 0 <= i < j < |ids| ==> ids[i] != ids[j]
    ensures forall i :: 0 <= i < |ids| ==> ids[i] == MODULES[i].id
  {
    seq(|MODULES|, i requires 0 <= i < |MODULES| => MODULES[i].id)
  }

  /** The action names: four of them, pairwise distinct. */
  lemma ActionsDistinct()
    ensures |ACTIONS| == 4
    ensures forall i, j :: 0 <= i < j < |ACTIONS| ==> ACTIONS[i] != ACTIONS[j]
  {
  }

  /** The state the editor starts from: the user's stored map, or the empty map when absent. */
  function InitialPermissions(stored: Option<UserPermissions>): (p: UserPermissions)
    ensures stored.Some? ==> p == stored.value
    ensures stored.None? ==> forall m :: m !in p
  {
    stored.GetOr(map[])
  }

  /** The checkbox read-back: a missing module or a missing action reads as unchecked. */
  function Checked(p: UserPermissions, moduleId: string, action: string): (r: bool)
    ensures r ==> moduleId in p && action in p[moduleId]
    ensures moduleId in p && action in p[moduleId] ==> r == p[moduleId][action]
  {
    moduleId in p && action in p[moduleId] && p[moduleId][action]
  }

  /** `prev[module] || {}`: the module's flags, or no flags when the module is absent. */
  function Entry(p: UserPermissions, moduleId: string): ModulePermissions {
    if moduleId in p then p[moduleId] else map[]
  }

  /** Setting one flag of one module: the entry for `moduleId` (empty when absent) gets `action`
      set to `value`; every other module and every other action keeps its entry. */
  function ChangePermission(prev: UserPermissions, moduleId: string, action: string, value: bool)
    : (next: UserPermissions)
    ensures next.Keys == prev.Keys + {moduleId}
    ensures forall m :: m in prev && m != moduleId ==> next[m] == prev[m]
    ensures next[moduleId].Keys == (if moduleId in prev then prev[moduleId].Keys else {}) + {action}
    ensures next[moduleId][action] == value
    ensures forall a :: moduleId in prev && a in prev[moduleId] && a != action ==>
      next[moduleId][a] == prev[moduleId][a]
  {
    prev[moduleId := Entry(prev, moduleId)[action := value]]
  }

  /** After a change, the changed checkbox reads back the value that was set. */
  lemma CheckedAfterChange(p: UserPermissions, moduleId: string, action: string, value: bool)
    ensures Checked(ChangePermission(p, moduleId, action, value), moduleId, action) == value
  {
  }

  /** A change is local: every other (module, action) cell reads back as before. */
  lemma ChangeIsLocal(p: UserPermissions, moduleId: string, action: string, value: bool,
                      m: string, a: string)
    requires m != moduleId || a != action
    ensures Checked(ChangePermission(p, moduleId, action, value), m, a) == Checked(p, m, a)
  {
  }

  /** Changing a module that had no entry creates an entry holding only that action; the other
      flags of that module read as unchecked. */
  lemma ChangeOfAbsentModule(p: UserPermissions, moduleId: string, action: string, value: bool)
    requires moduleId !in p
    ensures ChangePermission(p, moduleId, action, value)[moduleId] == map[action := value]
    ensures forall a :: a != action ==> !Checked(ChangePermission(p, moduleId, action, value), moduleId, a)
  {
  }

  /** Setting the same cell twice keeps only the last value. */
  lemma ChangeLastWins(p: UserPermissions, moduleId: string, action: string, v: bool, w: bool)
    ensures ChangePermission(ChangePermission(p, moduleId, action, v), moduleId, action, w)
         == ChangePermission(p, moduleId, action, w)
  {
    var once := ChangePermission(p, moduleId, action, w);
    var twice := ChangePermission(ChangePermission(p, moduleId, action, v), moduleId, action, w);
    assert twice[moduleId] == once[moduleId];
  }

  /** Changes to two different cells commute. */
  lemma ChangesCommute(p: UserPermissions, m1: string, a1: string, v1: bool,
                       m2: string, a2: string, v2: bool)
    requires m1 != m2 || a1 != a2
    ensures ChangePermission(ChangePermission(p, m1, a1, v1), m2, a2, v2)
         == ChangePermission(ChangePermission(p, m2, a2, v2), m1, a1, v1)
  {
    var e1 := Entry(p, m1)[a1 := v1];
    var e2 := Entry(p, m2)[a2 := v2];
    if m1 != m2 {
      assert ChangePermission(p, m1, a1, v1)[m2 := e2] == ChangePermission(p, m2, a2, v2)[m1 := e1];
    } else {
      assert Entry(p, m1)[a1 := v1][a2 := v2] == Entry(p, m1)[a2 := v2][a1 := v1];
    }
  }

  /** The checkbox grid the editor renders: one row per registry module, one column per action. */
  function Grid(p: UserPermissions): (g: seq<seq<bool>>)
    ensures |g| == |MODULES|
    ensures forall i :: 0 <= i < |g| ==> |g[i]| == |ACTIONS|
    ensures forall i, j :: 0 <= i < |MODULES| && 0 <= j < |ACTIONS| ==>
      g[i][j] == Checked(p, MODULES[i].id, ACTIONS[j])
  {
    seq(|MODULES|, i requires 0 <= i < |MODULES| =>
      seq(|ACTIONS|, j requires 0 <= j < |ACTIONS| => Checked(p, MODULES[i].id, ACTIONS[j])))
  }

  /** A user without stored permissions sees every checkbox unchecked. */
  lemma GridOfNoPermissions(i: nat, j: nat)
    requires i < |MODULES| && j < |ACTIONS|
    ensures !Grid(InitialPermissions(None))[i][j]
  {
  }

  /** Clicking the checkbox in row `i`, column `j` flips that checkbox to `value` and no other. */
  lemma {:induction false} GridAfterClick(p: UserPermissions, i: nat, j: nat, value: bool)
    requires i < |MODULES| && j < |ACTIONS|
    ensures var g := Grid(ChangePermission(p, MODULES[i].id, ACTIONS[j], value));
      g[i][j] == value &&
      forall k, l :: 0 <= k < |MODULES| && 0 <= l < |ACTIONS| && (k != i || l != j) ==>
        g[k][l] == Grid(p)[k][l]
  {
    var ids := ModuleIds();
    ActionsDistinct();
    var next := ChangePermission(p, MODULES[i].id, ACTIONS[j], value);
    forall k, l | 0 <= k < |MODULES| && 0 <= l < |ACTIONS| && (k != i || l != j)
      ensures Grid(next)[k][l] == Grid(p)[k][l]
    {
      assert ids[k] == MODULES[k].id && ids[i] == MODULES[i].id;
      assert MODULES[k].id != MODULES[i].id || ACTIONS[l] != ACTIONS[j];
      ChangeIsLocal(p, MODULES[i].id, ACTIONS[j], value, MODULES[k].id, ACTIONS[l]);
    }
  }

  // ---------------------------------------------------------------------------------------
  // Status toggle
  // ---------------------------------------------------------------------------------------

  datatype UserStatus = Active | Inactive

  /** The status the toggle action requests: the other one of the two. */
  function Toggled(s: UserStatus): (r: UserStatus)
    ensures r != s
  {
    if s == Active then Inactive else Active
  }

  /** Toggling twice restores the original status. */
  lemma ToggleTwice(s: UserStatus)
    ensures Toggled(Toggled(s)) == s
  {
  }

  /** The payload handed to the status mutation. */
  datatype StatusUpdate = StatusUpdate(userId: string, status: UserStatus)

  /** The toggle action: asks the backend to set the user's status to the opposite one. */
  function ToggleStatusRequest(userId: string, current: UserStatus): (req: StatusUpdate)
    ensures req.userId == userId
    ensures current == Active ==> req.status == Inactive
    ensures current == Inactive ==> req.status == Active
  {
    StatusUpdate(userId, Toggled(current))
  }

  // ---------------------------------------------------------------------------------------
  // Roles
  // ---------------------------------------------------------------------------------------

  datatype Role =
    | Admin | RegularUser | CountryAdmin | StateAdmin | RegionalAdmin | DistrictAdmin
    | BlockAdmin | AreaAdmin

  /** The value of the role select's item for `x`. */
  function RoleValue(x: Role): string {
    match x
    case Admin => "admin"
    case RegularUser => "user"
    case CountryAdmin => "country-admin"
    case StateAdmin => "state-admin"
    case RegionalAdmin => "regional-admin"
    case DistrictAdmin => "district-admin"
    case BlockAdmin => "block-admin"
    case AreaAdmin => "area-admin"
  }

  /** The role select's items, in display order. */
  const ROLE_OPTIONS: seq<Role> := [
    Admin,
    RegularUser,
    CountryAdmin,
    StateAdmin,
    RegionalAdmin,
    DistrictAdmin,
    BlockAdmin,
    AreaAdmin
  ]

  /** The role a select value stands for, if any. */
  function ParseRole(value: string): (r: Option<Role>)
    ensures r.Some? ==> RoleValue(r.value) == value
  {
    if value == "admin" then Some(Admin) else
    if value == "user" then Some(RegularUser) else
    if value == "country-admin" then Some(CountryAdmin) else
    if value == "state-admin" then Some(StateAdmin) else
    if value == "regional-admin" then Some(RegionalAdmin) else
    if value == "district-admin" then Some(DistrictAdmin) else
    if value == "block-admin" then Some(BlockAdmin) else
    if value == "area-admin" then Some(AreaAdmin) else
    None
  }

  /** Every role value reads back as that role. */
  lemma ParseRoleValue(x: Role)
    ensures ParseRole(RoleValue(x)) == Some(x)
  {
  }

  /** The role select offers 8 items and every role once, so values identify roles. */
  lemma RoleOptionsComplete(x: Role)
    ensures |ROLE_OPTIONS| == 8
    ensures x in ROLE_OPTIONS
    ensures forall i, j :: 0 <= i < j < |ROLE_OPTIONS| ==>
      RoleValue(ROLE_OPTIONS[i]) != RoleValue(ROLE_OPTIONS[j])
  {
  }

  // ---------------------------------------------------------------------------------------
  // The fetched user list and its search box
  // ---------------------------------------------------------------------------------------

  /** A user as the list endpoint returns it. */
  datatype User = User(
    id: string,
    name: string,
    email: string,
    role: Role,
    designation: Option<Designation>,
    status: UserStatus,
    createdAt: string,
    permissions: Option<UserPermissions>)

  /** The search predicate: the lower-cased term is included in the lower-cased name or email. */
  predicate MatchesSearch(u: User, term: string) {
    Includes(ToLower(u.name), ToLower(term)) || Includes(ToLower(u.email), ToLower(term))
  }

  /** The rows the table shows: the fetched users that match the search term, in fetched order;
      no rows while nothing has been fetched. */
  function FilterUsers(fetched: Option<seq<User>>, term: string): (rows: seq<User>)
    ensures fetched.None? ==> rows == []
    ensures fetched.Some? ==> |rows| <= |fetched.value|
    ensures forall i :: 0 <= i < |rows| ==> fetched.Some? && rows[i] in fetched.value
  {
    match fetched
    case None => []
    case Some(users) => Filter(users, (u: User) => MatchesSearch(u, term))
  }

  /** Reference definition of a hit: the lower-cased term occurs in the lower-cased name or email. */
  ghost predicate SearchHit(u: User, term: string) {
    Occurs(ToLower(term), ToLower(u.name)) || Occurs(ToLower(term), ToLower(u.email))
  }

  /** The search predicate decides exactly the reference definition. */
  lemma MatchesSearchIff(u: User, term: string)
    ensures MatchesSearch(u, term) <==> SearchHit(u, term)
  {
    IncludesIffOccurs(ToLower(u.name), ToLower(term));
    IncludesIffOccurs(ToLower(u.email), ToLower(term));
  }

  /** A user is shown exactly when the lower-cased term occurs in the lower-cased name or email,
      and the rows keep the fetched order. */
  lemma FilterUsersSpec(users: seq<User>, term: string)
    ensures IsSubsequence(FilterUsers(Some(users), term), users)
    ensures forall i :: 0 <= i < |FilterUsers(Some(users), term)| ==>
      SearchHit(FilterUsers(Some(users), term)[i], term)
    ensures forall i :: 0 <= i < |users| && SearchHit(users[i], term) ==>
      users[i] in FilterUsers(Some(users), term)
    ensures forall u :: (multiset(FilterUsers(Some(users), term))[u] ==
      if MatchesSearch(u, term) then multiset(users)[u] else 0)
  {
    var rows := FilterUsers(Some(users), term);
    FilterIsSubsequence(users, (u: User) => MatchesSearch(u, term));
    FilterMultiset(users, (u: User) => MatchesSearch(u, term));
    forall i | 0 <= i < |rows|
      ensures SearchHit(rows[i], term)
    {
      MatchesSearchIff(rows[i], term);
    }
    forall i | 0 <= i < |users| && SearchHit(users[i], term)
      ensures users[i] in rows
    {
      MatchesSearchIff(users[i], term);
    }
  }

  /** With an empty search box every fetched user is shown, in fetched order. */
  lemma FilterUsersEmptyTerm(users: seq<User>)
    ensures FilterUsers(Some(users), "") == users
  {
    forall i | 0 <= i < |users|
      ensures MatchesSearch(users[i], "")
    {
      IncludesEmpty(ToLower(users[i].name));
    }
    FilterKeepsAll(users, (u: User) => MatchesSearch(u, ""));
  }

  /** A sample row for the two examples below. */
  const SAMPLE_USER := User("u1", "Anil Kumar", "anil.kumar@example.com", Admin, None, Active,
                            "2025-01-15", None)

  /** The search ignores case: "ANIL" finds the sample row by its name. */
  lemma FilterUsersIgnoresCase()
    ensures FilterUsers(Some([SAMPLE_USER]), "ANIL") == [SAMPLE_USER]
  {
    assert ToLower("ANIL") == "anil";
    assert ToLower(SAMPLE_USER.name) == "anil kumar";
    assert StartsWith("anil kumar", "anil");
    assert MatchesSearch(SAMPLE_USER, "ANIL");
  }

  /** A row with no 'z' in either field, in either case, is dropped by the term "zzz". */
  lemma FilterUsersNoHit(u: User)
    requires 'z' !in u.name && 'Z' !in u.name && 'z' !in u.email && 'Z' !in u.email
    ensures FilterUsers(Some([u]), "zzz") == []
  {
    LoweredExcludes(u.name);
    LoweredExcludes(u.email);
    assert !MatchesSearch(u, "zzz");
  }

  /** The term "zzz" finds nothing in the sample row. */
  lemma FilterUsersSampleNoHit()
    ensures FilterUsers(Some([SAMPLE_USER]), "zzz") == []
  {
    assert 'z' !in SAMPLE_USER.name && 'Z' !in SAMPLE_USER.name;
    assert 'z' !in SAMPLE_USER.email && 'Z' !in SAMPLE_USER.email;
    FilterUsersNoHit(SAMPLE_USER);
  }

  /** A field with no 'z' or 'Z' does not include "zzz" in any case. */
  lemma LoweredExcludes(field: string)
    requires 'z' !in field && 'Z' !in field
    ensures !Includes(ToLower(field), ToLower("zzz"))
  {
    assert ToLower("zzz") == "zzz";
    assert 'z' !in ToLower(field);
    ExcludesWithoutFirstChar(ToLower(field), "zzz");
  }
}
