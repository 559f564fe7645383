/** The Entra side of a plan: which role values are managed, and which folded
    user properties are granted which of them. */
module Directory {
  import opened Text
  import opened SortedSets
  import opened Ownership

  datatype User = User(id: Str, displayName: Str, mail: Str, userPrincipalName: Str)
  datatype AppRole = AppRole(id: Str, value: Str, allowedMemberTypes: seq<Str>, isEnabled: bool)
  datatype Assignment = Assignment(principalId: Str, principalType: Str, appRoleId: Str)

  const USER := Str("User")
  const GROUP := Str("Group")
  const DEFAULT_ACCESS := Str("00000000-0000-0000-0000-000000000000")

  datatype ScopeData = ScopeData(current: seq<Str>, grantsByGroup: map<Str, seq<Str>>)

  predicate ValidScope(s: ScopeData) {
    forall g | g in s.grantsByGroup ::
      s.grantsByGroup[g] != [] && Elems(s.grantsByGroup[g]) <= Elems(s.current)
  }

  /** A role scope's fields are private to its package, so every scope is one
      that ResolveRoleScope built, or the zero value. */
  type RoleScope = s: ScopeData | ValidScope(s) witness ScopeData([], map[])

  type Members = map<Str, seq<User>>

  // ---- Roles and assignments ----

  predicate UserRole(role: AppRole) {
    USER in role.allowedMemberTypes
  }

  function UserValues(roles: seq<AppRole>): set<Str> {
    set r | r in roles && UserRole(r) :: r.value
  }

  /** The value that an enabled User role gives to `id` among the first `n`
      roles; the last such role wins. */
  function EnabledValue(roles: seq<AppRole>, n: nat, id: Str): Option<Str>
    requires n <= |roles|
  {
    if n == 0 then None
    else if UserRole(roles[n - 1]) && roles[n - 1].isEnabled && roles[n - 1].id == id then Some(roles[n - 1].value)
    else EnabledValue(roles, n - 1, id)
  }

  /** Assignment `a` gives group `g` the value `v`. */
  predicate Gives(roles: seq<AppRole>, a: Assignment, g: Str, v: Str) {
    && a.principalType == GROUP && a.principalId == g && a.appRoleId != DEFAULT_ACCESS
    && EnabledValue(roles, |roles|, a.appRoleId) == Some(v)
  }

  ghost predicate Assigned(roles: seq<AppRole>, assignments: seq<Assignment>, g: Str, v: Str) {
    exists a :: a in assignments && Gives(roles, a, g, v)
  }

  /** With distinct enabled role IDs, "the last one wins" is just "some role". */
  lemma {:induction false} EnabledValueIsSomeRole(roles: seq<AppRole>, n: nat, id: Str, v: Str)
    requires n <= |roles|
    requires forall i, j | 0 <= i < j < |roles| && roles[i].isEnabled && roles[j].isEnabled ::
               roles[i].id != roles[j].id
    ensures EnabledValue(roles, n, id) == Some(v) <==>
            exists i | 0 <= i < n :: EnabledForUsers(roles[i], id) && roles[i].value == v
  {
    if n > 0 { EnabledValueIsSomeRole(roles, n - 1, id, v); }
  }

  method EnabledRoles(roles: seq<AppRole>) returns (current: seq<Str>, enabled: map<Str, Str>)
    ensures Elems(current) == UserValues(roles)
    ensures forall id :: id in enabled <==> EnabledValue(roles, |roles|, id).Some?
    ensures forall id | id in enabled :: EnabledValue(roles, |roles|, id) == Some(enabled[id])
  {
    current, enabled := [], map[];
    for n := 0 to |roles|
      invariant Elems(current) == UserValues(roles[..n])
      invariant forall id :: id in enabled <==> EnabledValue(roles, n, id).Some?
      invariant forall id | id in enabled :: EnabledValue(roles, n, id) == Some(enabled[id])
    {
      var role := roles[n];
      TakeOne(roles, n);
      if UserRole(role) {
        ElemsAppend(current, [role.value]);
        current := current + [role.value];
        if role.isEnabled {
          enabled := enabled[role.id := role.value];
        }
      }
    }
    assert roles[..|roles|] == roles;
  }

  predicate GivesAny(roles: seq<AppRole>, a: Assignment, g: Str) {
    && a.principalType == GROUP && a.principalId == g && a.appRoleId != DEFAULT_ACCESS
    && EnabledValue(roles, |roles|, a.appRoleId).Some?
  }

  function GroupValues(roles: seq<AppRole>, assignments: seq<Assignment>, n: nat, g: Str): set<Str>
    requires n <= |assignments|
  {
    if n == 0 then {}
    else
      var before := GroupValues(roles, assignments, n - 1, g);
      var a := assignments[n - 1];
      if GivesAny(roles, a, g) then before + {EnabledValue(roles, |roles|, a.appRoleId).value} else before
  }

  lemma {:induction false} GroupValuesAreAssigned(roles: seq<AppRole>, assignments: seq<Assignment>, n: nat, g: Str,
                                                  v: Str)
    requires n <= |assignments|
    ensures v in GroupValues(roles, assignments, n, g) <==> exists i | 0 <= i < n :: Gives(roles, assignments[i], g, v)
    ensures GroupValues(roles, assignments, n, g) <= UserValues(roles)
  {
    if n > 0 {
      GroupValuesAreAssigned(roles, assignments, n - 1, g, v);
      EnabledIsUserValue(roles, |roles|, assignments[n - 1].appRoleId);
    }
  }

  method GroupGrants(roles: seq<AppRole>, enabled: map<Str, Str>, assignments: seq<Assignment>)
    returns (groups: map<Str, seq<Str>>)
    requires forall id :: id in enabled <==> EnabledValue(roles, |roles|, id).Some?
    requires forall id | id in enabled :: EnabledValue(roles, |roles|, id) == Some(enabled[id])
    ensures forall g :: g in groups <==> GroupValues(roles, assignments, |assignments|, g) != {}
    ensures forall g | g in groups :: groups[g] == Sorted(GroupValues(roles, assignments, |assignments|, g))
  {
    groups := map[];
    for n := 0 to |assignments|
      invariant forall g :: g in groups <==> GroupValues(roles, assignments, n, g) != {}
      invariant forall g | g in groups :: groups[g] == Sorted(GroupValues(roles, assignments, n, g))
    {
      var a := assignments[n];
      if a.appRoleId !in enabled || a.principalType != GROUP || a.appRoleId == DEFAULT_ACCESS {
        continue;
      }
      var had := if a.principalId in groups then groups[a.principalId] else [];
      assert Elems(had) == GroupValues(roles, assignments, n, a.principalId);
      ElemsAppend(had, [enabled[a.appRoleId]]);
      var now := SortedSet(had + [enabled[a.appRoleId]]);
      assert Elems(had + [enabled[a.appRoleId]]) == GroupValues(roles, assignments, n + 1, a.principalId);
      groups := groups[a.principalId := now];
    }
  }

  lemma CurrentIff(roles: seq<AppRole>, current: seq<Str>)
    requires Elems(current) == UserValues(roles)
    ensures forall v :: v in current <==> exists r | r in roles :: Str("User") in r.allowedMemberTypes && r.value == v
    ensures current == [] <==> forall r | r in roles :: Str("User") !in r.allowedMemberTypes
  {
    assert forall v :: v in current <==> v in Elems(current);
    if r :| r in roles && Str("User") in r.allowedMemberTypes { assert r.value in UserValues(roles); }
    if current != [] { assert current[0] in Elems(current); }
  }

  method ResolveRoleScope(roles: seq<AppRole>, assignments: seq<Assignment>) returns (r: Option<RoleScope>)
    ensures r.None? <==> forall role | role in roles :: Str("User") !in role.allowedMemberTypes
    ensures r.Some? ==> ScopeOf(roles, assignments, r.value)
  {
    var current, enabled := EnabledRoles(roles);
    NonEmptyElems(current);
    CurrentIff(roles, current);
    if current == [] { return None; }
    var groups := GroupGrants(roles, enabled, assignments);
    current := SortedSet(current);
    CurrentIff(roles, current);
    var scope := ScopeData(current, groups);
    forall g, v
      ensures (g in groups && v in groups[g]) <==> Conferred(roles, assignments, g, v)
    {
      AssignedIff(roles, assignments, g, v);
      GroupValuesAreAssigned(roles, assignments, |assignments|, g, v);
      if g in groups { assert v in groups[g] <==> v in Elems(groups[g]); }
    }
    forall g | g in groups ensures groups[g] != [] && Elems(groups[g]) <= Elems(current) {
      GroupValuesAreAssigned(roles, assignments, |assignments|, g, EMPTY);
      NonEmptyElems(groups[g]);
    }
    r := Some(scope);
  }

  lemma {:induction false} EnabledIsUserValue(roles: seq<AppRole>, n: nat, id: Str)
    requires n <= |roles|
    ensures EnabledValue(roles, n, id).Some? ==> EnabledValue(roles, n, id).value in UserValues(roles)
  {
    if n > 0 { EnabledIsUserValue(roles, n - 1, id); }
  }

  // ---- Group members ----

  function SelectedProperty(user: User, property: Str): Str {
    if property == Str("id") then user.id
    else if property == Str("userPrincipalName") then user.userPrincipalName
    else user.mail
  }

  function UsersOf(members: Members, g: Str): seq<User> {
    if g in members then members[g] else []
  }

  predicate Matches(u: User, property: Str, key: Str) {
    SelectedProperty(u, property) != EMPTY && Fold(SelectedProperty(u, property)) == key
  }

  /** One of the first `n` users has a non-empty selected property that folds to `key`. */
  ghost predicate Lists(users: seq<User>, n: nat, property: Str, key: Str)
    requires n <= |users|
  {
    exists i | 0 <= i < n :: Matches(users[i], property, key)
  }

  /** Group `g` carries roles and lists a user under `key`. */
  ghost predicate Reaches(scope: RoleScope, members: Members, property: Str, key: Str, g: Str) {
    g in scope.grantsByGroup && Lists(UsersOf(members, g), |UsersOf(members, g)|, property, key)
  }

  ghost predicate Granted(scope: RoleScope, members: Members, property: Str, key: Str, v: Str) {
    exists g :: Reaches(scope, members, property, key, g) && v in scope.grantsByGroup[g]
  }

  /** The values granted to a folded property: none when no user has it. */
  ghost function GrantSet(scope: RoleScope, members: Members, property: Str, key: Str): (r: set<Str>)
    ensures r <= Elems(scope.current)
  {
    set v | v in Elems(scope.current) && Granted(scope, members, property, key, v)
  }

  lemma GrantSetIff(scope: RoleScope, members: Members, property: Str, key: Str, v: Str)
    ensures v in GrantSet(scope, members, property, key) <==> Granted(scope, members, property, key, v)
  {
    if Granted(scope, members, property, key, v) {
      var g :| Reaches(scope, members, property, key, g) && v in scope.grantsByGroup[g];
      assert v in Elems(scope.grantsByGroup[g]);
    }
  }

  /** The grants of a resolved scope, straight from roles, assignments and
      members: an enabled User role with value `v`, assigned (not as Default
      Access) to a group that contains a user whose object ID, user principal
      name or mail, as the property selects, is not empty and folds to the key.
      Nothing in it depends on the order of assignments or members. */
  lemma GrantsFromDirectory(roles: seq<AppRole>, assignments: seq<Assignment>, scope: RoleScope,
                            members: Members, property: Str, key: Str, v: Str)
    requires ScopeOf(roles, assignments, scope)
    ensures property == Str("id") ==>
              (v in GrantSet(scope, members, property, key) <==>
               exists a, i, u | Confers(roles, assignments, a, i, v) && Member(members, a.principalId, u) ::
                 u.id != EMPTY && Fold(u.id) == key)
    ensures property == Str("userPrincipalName") ==>
              (v in GrantSet(scope, members, property, key) <==>
               exists a, i, u | Confers(roles, assignments, a, i, v) && Member(members, a.principalId, u) ::
                 u.userPrincipalName != EMPTY && Fold(u.userPrincipalName) == key)
    ensures property != Str("id") && property != Str("userPrincipalName") ==>
              (v in GrantSet(scope, members, property, key) <==>
               exists a, i, u | Confers(roles, assignments, a, i, v) && Member(members, a.principalId, u) ::
                 u.mail != EMPTY && Fold(u.mail) == key)
  {
    GrantSetIff(scope, members, property, key, v);
    if Granted(scope, members, property, key, v) {
      var g :| Reaches(scope, members, property, key, g) && v in scope.grantsByGroup[g];
      assert Conferred(roles, assignments, g, v);
      var a, i :| Confers(roles, assignments, a, i, v) && a.principalId == g;
      var k :| 0 <= k < |UsersOf(members, g)| && Matches(UsersOf(members, g)[k], property, key);
      assert Member(members, a.principalId, UsersOf(members, g)[k]);
    }
    forall a, i, u | Confers(roles, assignments, a, i, v) && Member(members, a.principalId, u)
                     && Matches(u, property, key)
      ensures Granted(scope, members, property, key, v)
    {
      assert Conferred(roles, assignments, a.principalId, v);
      var users := UsersOf(members, a.principalId);
      var k :| 0 <= k < |users| && users[k] == u;
      assert Reaches(scope, members, property, key, a.principalId);
    }
  }

  ghost predicate Member(members: Members, g: Str, u: User) {
    g in members && u in members[g]
  }

  ghost predicate EnabledForUsers(role: AppRole, id: Str) {
    Str("User") in role.allowedMemberTypes && role.isEnabled && role.id == id
  }

  /** Of the first `n` roles, `i` is the last enabled User role with ID `id`, the
      one that counts. */
  ghost predicate Counts(roles: seq<AppRole>, n: nat, i: nat, id: Str)
    requires n <= |roles|
  {
    i < n && EnabledForUsers(roles[i], id) && forall j | i < j < n :: !EnabledForUsers(roles[j], id)
  }

  /** Assignment `a` confers role `i`, with value `v`, on its group. */
  ghost predicate Confers(roles: seq<AppRole>, assignments: seq<Assignment>, a: Assignment, i: nat, v: Str) {
    && a in assignments && a.principalType == Str("Group")
    && a.appRoleId != Str("00000000-0000-0000-0000-000000000000")
    && Counts(roles, |roles|, i, a.appRoleId) && roles[i].value == v
  }

  ghost predicate Conferred(roles: seq<AppRole>, assignments: seq<Assignment>, g: Str, v: Str) {
    exists a, i :: Confers(roles, assignments, a, i, v) && a.principalId == g
  }

  /** What ResolveRoleScope promises: every User role's value, enabled or not, is
      current, and groups are granted what their assignments confer. */
  ghost predicate ScopeOf(roles: seq<AppRole>, assignments: seq<Assignment>, scope: RoleScope) {
    && StrictlySorted(scope.current)
    && (forall v :: v in scope.current <==>
          exists r | r in roles :: Str("User") in r.allowedMemberTypes && r.value == v)
    && (forall g, v :: (g in scope.grantsByGroup && v in scope.grantsByGroup[g]) <==>
                       Conferred(roles, assignments, g, v))
    && (forall g | g in scope.grantsByGroup :: StrictlySorted(scope.grantsByGroup[g]) && scope.grantsByGroup[g] != [])
  }

  lemma {:induction false} EnabledValueIsLast(roles: seq<AppRole>, n: nat, id: Str, i: nat)
    requires n <= |roles| && Counts(roles, n, i, id)
    ensures EnabledValue(roles, n, id) == Some(roles[i].value)
  {
    if i < n - 1 {
      assert !EnabledForUsers(roles[n - 1], id);
      EnabledValueIsLast(roles, n - 1, id, i);
    }
  }

  lemma {:induction false} EnabledValueCounts(roles: seq<AppRole>, n: nat, id: Str) returns (i: nat)
    requires n <= |roles| && EnabledValue(roles, n, id).Some?
    ensures Counts(roles, n, i, id)
  {
    if EnabledForUsers(roles[n - 1], id) {
      i := n - 1;
    } else {
      i := EnabledValueCounts(roles, n - 1, id);
    }
  }

  lemma AssignedIff(roles: seq<AppRole>, assignments: seq<Assignment>, g: Str, v: Str)
    ensures Assigned(roles, assignments, g, v) <==> Conferred(roles, assignments, g, v)
  {
    if Assigned(roles, assignments, g, v) {
      var a :| a in assignments && Gives(roles, a, g, v);
      var i := EnabledValueCounts(roles, |roles|, a.appRoleId);
      EnabledValueIsLast(roles, |roles|, a.appRoleId, i);
      assert Confers(roles, assignments, a, i, v);
    }
    if a, i :| Confers(roles, assignments, a, i, v) && a.principalId == g {
      EnabledValueIsLast(roles, |roles|, a.appRoleId, i);
      assert Gives(roles, a, g, v);
    }
  }

  /** The folded properties that are granted something. */
  ghost function GrantKeys(scope: RoleScope, members: Members, property: Str): set<Str> {
    set g, u | g in scope.grantsByGroup && u in UsersOf(members, g) && SelectedProperty(u, property) != EMPTY
      :: Fold(SelectedProperty(u, property))
  }

  lemma GrantKeysIff(scope: RoleScope, members: Members, property: Str, key: Str)
    ensures key in GrantKeys(scope, members, property) <==> GrantSet(scope, members, property, key) != {}
    ensures key in GrantKeys(scope, members, property) ==> key != EMPTY
  {
    if key in GrantKeys(scope, members, property) {
      var g, u :| g in scope.grantsByGroup && u in UsersOf(members, g)
                  && SelectedProperty(u, property) != EMPTY && Fold(SelectedProperty(u, property)) == key;
      assert Matches(u, property, key);
      assert Reaches(scope, members, property, key, g);
      var v := scope.grantsByGroup[g][0];
      GrantSetIff(scope, members, property, key, v);
    }
    if v :| v in GrantSet(scope, members, property, key) {
      GrantSetIff(scope, members, property, key, v);
      var g :| Reaches(scope, members, property, key, g);
      var i :| 0 <= i < |UsersOf(members, g)| && Matches(UsersOf(members, g)[i], property, key);
      assert UsersOf(members, g)[i] in UsersOf(members, g);
    }
  }

  method GroupIds(scope: RoleScope) returns (groups: seq<Str>)
    ensures groups == Sorted(scope.grantsByGroup.Keys)
  {
    groups := SortMembers(scope.grantsByGroup.Keys);
  }
}
