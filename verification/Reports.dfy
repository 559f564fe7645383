/** What a plan reports, before its cap. */
module Reports {
  import opened Text
  import opened SortedSets
  import opened Ownership
  import opened Directory
  import opened Planner

  /** The user has no value in the selected field. */
  ghost predicate Lacks(u: User, property: Str) {
    if property == Str("id") then u.id == Str("")
    else if property == Str("userPrincipalName") then u.userPrincipalName == Str("")
    else u.mail == Str("")
  }

  ghost predicate Nameless(input: PlanInput, u: User) {
    exists g | g in input.scope.grantsByGroup :: Member(input.members, g, u) && Lacks(u, input.property)
  }

  // ---- Users without the property ----

  ghost predicate MissingReport(users: seq<User>, property: Str, r: UnmatchedMember) {
    exists u | u in users ::
      Lacks(u, property) && r == UnmatchedMember(u.id, u.displayName, Str(""), Str("MissingProperty"))
  }

  /** One report for each ID noted, and none for another. */
  ghost predicate OneEach(m: Missing) {
    && (forall k | 0 <= k < |m.reports| :: m.reports[k].id in m.ids)
    && (forall id | id in m.ids :: exists k | 0 <= k < |m.reports| :: m.reports[k].id == id)
    && (forall j, k | 0 <= j < k < |m.reports| :: m.reports[j].id != m.reports[k].id)
  }

  lemma {:induction false} NoteUsersOnce(m: Missing, users: seq<User>, n: nat, property: Str)
    requires n <= |users| && OneEach(m)
    ensures OneEach(NoteUsers(m, users, n, property))
  {
    if n > 0 {
      NoteUsersOnce(m, users, n - 1, property);
      var before, after := NoteUsers(m, users, n - 1, property), NoteUsers(m, users, n, property);
      if after != before {
        var last := |before.reports|;
        assert after.reports[last].id == users[n - 1].id;
        forall id | id in after.ids ensures exists k | 0 <= k < |after.reports| :: after.reports[k].id == id {
          if id in before.ids {
            var k :| 0 <= k < |before.reports| && before.reports[k].id == id;
            assert after.reports[k] == before.reports[k];
          }
        }
      }
    }
  }

  lemma {:induction false} NoteUsersIff(m: Missing, users: seq<User>, n: nat, property: Str)
    requires n <= |users|
    ensures var after := NoteUsers(m, users, n, property);
            && (forall id :: id in after.ids <==>
                  id in m.ids || exists i | 0 <= i < n :: Lacks(users[i], property) && users[i].id == id)
            && m.reports <= after.reports
            && (forall r | r in after.reports :: r in m.reports || MissingReport(users, property, r))
  {
    if n > 0 { NoteUsersIff(m, users, n - 1, property); }
  }

  lemma {:induction false} NoteGroupsOnce(members: Members, groups: seq<Str>, n: nat, property: Str)
    requires n <= |groups|
    ensures OneEach(NoteGroups(members, groups, n, property))
  {
    if n > 0 {
      NoteGroupsOnce(members, groups, n - 1, property);
      var users := UsersOf(members, groups[n - 1]);
      NoteUsersOnce(NoteGroups(members, groups, n - 1, property), users, |users|, property);
    }
  }

  lemma {:induction false} UserIsNoted(members: Members, groups: seq<Str>, n: nat, property: Str, i: nat, u: User)
    requires i < n <= |groups| && Member(members, groups[i], u) && Lacks(u, property)
    ensures u.id in NoteGroups(members, groups, n, property).ids
  {
    var users := UsersOf(members, groups[n - 1]);
    NoteUsersIff(NoteGroups(members, groups, n - 1, property), users, |users|, property);
    if i < n - 1 {
      UserIsNoted(members, groups, n - 1, property, i, u);
    } else {
      var k :| 0 <= k < |users| && users[k] == u;
    }
  }

  lemma {:induction false} ReportIsOfUser(members: Members, groups: seq<Str>, n: nat, property: Str, r: UnmatchedMember)
    returns (i: nat, u: User)
    requires n <= |groups| && r in NoteGroups(members, groups, n, property).reports
    ensures i < n && Member(members, groups[i], u) && Lacks(u, property)
    ensures r == UnmatchedMember(u.id, u.displayName, Str(""), Str("MissingProperty"))
  {
    var before, users := NoteGroups(members, groups, n - 1, property), UsersOf(members, groups[n - 1]);
    NoteUsersIff(before, users, |users|, property);
    if r in before.reports {
      i, u := ReportIsOfUser(members, groups, n - 1, property, r);
    } else {
      i := n - 1;
      u :| u in users && Lacks(u, property)
           && r == UnmatchedMember(u.id, u.displayName, Str(""), Str("MissingProperty"));
    }
  }

  // ---- Skipped identities ----

  /** The report on a listed identity with an external ID that is not eligible. */
  ghost predicate SkipReport(input: PlanInput, identity: Identity, r: UnmatchedMember) {
    && identity.externalId != Str("") && !Eligible(input, identity)
    && r.id == identity.id && r.displayName == identity.name && r.externalId == identity.externalId
    && r.reason == if Owned(identity, input.owners) then Str("ManagedByZitiIdentity") else Str("DuplicateIdentity")
  }

  lemma {:induction false} SkipsIff(input: PlanInput, n: nat, r: UnmatchedMember)
    requires n <= |input.identities|
    ensures r in SkipsFor(input, n) <==> exists i | 0 <= i < n :: SkipReport(input, input.identities[i], r)
  {
    if n > 0 { SkipsIff(input, n - 1, r); }
  }

  // ---- All reports ----

  ghost predicate IsMissing(r: UnmatchedMember) {
    r.reason == Str("MissingProperty")
  }

  /** Every user of a group with roles who lacks the selected property is
      reported once, under its object ID, as MissingProperty; every listed
      identity that is owned or shares its external ID is reported with the
      reason; and nothing else is. A run keeps the first 50 reports. */
  lemma ReportsAreExact(input: PlanInput)
    ensures var all := AllReports(input);
            && (forall r | r in all && IsMissing(r) :: exists u | Nameless(input, u) ::
                  r == UnmatchedMember(u.id, u.displayName, Str(""), Str("MissingProperty")))
            && (forall u | Nameless(input, u) :: exists k | 0 <= k < |all| :: IsMissing(all[k]) && all[k].id == u.id)
            && (forall j, k | 0 <= j < k < |all| && IsMissing(all[j]) && IsMissing(all[k]) :: all[j].id != all[k].id)
            && (forall r | !IsMissing(r) :: r in all <==>
                  exists i | 0 <= i < |input.identities| :: SkipReport(input, input.identities[i], r))
            && PlanOf(input, REPORT_CAP).unmatched == if |all| <= 50 then all else all[..50]
  {
    var groups := Sorted(input.scope.grantsByGroup.Keys);
    var noted := NoteGroups(input.members, groups, |groups|, input.property);
    var skips := SkipsFor(input, |input.identities|);
    NoteGroupsOnce(input.members, groups, |groups|, input.property);
    MissingIsExact(input, groups);
    forall r ensures r in skips ==> !IsMissing(r) {
      SkipsIff(input, |input.identities|, r);
    }
    forall r | !IsMissing(r) ensures r in skips <==>
        exists i | 0 <= i < |input.identities| :: SkipReport(input, input.identities[i], r)
    {
      SkipsIff(input, |input.identities|, r);
    }
    Joined(noted.reports, skips);
  }

  lemma MissingIsExact(input: PlanInput, groups: seq<Str>)
    requires Elems(groups) == input.scope.grantsByGroup.Keys
    ensures var noted := NoteGroups(input.members, groups, |groups|, input.property);
            && (forall r | r in noted.reports :: IsMissing(r) && exists u | Nameless(input, u) ::
                  r == UnmatchedMember(u.id, u.displayName, Str(""), Str("MissingProperty")))
            && (forall u | Nameless(input, u) :: u.id in noted.ids)
  {
    var noted := NoteGroups(input.members, groups, |groups|, input.property);
    forall r | r in noted.reports
      ensures IsMissing(r) && exists u | Nameless(input, u) ::
                r == UnmatchedMember(u.id, u.displayName, Str(""), Str("MissingProperty"))
    {
      var i, u := ReportIsOfUser(input.members, groups, |groups|, input.property, r);
      assert groups[i] in Elems(groups);
      assert Nameless(input, u);
    }
    forall u | Nameless(input, u) ensures u.id in noted.ids {
      var g :| g in input.scope.grantsByGroup && Member(input.members, g, u) && Lacks(u, input.property);
      assert g in Elems(groups);
      var i :| 0 <= i < |groups| && groups[i] == g;
      UserIsNoted(input.members, groups, |groups|, input.property, i, u);
    }
  }

  lemma Joined(a: seq<UnmatchedMember>, b: seq<UnmatchedMember>)
    ensures forall r :: r in a + b <==> r in a || r in b
    ensures forall k | 0 <= k < |a| :: (a + b)[k] == a[k]
    ensures forall k | |a| <= k < |a + b| :: (a + b)[k] in b
  {}
}
