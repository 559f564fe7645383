/** The planner's loops, against the plan they are meant to compute. */
module PlanBuilder {
  import opened Text
  import opened SortedSets
  import opened Ownership
  import opened Directory
  import opened Planner

  /** The lists that planning appends to in place. */
  class PlanUnderway {
    const cap: nat
    var unmatched: seq<UnmatchedMember>
    var holders: seq<RetirementHolder>
    ghost var reported: seq<UnmatchedMember>

    ghost predicate Valid()
      reads this
    {
      unmatched == Capped(reported, cap)
    }

    constructor (cap: nat)
      ensures Valid() && this.cap == cap
      ensures reported == [] && holders == []
    {
      this.cap := cap;
      unmatched, holders, reported := [], [], [];
    }

    method Report(member: UnmatchedMember)
      requires Valid()
      modifies this`unmatched, this`reported
      ensures Valid()
      ensures reported == old(reported) + [member]
    {
      if |unmatched| < cap {
        unmatched := unmatched + [member];
      }
      reported := reported + [member];
    }

    method ObserveRetirement(identity: Identity, retired: seq<Str>)
      modifies this`holders
      ensures holders == old(holders) + HolderFor(identity, Elems(retired))
    {
      var values: seq<Str> := [];
      for i := 0 to |retired|
        invariant Elems(values) == Elems(identity.attrs) * Elems(retired[..i])
        invariant holders == old(holders)
      {
        ElemsTakeOne(retired, i);
        if retired[i] in identity.attrs {
          ElemsAppend(values, [retired[i]]);
          values := values + [retired[i]];
        }
      }
      assert retired[..|retired|] == retired;
      NonEmptyElems(values);
      if values != [] {
        var sorted := SortedSet(values);
        holders := holders + [RetirementHolder(identity.id, sorted)];
      }
    }

    method EligibleIdentity(identity: Identity, input: PlanInput, index: map<Str, seq<Identity>>)
      returns (eligible: bool)
      requires Valid()
      requires forall key :: Bearers(input.identities, key) == if key in index then index[key] else []
      modifies this`unmatched, this`reported
      ensures Valid()
      ensures eligible <==> Eligible(input, identity)
      ensures reported == old(reported) + SkipFor(input, identity)
    {
      if identity.externalId == EMPTY { return false; }
      var key := Fold(identity.externalId);
      assert |Bearers(input.identities, key)| > 1 <==> key in index && |index[key]| > 1;
      var owned := IdentityOwned(identity, input.owners);
      if owned {
        Report(UnmatchedMember(identity.id, identity.name, identity.externalId, MANAGED_BY_ZITI_IDENTITY));
        return false;
      }
      if key in index && |index[key]| > 1 {
        Report(UnmatchedMember(identity.id, identity.name, identity.externalId, DUPLICATE_IDENTITY));
        return false;
      }
      return true;
    }
  }

  // ---- Grants ----

  function Entry(grants: map<Str, seq<Str>>, key: Str): set<Str> {
    if key in grants then Elems(grants[key]) else {}
  }

  ghost predicate Canonical(grants: map<Str, seq<Str>>) {
    forall key | key in grants :: grants[key] != [] && grants[key] == Sorted(Elems(grants[key]))
  }

  /** What one group's users add to the entry of `key`. */
  ghost function WithUsers(before: set<Str>, users: seq<User>, n: nat, property: Str, values: seq<Str>,
                           key: Str): set<Str>
    requires n <= |users|
  {
    if Lists(users, n, property, key) then before + Elems(values) else before
  }

  method GrantUsers(underway: PlanUnderway, users: seq<User>, values: seq<Str>, property: Str,
                    grants: map<Str, seq<Str>>, missing: set<Str>)
    returns (granted: map<Str, seq<Str>>, missed: set<Str>)
    requires underway.Valid()
    requires values != [] && Canonical(grants)
    modifies underway`unmatched, underway`reported
    ensures underway.Valid()
    ensures Missing(missed, underway.reported) ==
            NoteUsers(Missing(missing, old(underway.reported)), users, |users|, property)
    ensures Canonical(granted)
    ensures forall key :: Entry(granted, key) == WithUsers(Entry(grants, key), users, |users|, property, values, key)
  {
    granted, missed := grants, missing;
    for n := 0 to |users|
      invariant underway.Valid()
      invariant Missing(missed, underway.reported) ==
                NoteUsers(Missing(missing, old(underway.reported)), users, n, property)
      invariant Canonical(granted)
      invariant forall key :: Entry(granted, key) == WithUsers(Entry(grants, key), users, n, property, values, key)
    {
      var user := users[n];
      var selected := SelectedProperty(user, property);
      if selected == EMPTY {
        if user.id !in missed {
          underway.Report(UnmatchedMember(user.id, user.displayName, EMPTY, MISSING_PROPERTY));
          missed := missed + {user.id};
        }
        continue;
      }
      var key := Fold(selected);
      assert Matches(user, property, key);
      granted := AddTo(granted, key, values);
    }
  }

  method AddTo(grants: map<Str, seq<Str>>, key: Str, values: seq<Str>) returns (r: map<Str, seq<Str>>)
    requires values != [] && Canonical(grants)
    ensures Canonical(r)
    ensures Entry(r, key) == Entry(grants, key) + Elems(values)
    ensures forall k | k != key :: Entry(r, k) == Entry(grants, k)
  {
    var had := if key in grants then grants[key] else [];
    ElemsAppend(had, values);
    NonEmptyElems(values);
    var now := SortedSet(had + values);
    assert Elems(now) == Entry(grants, key) + Elems(values);
    NonEmptyElems(now);
    r := grants[key := now];
  }

  /** The entry of `key` after the first `n` groups. */
  ghost function AfterGroups(input: PlanInput, groups: seq<Str>, n: nat, key: Str): set<Str>
    requires n <= |groups| && Elems(groups) == input.scope.grantsByGroup.Keys
  {
    if n == 0 then {} else
      var users := UsersOf(input.members, groups[n - 1]);
      assert groups[n - 1] in Elems(groups);
      WithUsers(AfterGroups(input, groups, n - 1, key), users, |users|, input.property,
                input.scope.grantsByGroup[groups[n - 1]], key)
  }

  lemma {:induction false} AfterGroupsIff(input: PlanInput, groups: seq<Str>, n: nat, key: Str, v: Str)
    requires n <= |groups| && Elems(groups) == input.scope.grantsByGroup.Keys
    ensures v in AfterGroups(input, groups, n, key) <==>
            exists i | 0 <= i < n :: Reaches(input.scope, input.members, input.property, key, groups[i])
                                     && v in input.scope.grantsByGroup[groups[i]]
  {
    if n > 0 {
      AfterGroupsIff(input, groups, n - 1, key, v);
      assert groups[n - 1] in Elems(groups);
    }
  }

  lemma AfterAllGroups(input: PlanInput, groups: seq<Str>, key: Str)
    requires Elems(groups) == input.scope.grantsByGroup.Keys
    ensures AfterGroups(input, groups, |groups|, key) == GrantSet(input.scope, input.members, input.property, key)
  {
    forall v ensures v in AfterGroups(input, groups, |groups|, key) <==>
                     v in GrantSet(input.scope, input.members, input.property, key)
    {
      AfterGroupsIff(input, groups, |groups|, key, v);
      GrantSetIff(input.scope, input.members, input.property, key, v);
      if Granted(input.scope, input.members, input.property, key, v) {
        var g :| Reaches(input.scope, input.members, input.property, key, g) && v in input.scope.grantsByGroup[g];
        assert g in Elems(groups);
        var i :| 0 <= i < |groups| && groups[i] == g;
      }
    }
  }

  method MemberGrants(input: PlanInput, underway: PlanUnderway) returns (grants: map<Str, seq<Str>>)
    requires underway.Valid() && underway.reported == []
    modifies underway`unmatched, underway`reported
    ensures underway.Valid()
    ensures var groups := Sorted(input.scope.grantsByGroup.Keys);
            underway.reported == NoteGroups(input.members, groups, |groups|, input.property).reports
    ensures Canonical(grants)
    ensures forall key :: Entry(grants, key) == GrantSet(input.scope, input.members, input.property, key)
  {
    grants := map[];
    var missing: set<Str> := {};
    var groups := GroupIds(input.scope);
    assert Elems(groups) == input.scope.grantsByGroup.Keys;
    for n := 0 to |groups|
      invariant underway.Valid()
      invariant Missing(missing, underway.reported) == NoteGroups(input.members, groups, n, input.property)
      invariant Canonical(grants)
      invariant forall key :: Entry(grants, key) == AfterGroups(input, groups, n, key)
    {
      assert groups[n] in Elems(groups);
      var users := UsersOf(input.members, groups[n]);
      grants, missing := GrantUsers(underway, users, input.scope.grantsByGroup[groups[n]], input.property, grants,
                                    missing);
    }
    forall key { AfterAllGroups(input, groups, key); }
  }

  // ---- The plan ----

  method Overlaps(values: seq<Str>, managed: seq<Str>) returns (r: bool)
    ensures r <==> Elems(values) * Elems(managed) != {}
  {
    for i := 0 to |values|
      invariant forall k | 0 <= k < i :: values[k] !in managed
    {
      if values[i] in managed {
        assert values[i] in Elems(values) * Elems(managed);
        return true;
      }
    }
    return false;
  }

  method CountUnclaimed(input: PlanInput, grants: map<Str, seq<Str>>, index: map<Str, seq<Identity>>)
    returns (count: nat)
    requires Canonical(grants)
    requires forall key :: Entry(grants, key) == GrantSet(input.scope, input.members, input.property, key)
    requires forall key :: Bearers(input.identities, key) == if key in index then index[key] else []
    ensures count == |Unclaimed(input)|
  {
    count := 0;
    var pending := grants.Keys;
    ghost var counted: set<Str> := {};
    while pending != {}
      invariant pending <= grants.Keys
      invariant counted == set k | k in grants.Keys - pending && Bearers(input.identities, k) == []
      invariant count == |counted|
      decreases pending
    {
      var key :| key in pending;
      pending := pending - {key};
      if key !in index || index[key] == [] {
        count := count + 1;
        counted := counted + {key};
      }
    }
    forall key ensures key in grants <==> key in GrantKeys(input.scope, input.members, input.property) {
      GrantKeysIff(input.scope, input.members, input.property, key);
      if key in grants { NonEmptyElems(grants[key]); }
    }
    assert counted == Unclaimed(input);
  }

  method RetiredValues(recorded: seq<Str>, current: seq<Str>) returns (retired: seq<Str>)
    ensures Elems(retired) == Elems(recorded) - Elems(current)
  {
    retired := [];
    for i := 0 to |recorded|
      invariant Elems(retired) == Elems(recorded[..i]) - Elems(current)
    {
      ElemsTakeOne(recorded, i);
      if recorded[i] !in current {
        ElemsAppend(retired, [recorded[i]]);
        retired := retired + [recorded[i]];
      }
    }
    assert recorded[..|recorded|] == recorded;
  }

  /** The loop body of BuildPlan for one eligible identity. */
  method PlanEligible(input: PlanInput, identity: Identity, managed: seq<Str>, grants: map<Str, seq<Str>>)
    returns (patch: seq<IdentityPatch>, matched: bool, had: bool, will: bool)
    requires Eligible(input, identity)
    requires Elems(managed) == Managed(input)
    requires Canonical(grants)
    requires Entry(grants, Fold(identity.externalId)) == GrantsTo(input, identity)
    ensures patch == PatchFor(input, identity)
    ensures matched <==> IsMatched(input, identity)
    ensures had <==> Elems(identity.attrs) * Managed(input) != {}
    ensures will <==> Elems(NextAttrs(input, identity)) * Managed(input) != {}
  {
    var key := Fold(identity.externalId);
    var granted := if key in grants then grants[key] else [];
    assert Elems(granted) == GrantsTo(input, identity);
    NonEmptyElems(granted);
    NonEmptyElems(Sorted(GrantsTo(input, identity)));
    assert granted == Sorted(GrantsTo(input, identity));
    matched := |granted| > 0;
    var next := MergeAttributes(identity.attrs, managed, granted);
    had := Overlaps(identity.attrs, managed);
    will := Overlaps(next, managed);
    var same := SameRoleSet(identity.attrs, next);
    patch := if same then [] else [IdentityPatch(identity.id, identity.externalId, granted, next)];
  }

  /** What planning has worked out before it visits the identities. */
  ghost predicate Prepared(input: PlanInput, managed: seq<Str>, retired: seq<Str>,
                           grants: map<Str, seq<Str>>, index: map<Str, seq<Identity>>)
  {
    && Elems(managed) == Managed(input)
    && Elems(retired) == Retired(input)
    && Canonical(grants)
    && (forall key :: Entry(grants, key) == GrantSet(input.scope, input.members, input.property, key))
    && (forall key :: Bearers(input.identities, key) == if key in index then index[key] else [])
  }

  /** The loop body of BuildPlan. */
  method PlanIdentity(input: PlanInput, identity: Identity, underway: PlanUnderway, managed: seq<Str>,
                      retired: seq<Str>, grants: map<Str, seq<Str>>, index: map<Str, seq<Identity>>)
    returns (patch: seq<IdentityPatch>, matched: bool, had: bool, will: bool)
    requires underway.Valid() && Prepared(input, managed, retired, grants, index)
    modifies underway
    ensures underway.Valid()
    ensures underway.reported == old(underway.reported) + SkipFor(input, identity)
    ensures underway.holders == old(underway.holders) + HolderFor(identity, Retired(input))
    ensures patch == PatchFor(input, identity)
    ensures matched <==> IsMatched(input, identity)
    ensures had <==> Holds(input, identity)
    ensures will <==> WillHold(input, identity)
  {
    underway.ObserveRetirement(identity, retired);
    var eligible := underway.EligibleIdentity(identity, input, index);
    if eligible {
      patch, matched, had, will := PlanEligible(input, identity, managed, grants);
    } else {
      patch, matched, had, will := [], false, false, false;
    }
  }

  method PlanIdentities(input: PlanInput, underway: PlanUnderway, managed: seq<Str>, retired: seq<Str>,
                        grants: map<Str, seq<Str>>, index: map<Str, seq<Identity>>)
    returns (patches: seq<IdentityPatch>, matched: nat, hadManaged: bool, willHaveManaged: bool)
    requires underway.Valid() && underway.holders == []
    requires Prepared(input, managed, retired, grants, index)
    modifies underway
    ensures underway.Valid()
    ensures underway.reported == old(underway.reported) + SkipsFor(input, |input.identities|)
    ensures underway.holders == HoldersFor(input, |input.identities|)
    ensures patches == PatchesFor(input, |input.identities|)
    ensures matched == MatchedCount(input, |input.identities|)
    ensures hadManaged <==> HadManaged(input, |input.identities|)
    ensures willHaveManaged <==> WillHaveManaged(input, |input.identities|)
  {
    patches, matched, hadManaged, willHaveManaged := [], 0, false, false;
    for n := 0 to |input.identities|
      invariant underway.Valid()
      invariant underway.reported == old(underway.reported) + SkipsFor(input, n)
      invariant underway.holders == HoldersFor(input, n)
      invariant patches == PatchesFor(input, n)
      invariant matched == MatchedCount(input, n)
      invariant hadManaged <==> HadManaged(input, n)
      invariant willHaveManaged <==> WillHaveManaged(input, n)
    {
      var patch, match', had, will :=
        PlanIdentity(input, input.identities[n], underway, managed, retired, grants, index);
      patches := patches + patch;
      matched := matched + if match' then 1 else 0;
      hadManaged := hadManaged || had;
      willHaveManaged := willHaveManaged || will;
    }
  }

  /** None is ErrNoUserRoles. For every cap, all but the report is the same. */
  method BuildPlan(input: PlanInput, cap: nat) returns (r: Option<Plan>)
    ensures r.None? <==> input.scope.current == []
    ensures r.Some? ==> r.value == PlanOf(input, cap)
  {
    if input.scope.current == [] { return None; }
    ElemsAppend(input.scope.current, input.self.managed);
    var managed := SortedSet(input.scope.current + input.self.managed);
    var ownership := ResolveOwnership(input.self, managed, input.others);
    var retired := RetiredValues(input.self.managed, input.scope.current);
    var underway := new PlanUnderway(cap);
    var grants := MemberGrants(input, underway);
    var index := IdentityIndex(input.identities);
    var withoutIdentity := CountUnclaimed(input, grants, index);
    var patches, matched, hadManaged, willHaveManaged :=
      PlanIdentities(input, underway, managed, retired, grants, index);
    r := Some(Plan(input.scope.current, managed, ownership,
                   if ownership.conflicts == [] then patches else [],
                   underway.holders, underway.unmatched, matched, withoutIdentity,
                   hadManaged && !willHaveManaged));
  }
}
