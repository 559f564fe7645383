/** Planning a sync run from complete snapshots. */
module Planner {
  import opened Text
  import opened SortedSets
  import opened Ownership
  import opened Directory

  datatype Identity = Identity(id: Str, name: Str, externalId: Str, attrs: seq<Str>)
  datatype IdentityOwner = IdentityOwner(resource: ResourceKey, identityId: Str, identityName: Str)
  datatype UnmatchedMember = UnmatchedMember(id: Str, displayName: Str, externalId: Str, reason: Str)
  datatype IdentityPatch = IdentityPatch(id: Str, externalId: Str, granted: seq<Str>, attrs: seq<Str>)
  datatype RetirementHolder = RetirementHolder(id: Str, values: seq<Str>)

  datatype PlanInput = PlanInput(
    scope: RoleScope, members: Members, identities: seq<Identity>, owners: seq<IdentityOwner>,
    self: SyncClaim, others: seq<SyncClaim>, property: Str)

  datatype Plan = Plan(
    current: seq<Str>, managed: seq<Str>, ownership: OwnershipResult,
    patches: seq<IdentityPatch>, holders: seq<RetirementHolder>, unmatched: seq<UnmatchedMember>,
    matched: nat, withoutIdentity: nat, wouldRemoveAll: bool)

  const REPORT_CAP: nat := 50

  const MISSING_PROPERTY := Str("MissingProperty")
  const MANAGED_BY_ZITI_IDENTITY := Str("ManagedByZitiIdentity")
  const DUPLICATE_IDENTITY := Str("DuplicateIdentity")

  // ---- Merging one attribute list ----

  /** Unmanaged values in place, then the grants in order. */
  ghost function Merge(attrs: seq<Str>, managed: set<Str>, granted: set<Str>): (r: seq<Str>) {
    Drop(attrs, managed) + Sorted(granted)
  }

  method MergeAttributes(attrs: seq<Str>, managed: seq<Str>, granted: seq<Str>) returns (r: seq<Str>)
    ensures r == Merge(attrs, Elems(managed), Elems(granted))
  {
    r := [];
    for i := 0 to |attrs|
      invariant r == Drop(attrs[..i], Elems(managed))
    {
      DropTakeOne(attrs, Elems(managed), i);
      if attrs[i] !in managed {
        r := r + [attrs[i]];
      }
    }
    assert attrs[..|attrs|] == attrs;
    var sorted := SortedSet(granted);
    r := r + sorted;
  }

  /** A merge changes nothing outside the managed values, in order and in
      multiplicity, and leaves exactly the grants inside them. */
  lemma MergeFrame(attrs: seq<Str>, managed: set<Str>, granted: set<Str>)
    requires granted <= managed
    ensures Drop(Merge(attrs, managed, granted), managed) == Drop(attrs, managed)
    ensures Elems(Merge(attrs, managed, granted)) == (Elems(attrs) - managed) + granted
    ensures Elems(Merge(attrs, managed, granted)) * managed == granted
  {
    var kept := Drop(attrs, managed);
    DropAppend(kept, Sorted(granted), managed);
    DropNothing(kept, managed);
    DropEverything(Sorted(granted), managed);
    ElemsAppend(kept, Sorted(granted));
  }

  /** The values kept come first, as they were, and the grants follow, sorted. */
  lemma MergeAppends(attrs: seq<Str>, managed: set<Str>, granted: set<Str>)
    ensures var r, n := Merge(attrs, managed, granted), |Drop(attrs, managed)|;
            n <= |r| && r[..n] == Drop(attrs, managed) && StrictlySorted(r[n..]) && Elems(r[n..]) == granted
  {
    var r, n := Merge(attrs, managed, granted), |Drop(attrs, managed)|;
    assert r[n..] == Sorted(granted);
  }

  /** Merging again with the same grants, under the same or fewer managed
      values that still cover them, reproduces the list. */
  lemma MergeIdempotent(attrs: seq<Str>, managed: set<Str>, granted: set<Str>, fewer: set<Str>)
    requires granted <= fewer <= managed
    ensures Merge(Merge(attrs, managed, granted), fewer, granted) == Merge(attrs, managed, granted)
  {
    var kept := Drop(attrs, managed);
    DropAppend(kept, Sorted(granted), fewer);
    DropNothing(kept, fewer);
    DropEverything(Sorted(granted), fewer);
  }

  // ---- Which identities the plan may touch ----

  predicate OwnedBy(identity: Identity, owner: IdentityOwner) {
    (owner.identityId != EMPTY && identity.id == owner.identityId) ||
    (owner.identityName != EMPTY && identity.name == owner.identityName)
  }

  ghost predicate Owned(identity: Identity, owners: seq<IdentityOwner>) {
    exists o :: o in owners && OwnedBy(identity, o)
  }

  method IdentityOwned(identity: Identity, owners: seq<IdentityOwner>) returns (owned: bool)
    ensures owned <==> Owned(identity, owners)
  {
    for i := 0 to |owners|
      invariant forall k | 0 <= k < i :: !OwnedBy(identity, owners[k])
    {
      if OwnedBy(identity, owners[i]) { return true; }
    }
    return false;
  }

  /** The identities among the first `n` whose external ID folds to `key`. */
  function Index(ids: seq<Identity>, n: nat, key: Str): (r: seq<Identity>)
    requires n <= |ids|
    ensures |r| <= n
  {
    if n == 0 then []
    else if ids[n - 1].externalId != EMPTY && Fold(ids[n - 1].externalId) == key then
      Index(ids, n - 1, key) + [ids[n - 1]]
    else Index(ids, n - 1, key)
  }

  function Bearers(ids: seq<Identity>, key: Str): seq<Identity> {
    Index(ids, |ids|, key)
  }

  method IdentityIndex(ids: seq<Identity>) returns (index: map<Str, seq<Identity>>)
    ensures forall key :: Bearers(ids, key) == if key in index then index[key] else []
  {
    index := map[];
    for n := 0 to |ids|
      invariant forall key :: Index(ids, n, key) == if key in index then index[key] else []
    {
      if ids[n].externalId != EMPTY {
        var key := Fold(ids[n].externalId);
        index := index[key := (if key in index then index[key] else []) + [ids[n]]];
      }
    }
  }

  ghost predicate Eligible(input: PlanInput, identity: Identity) {
    && identity.externalId != EMPTY
    && !Owned(identity, input.owners)
    && |Bearers(input.identities, Fold(identity.externalId))| <= 1
  }

  ghost predicate DistinctIds(ids: seq<Identity>) {
    forall i, j | 0 <= i < j < |ids| :: ids[i].id != ids[j].id
  }

  // ---- The plan, identity by identity ----

  ghost function Managed(input: PlanInput): set<Str> {
    Elems(input.scope.current) + Elems(input.self.managed)
  }

  /** Recorded values that are no longer roles. */
  ghost function Retired(input: PlanInput): set<Str> {
    Elems(input.self.managed) - Elems(input.scope.current)
  }

  ghost function GrantsTo(input: PlanInput, identity: Identity): (r: set<Str>)
    ensures r <= Elems(input.scope.current) <= Managed(input)
  {
    GrantSet(input.scope, input.members, input.property, Fold(identity.externalId))
  }

  ghost function NextAttrs(input: PlanInput, identity: Identity): seq<Str> {
    Merge(identity.attrs, Managed(input), GrantsTo(input, identity))
  }

  ghost function PatchFor(input: PlanInput, identity: Identity): seq<IdentityPatch> {
    if Eligible(input, identity) && Elems(identity.attrs) != Elems(NextAttrs(input, identity))
    then [IdentityPatch(identity.id, identity.externalId, Sorted(GrantsTo(input, identity)),
                        NextAttrs(input, identity))]
    else []
  }

  ghost function PatchesFor(input: PlanInput, n: nat): seq<IdentityPatch>
    requires n <= |input.identities|
  {
    if n == 0 then [] else PatchesFor(input, n - 1) + PatchFor(input, input.identities[n - 1])
  }

  ghost function HolderFor(identity: Identity, retired: set<Str>): seq<RetirementHolder> {
    if Elems(identity.attrs) * retired == {} then []
    else [RetirementHolder(identity.id, Sorted(Elems(identity.attrs) * retired))]
  }

  ghost function HoldersFor(input: PlanInput, n: nat): seq<RetirementHolder>
    requires n <= |input.identities|
  {
    if n == 0 then [] else HoldersFor(input, n - 1) + HolderFor(input.identities[n - 1], Retired(input))
  }

  ghost predicate IsMatched(input: PlanInput, identity: Identity) {
    Eligible(input, identity) && GrantsTo(input, identity) != {}
  }

  ghost function MatchedCount(input: PlanInput, n: nat): nat
    requires n <= |input.identities|
  {
    if n == 0 then 0
    else MatchedCount(input, n - 1) + if IsMatched(input, input.identities[n - 1]) then 1 else 0
  }

  ghost predicate Holds(input: PlanInput, identity: Identity) {
    Eligible(input, identity) && Elems(identity.attrs) * Managed(input) != {}
  }

  ghost predicate WillHold(input: PlanInput, identity: Identity) {
    Eligible(input, identity) && Elems(NextAttrs(input, identity)) * Managed(input) != {}
  }

  ghost predicate HadManaged(input: PlanInput, n: nat)
    requires n <= |input.identities|
  {
    n != 0 && (HadManaged(input, n - 1) || Holds(input, input.identities[n - 1]))
  }

  ghost predicate WillHaveManaged(input: PlanInput, n: nat)
    requires n <= |input.identities|
  {
    n != 0 && (WillHaveManaged(input, n - 1) || WillHold(input, input.identities[n - 1]))
  }

  // ---- Reports ----

  datatype Missing = Missing(ids: set<Str>, reports: seq<UnmatchedMember>)

  function NoteUsers(m: Missing, users: seq<User>, n: nat, property: Str): Missing
    requires n <= |users|
  {
    if n == 0 then m else
      var before := NoteUsers(m, users, n - 1, property);
      var u := users[n - 1];
      if SelectedProperty(u, property) != EMPTY || u.id in before.ids then before
      else Missing(before.ids + {u.id},
                   before.reports + [UnmatchedMember(u.id, u.displayName, EMPTY, MISSING_PROPERTY)])
  }

  function NoteGroups(members: Members, groups: seq<Str>, n: nat, property: Str): Missing
    requires n <= |groups|
  {
    if n == 0 then Missing({}, []) else
      var users := UsersOf(members, groups[n - 1]);
      NoteUsers(NoteGroups(members, groups, n - 1, property), users, |users|, property)
  }

  ghost function SkipFor(input: PlanInput, identity: Identity): seq<UnmatchedMember> {
    if identity.externalId == EMPTY || Eligible(input, identity) then []
    else [UnmatchedMember(identity.id, identity.name, identity.externalId,
                          if Owned(identity, input.owners) then MANAGED_BY_ZITI_IDENTITY else DUPLICATE_IDENTITY)]
  }

  ghost function SkipsFor(input: PlanInput, n: nat): seq<UnmatchedMember>
    requires n <= |input.identities|
  {
    if n == 0 then [] else SkipsFor(input, n - 1) + SkipFor(input, input.identities[n - 1])
  }

  /** Everything there is to report, before any cap. */
  ghost function AllReports(input: PlanInput): seq<UnmatchedMember> {
    var groups := Sorted(input.scope.grantsByGroup.Keys);
    NoteGroups(input.members, groups, |groups|, input.property).reports + SkipsFor(input, |input.identities|)
  }

  function Capped<T>(s: seq<T>, cap: nat): (r: seq<T>)
    ensures r <= s && |r| <= cap
  {
    if |s| <= cap then s else s[..cap]
  }

  ghost function Unclaimed(input: PlanInput): set<Str> {
    set k | k in GrantKeys(input.scope, input.members, input.property) && Bearers(input.identities, k) == []
  }

  /** What BuildPlan computes; the cap reaches the report and nothing else. */
  ghost function PlanOf(input: PlanInput, cap: nat): Plan {
    var n := |input.identities|;
    var managed := Sorted(Managed(input));
    var ownership := ResolvedOwnership(input.self, managed, input.others);
    Plan(input.scope.current, managed, ownership,
         if ownership.conflicts == [] then PatchesFor(input, n) else [],
         HoldersFor(input, n), Capped(AllReports(input), cap),
         MatchedCount(input, n), |Unclaimed(input)|,
         HadManaged(input, n) && !WillHaveManaged(input, n))
  }
}
