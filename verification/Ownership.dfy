/** Arbitration of recorded value claims between role syncs. */
module Ownership {
  import opened Text
  import opened SortedSets

  datatype Option<+T> = None | Some(value: T)

  datatype ResourceKey = ResourceKey(ns: Str, name: Str)
  datatype SyncClaim = SyncClaim(resource: ResourceKey, created: int, managed: seq<Str>)
  datatype OwnershipResult = OwnershipResult(owners: map<Str, ResourceKey>, conflicts: seq<Str>)

  /** Older first, then namespace, then name. */
  predicate ClaimBefore(a: SyncClaim, b: SyncClaim) {
    if a.created != b.created then a.created < b.created
    else if a.resource.ns != b.resource.ns then Less(a.resource.ns, b.resource.ns)
    else Less(a.resource.name, b.resource.name)
  }

  lemma ClaimBeforeIsStrictTotal(a: SyncClaim, b: SyncClaim, c: SyncClaim)
    ensures !ClaimBefore(a, a)
    ensures ClaimBefore(a, b) ==> !ClaimBefore(b, a)
    ensures ClaimBefore(a, b) && ClaimBefore(b, c) ==> ClaimBefore(a, c)
    ensures a.resource != b.resource ==> ClaimBefore(a, b) || ClaimBefore(b, a)
  {
    LessIrreflexive(a.resource.name);
    LessTotal(a.resource.ns, b.resource.ns);
    LessTotal(a.resource.name, b.resource.name);
    if Less(a.resource.ns, b.resource.ns) && Less(b.resource.ns, a.resource.ns) {
      LessTransitive(a.resource.ns, b.resource.ns, a.resource.ns);
      LessIrreflexive(a.resource.ns);
    }
    if Less(a.resource.name, b.resource.name) && Less(b.resource.name, a.resource.name) {
      LessTransitive(a.resource.name, b.resource.name, a.resource.name);
    }
    if Less(a.resource.ns, b.resource.ns) && Less(b.resource.ns, c.resource.ns) {
      LessTransitive(a.resource.ns, b.resource.ns, c.resource.ns);
      LessIrreflexive(a.resource.ns);
    }
    if Less(a.resource.name, b.resource.name) && Less(b.resource.name, c.resource.name) {
      LessTransitive(a.resource.name, b.resource.name, c.resource.name);
    }
  }

  /** `a` is the older claim, or at the same age the one whose namespace, or in
      one namespace whose name, comes first. */
  ghost predicate Older(a: SyncClaim, b: SyncClaim) {
    || a.created < b.created
    || (&& a.created == b.created
        && (|| Precedes(a.resource.ns, b.resource.ns)
            || (a.resource.ns == b.resource.ns && Precedes(a.resource.name, b.resource.name))))
  }

  lemma ClaimBeforeIff(a: SyncClaim, b: SyncClaim)
    ensures ClaimBefore(a, b) <==> Older(a, b)
  {
    LessIff(a.resource.ns, b.resource.ns);
    LessIff(a.resource.name, b.resource.name);
    LessIrreflexive(a.resource.ns);
  }

  // ---- What the arbitration means ----

  ghost predicate DistinctResources(claims: seq<SyncClaim>) {
    forall i, j | 0 <= i < j < |claims| :: claims[i].resource != claims[j].resource
  }

  /** `c` is the earliest recorded claimant of `v`. */
  ghost predicate Owns(claims: seq<SyncClaim>, v: Str, c: SyncClaim) {
    c in claims && v in c.managed &&
    forall d | d in claims && v in d.managed :: d == c || ClaimBefore(c, d)
  }

  /** No other sync stands before `self` on `v`. */
  ghost predicate Clear(self: SyncClaim, others: seq<SyncClaim>, v: Str) {
    forall o | o in others && v in o.managed :: v in self.managed && ClaimBefore(self, o)
  }

  ghost predicate Foreign(self: SyncClaim, others: seq<SyncClaim>) {
    forall o | o in others :: o.resource != self.resource
  }

  // ---- What the code computes ----

  /** The running winner after the first `n` claims. */
  function WinnerOfFirst(claims: seq<SyncClaim>, v: Str, n: nat): Option<SyncClaim>
    requires n <= |claims|
  {
    if n == 0 then None else
      var last := claims[n - 1];
      var w := WinnerOfFirst(claims, v, n - 1);
      if v !in last.managed then w
      else if w.None? || ClaimBefore(last, w.value) then Some(last)
      else w
  }

  function Winner(claims: seq<SyncClaim>, v: Str): Option<SyncClaim> {
    WinnerOfFirst(claims, v, |claims|)
  }

  function OwnerOf(self: SyncClaim, others: seq<SyncClaim>, v: Str): ResourceKey {
    var w := Winner([self] + others, v);
    if w.None? then self.resource else w.value.resource
  }

  /** The values that no other sync owns. */
  ghost function Mine(self: SyncClaim, others: seq<SyncClaim>, values: set<Str>): set<Str> {
    set v | v in values && OwnerOf(self, others, v) == self.resource
  }

  ghost function ResolvedOwnership(self: SyncClaim, candidates: seq<Str>, others: seq<SyncClaim>): OwnershipResult {
    var values := Elems(candidates);
    OwnershipResult(map v | v in values :: OwnerOf(self, others, v),
                    Drop(Sorted(values), Mine(self, others, values)))
  }

  method FindOwner(self: SyncClaim, others: seq<SyncClaim>, v: Str) returns (owner: ResourceKey)
    ensures owner == OwnerOf(self, others, v)
  {
    var claims := [self] + others;
    var winner: Option<SyncClaim> := None;
    for i := 0 to |claims|
      invariant winner == WinnerOfFirst(claims, v, i)
    {
      if v in claims[i].managed && (winner.None? || ClaimBefore(claims[i], winner.value)) {
        winner := Some(claims[i]);
      }
    }
    owner := if winner.None? then self.resource else winner.value.resource;
  }

  method ResolveOwnership(self: SyncClaim, candidates: seq<Str>, others: seq<SyncClaim>) returns (r: OwnershipResult)
    ensures r == ResolvedOwnership(self, candidates, others)
  {
    var owners: map<Str, ResourceKey> := map[];
    var conflicts: seq<Str> := [];
    var values := SortedSet(candidates);
    ghost var mine := Mine(self, others, Elems(candidates));
    for k := 0 to |values|
      invariant owners.Keys == Elems(values[..k])
      invariant forall v | v in owners :: owners[v] == OwnerOf(self, others, v)
      invariant conflicts == Drop(values[..k], mine)
    {
      var value := values[k];
      assert value in Elems(values);
      ElemsTakeOne(values, k);
      DropTakeOne(values, mine, k);
      var owner := FindOwner(self, others, value);
      owners := owners[value := owner];
      if owner != self.resource {
        conflicts := conflicts + [value];
      }
    }
    assert values[..|values|] == values;
    r := OwnershipResult(owners, conflicts);
  }

  // ---- Agreement ----

  lemma {:induction false} FirstWinner(claims: seq<SyncClaim>, v: Str, n: nat)
    requires n <= |claims|
    ensures WinnerOfFirst(claims, v, n).None? <==> forall i | 0 <= i < n :: v !in claims[i].managed
    ensures WinnerOfFirst(claims, v, n).Some? ==>
              var c := WinnerOfFirst(claims, v, n).value;
              c in claims && v in c.managed && forall i | 0 <= i < n && v in claims[i].managed ::
                !ClaimBefore(claims[i], c)
  {
    if n > 0 {
      var last := claims[n - 1];
      FirstWinner(claims, v, n - 1);
      ClaimBeforeIsStrictTotal(last, last, last);
      var w := WinnerOfFirst(claims, v, n - 1);
      if w.Some? && WinnerOfFirst(claims, v, n) == Some(last) {
        forall i | 0 <= i < n - 1 && v in claims[i].managed ensures !ClaimBefore(claims[i], last) {
          ClaimBeforeIsStrictTotal(claims[i], last, w.value);
        }
      }
    }
  }

  /** The winner is a claimant that no claimant precedes. */
  lemma WinnerIsFirst(claims: seq<SyncClaim>, v: Str)
    ensures Winner(claims, v).None? <==> forall d | d in claims :: v !in d.managed
    ensures Winner(claims, v).Some? ==>
              var c := Winner(claims, v).value;
              c in claims && v in c.managed && forall d | d in claims && v in d.managed :: !ClaimBefore(d, c)
  {
    FirstWinner(claims, v, |claims|);
  }

  lemma WinnerOwns(claims: seq<SyncClaim>, v: Str)
    requires DistinctResources(claims)
    ensures Winner(claims, v).Some? ==> Owns(claims, v, Winner(claims, v).value)
  {
    WinnerIsFirst(claims, v);
    if Winner(claims, v).Some? {
      var c := Winner(claims, v).value;
      forall d | d in claims && v in d.managed ensures d == c || ClaimBefore(c, d) {
        ClaimBeforeIsStrictTotal(c, d, d);
      }
    }
  }

  /** Every sync computes the same owner of a recorded value, in any list order. */
  lemma OwnersAgree(self: SyncClaim, others: seq<SyncClaim>, self': SyncClaim, others': seq<SyncClaim>, v: Str)
    requires DistinctResources([self] + others) && DistinctResources([self'] + others')
    requires forall c :: c in [self] + others <==> c in [self'] + others'
    requires exists c :: c in [self] + others && v in c.managed
    ensures OwnerOf(self, others, v) == OwnerOf(self', others', v)
  {
    var a, b := [self] + others, [self'] + others';
    WinnerIsFirst(a, v);
    WinnerIsFirst(b, v);
    WinnerOwns(a, v);
    WinnerOwns(b, v);
    ClaimBeforeIsStrictTotal(Winner(a, v).value, Winner(b, v).value, Winner(a, v).value);
  }

  /** Being conflict-free on a value, in terms of the recorded claims alone. */
  lemma ConflictFreeIff(self: SyncClaim, others: seq<SyncClaim>, v: Str)
    requires Foreign(self, others)
    ensures OwnerOf(self, others, v) == self.resource <==> Clear(self, others, v)
  {
    var claims := [self] + others;
    WinnerIsFirst(claims, v);
    var w := Winner(claims, v);
    assert forall c :: c in claims <==> c == self || c in others;
    if w.Some? {
      if w.value in others {
        ClaimBeforeIsStrictTotal(self, w.value, w.value);
      } else {
        forall o | o in others && v in o.managed ensures ClaimBefore(self, o) {
          ClaimBeforeIsStrictTotal(self, o, o);
        }
      }
    }
  }

  /** A candidate is a conflict exactly when another sync has recorded it and
      this one has not, or the other's claim is older. */
  lemma ConflictsIff(self: SyncClaim, others: seq<SyncClaim>, candidates: seq<Str>, v: Str)
    requires Foreign(self, others)
    ensures v in ResolvedOwnership(self, candidates, others).conflicts <==>
            v in candidates && exists o | o in others :: v in o.managed && (v in self.managed ==> Older(o, self))
    ensures StrictlySorted(ResolvedOwnership(self, candidates, others).conflicts)
  {
    var values := Elems(candidates);
    var mine := Mine(self, others, values);
    DropKeepsOrder(Sorted(values), mine);
    assert v in Drop(Sorted(values), mine) <==> v in Elems(Drop(Sorted(values), mine));
    ConflictFreeIff(self, others, v);
    forall o | o in others ensures ClaimBefore(self, o) <==> !Older(o, self) {
      ClaimBeforeIff(o, self);
      ClaimBeforeIsStrictTotal(self, o, self);
    }
  }

  /** Of two recorded claims on a value, the one created earlier wins. */
  lemma EarlierClaimWins(self: SyncClaim, others: seq<SyncClaim>, candidates: seq<Str>, o: SyncClaim, v: Str)
    requires Foreign(self, others) && o in others && v in candidates && v in self.managed && v in o.managed
    requires o.created < self.created
    ensures var r := ResolvedOwnership(self, candidates, others);
            v in r.conflicts && v in r.owners && r.owners[v] != self.resource
  {
    ConflictsIff(self, others, candidates, v);
    assert v in Elems(ResolvedOwnership(self, candidates, others).conflicts);
  }

  /** The owner of a recorded value is an oldest of its recorded claimants, and
      among those created together the first by namespace and name; a value that
      nobody recorded is one's own. */
  lemma OwnerIsOldest(self: SyncClaim, others: seq<SyncClaim>, candidates: seq<Str>, v: Str)
    requires v in candidates
    ensures var owners := ResolvedOwnership(self, candidates, others).owners;
            && owners.Keys == Elems(candidates)
            && if forall d | d in [self] + others :: v !in d.managed then owners[v] == self.resource
               else exists c | c in [self] + others ::
                      && v in c.managed && c.resource == owners[v]
                      && forall d | d in [self] + others && v in d.managed :: d.resource == c.resource || Older(c, d)
  {
    var claims := [self] + others;
    WinnerIsFirst(claims, v);
    var w := Winner(claims, v);
    if w.Some? {
      forall d | d in claims && v in d.managed ensures d.resource == w.value.resource || Older(w.value, d) {
        ClaimBeforeIsStrictTotal(w.value, d, d);
        ClaimBeforeIff(w.value, d);
      }
    }
  }

  lemma NoConflictsIff(self: SyncClaim, others: seq<SyncClaim>, candidates: seq<Str>)
    requires Foreign(self, others)
    ensures ResolvedOwnership(self, candidates, others).conflicts == [] <==>
            forall v | v in Elems(candidates) :: Clear(self, others, v)
  {
    var values := Elems(candidates);
    var mine := Mine(self, others, values);
    var conflicts := Drop(Sorted(values), mine);
    assert Elems(conflicts) == values - mine;
    forall v | v in values
      ensures v in Elems(conflicts) <==> !Clear(self, others, v)
    {
      ConflictFreeIff(self, others, v);
    }
    NonEmptyElems(conflicts);
    if conflicts != [] { assert conflicts[0] in Elems(conflicts); }
  }

  function Without(claims: seq<SyncClaim>, i: nat): seq<SyncClaim>
    requires i < |claims|
  {
    claims[..i] + claims[i + 1..]
  }

  /** Of the syncs that recorded a value, exactly one is conflict-free on it. */
  lemma ExactlyOneOwner(claims: seq<SyncClaim>, v: Str)
    requires DistinctResources(claims)
    requires exists c :: c in claims && v in c.managed
    ensures exists i :: 0 <= i < |claims| && v in claims[i].managed && Clear(claims[i], Without(claims, i), v)
    ensures forall i, j | 0 <= i < |claims| && 0 <= j < |claims| && v in claims[i].managed && v in claims[j].managed
              && Clear(claims[i], Without(claims, i), v) && Clear(claims[j], Without(claims, j), v) :: i == j
  {
    WinnerIsFirst(claims, v);
    WinnerOwns(claims, v);
    var c := Winner(claims, v).value;
    var i :| 0 <= i < |claims| && claims[i] == c;
    forall o | o in Without(claims, i) && v in o.managed ensures ClaimBefore(c, o) {
      assert o in claims && o.resource != c.resource;
    }
    forall a, b | 0 <= a < |claims| && 0 <= b < |claims| && v in claims[a].managed && v in claims[b].managed
                  && Clear(claims[a], Without(claims, a), v) && Clear(claims[b], Without(claims, b), v)
      ensures a == b
    {
      if a != b {
        WithoutHas(claims, a, b);
        WithoutHas(claims, b, a);
        ClaimBeforeIsStrictTotal(claims[a], claims[b], claims[a]);
      }
    }
  }

  lemma WithoutHas(claims: seq<SyncClaim>, i: nat, j: nat)
    requires i < |claims| && j < |claims| && i != j
    ensures claims[j] in Without(claims, i)
  {
    if j < i {
      assert Without(claims, i)[j] == claims[j];
    } else {
      assert Without(claims, i)[j - 1] == claims[j];
    }
  }
}
