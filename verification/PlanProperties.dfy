/** What every plan guarantees. */
module PlanProperties {
  import opened Text
  import opened SortedSets
  import opened Ownership
  import opened Directory
  import opened Planner

  // ---- Which identities are patched, and which hold retired values ----

  /** An eligible identity needs no patch exactly when, within the managed
      values, it holds exactly its grants. */
  lemma SettledIff(input: PlanInput, identity: Identity)
    requires Eligible(input, identity)
    ensures PatchFor(input, identity) == [] <==> Elems(identity.attrs) * Managed(input) == GrantsTo(input, identity)
  {
    var managed, granted := Managed(input), GrantsTo(input, identity);
    MergeFrame(identity.attrs, managed, granted);
    assert Elems(identity.attrs) == (Elems(identity.attrs) - managed) + (Elems(identity.attrs) * managed);
  }

  lemma {:induction false} PatchComesFrom(input: PlanInput, n: nat, k: nat) returns (i: nat)
    requires n <= |input.identities| && k < |PatchesFor(input, n)|
    ensures i < n && PatchFor(input, input.identities[i]) == [PatchesFor(input, n)[k]]
  {
    if k < |PatchesFor(input, n - 1)| {
      i := PatchComesFrom(input, n - 1, k);
    } else {
      i := n - 1;
    }
  }

  lemma {:induction false} PatchIsPlanned(input: PlanInput, n: nat, i: nat) returns (k: nat)
    requires i < n <= |input.identities| && PatchFor(input, input.identities[i]) != []
    ensures k < |PatchesFor(input, n)| && PatchFor(input, input.identities[i]) == [PatchesFor(input, n)[k]]
  {
    if i == n - 1 {
      k := |PatchesFor(input, n - 1)|;
    } else {
      k := PatchIsPlanned(input, n - 1, i);
    }
  }

  lemma {:induction false} PatchesHaveDistinctIds(input: PlanInput, n: nat)
    requires n <= |input.identities| && DistinctIds(input.identities)
    ensures forall a, b | 0 <= a < b < |PatchesFor(input, n)| ::
              PatchesFor(input, n)[a].id != PatchesFor(input, n)[b].id
  {
    if n > 0 {
      PatchesHaveDistinctIds(input, n - 1);
      var before := PatchesFor(input, n - 1);
      forall a | 0 <= a < |before| ensures before[a].id != input.identities[n - 1].id {
        var i := PatchComesFrom(input, n - 1, a);
      }
    }
  }

  /** A patch for `identity` carries its labels, exactly its grants in order, and
      its attributes with the managed values replaced by the grants. */
  ghost predicate PatchFits(input: PlanInput, identity: Identity, patch: IdentityPatch) {
    && patch.id == identity.id && patch.externalId == identity.externalId
    && StrictlySorted(patch.granted) && Elems(patch.granted) == GrantsTo(input, identity)
    && Drop(patch.attrs, Managed(input)) == Drop(identity.attrs, Managed(input))
    && Elems(patch.attrs) * Managed(input) == GrantsTo(input, identity)
  }

  /** A conflict-free plan patches exactly the eligible identities that do not
      hold their grants, each with what it should hold; a plan with conflicts
      patches nothing. */
  lemma PatchesAreExact(input: PlanInput, cap: nat, i: nat)
    requires DistinctIds(input.identities) && i < |input.identities|
    ensures var plan, identity := PlanOf(input, cap), input.identities[i];
            if plan.ownership.conflicts != [] then plan.patches == []
            else
              && ((exists k | 0 <= k < |plan.patches| :: plan.patches[k].id == identity.id) <==>
                  Eligible(input, identity) && Elems(identity.attrs) * Managed(input) != GrantsTo(input, identity))
              && forall k | 0 <= k < |plan.patches| && plan.patches[k].id == identity.id ::
                   PatchFits(input, identity, plan.patches[k])
  {
    var plan, identity := PlanOf(input, cap), input.identities[i];
    if plan.ownership.conflicts == [] {
      if Eligible(input, identity) { SettledIff(input, identity); }
      if PatchFor(input, identity) != [] {
        var k := PatchIsPlanned(input, |input.identities|, i);
        assert plan.patches[k].id == identity.id;
      }
      forall k | 0 <= k < |plan.patches| && plan.patches[k].id == identity.id
        ensures PatchFor(input, identity) != [] && PatchFits(input, identity, plan.patches[k])
      {
        var j := PatchComesFrom(input, |input.identities|, k);
        assert j == i;
        MergeFrame(identity.attrs, Managed(input), GrantsTo(input, identity));
      }
    }
  }

  ghost function HolderIds(holders: seq<RetirementHolder>): set<Str> {
    set h | h in holders :: h.id
  }

  /** Every listed identity with a retired value is a holder, reported or not. */
  lemma {:induction false} HoldersAreExact(input: PlanInput, n: nat, id: Str)
    requires n <= |input.identities|
    ensures id in HolderIds(HoldersFor(input, n)) <==>
            exists i | 0 <= i < n :: input.identities[i].id == id
              && Elems(input.identities[i].attrs) * Retired(input) != {}
  {
    if n > 0 {
      HoldersAreExact(input, n - 1, id);
      var last := input.identities[n - 1];
      var before, more := HoldersFor(input, n - 1), HolderFor(last, Retired(input));
      assert forall h :: h in before + more <==> h in before || h in more;
      assert id in HolderIds(HoldersFor(input, n)) <==> id in HolderIds(before) || id in HolderIds(more);
    }
  }

  /** A holder carries, sorted, exactly the retired values of its identity. */
  lemma {:induction false} HolderValues(input: PlanInput, n: nat, k: nat) returns (i: nat)
    requires n <= |input.identities| && k < |HoldersFor(input, n)|
    ensures i < n
    ensures var holder, identity := HoldersFor(input, n)[k], input.identities[i];
            && holder.id == identity.id && StrictlySorted(holder.values)
            && Elems(holder.values) == Elems(identity.attrs) * Retired(input) != {}
  {
    if k < |HoldersFor(input, n - 1)| {
      i := HolderValues(input, n - 1, k);
    } else {
      i := n - 1;
    }
  }

  /** An eligible identity that holds a retired value is always patched. */
  lemma RetiredForcesPatch(input: PlanInput, identity: Identity)
    requires Eligible(input, identity) && Elems(identity.attrs) * Retired(input) != {}
    ensures PatchFor(input, identity) != []
  {
    SettledIff(input, identity);
    var v :| v in Elems(identity.attrs) * Retired(input);
    assert v in Managed(input) && v !in GrantsTo(input, identity);
  }

  // ---- The remove-all guard ----

  lemma {:induction false} HadManagedIff(input: PlanInput, n: nat)
    requires n <= |input.identities|
    ensures HadManaged(input, n) <==> exists i | 0 <= i < n :: Holds(input, input.identities[i])
  {
    if n > 0 { HadManagedIff(input, n - 1); }
  }

  lemma {:induction false} WillHaveIffMatched(input: PlanInput, n: nat)
    requires n <= |input.identities|
    ensures WillHaveManaged(input, n) <==> MatchedCount(input, n) > 0
    ensures WillHaveManaged(input, n) <==> exists i | 0 <= i < n :: WillHold(input, input.identities[i])
  {
    if n > 0 {
      WillHaveIffMatched(input, n - 1);
      var last := input.identities[n - 1];
      MergeFrame(last.attrs, Managed(input), GrantsTo(input, last));
    }
  }

  lemma {:induction false} MatchedIff(input: PlanInput, n: nat)
    requires n <= |input.identities|
    ensures MatchedCount(input, n) > 0 <==> exists i | 0 <= i < n :: IsMatched(input, input.identities[i])
  {
    if n > 0 { MatchedIff(input, n - 1); }
  }

  /** The guard trips exactly when some eligible identity holds a managed value
      and no identity is matched. A plan that passes it with such a holder, once
      all its patches are applied, leaves one. */
  lemma GuardIff(input: PlanInput, cap: nat)
    ensures PlanOf(input, cap).wouldRemoveAll <==> HasHolder(input) && PlanOf(input, cap).matched == 0
    ensures !PlanOf(input, cap).wouldRemoveAll && HasHolder(input) ==>
              HasHolder(input.(identities := Applied(input)))
  {
    HadManagedIff(input, |input.identities|);
    WillHaveIffMatched(input, |input.identities|);
    if i :| 0 <= i < |input.identities| && WillHold(input, input.identities[i]) {
      HoldsOnceApplied(input, i);
    }
  }

  /** Some eligible identity holds a managed value. */
  ghost predicate HasHolder(input: PlanInput) {
    exists i | 0 <= i < |input.identities| :: Holds(input, input.identities[i])
  }

  lemma HoldsOnceApplied(input: PlanInput, i: nat)
    requires i < |input.identities| && WillHold(input, input.identities[i])
    ensures Holds(input.(identities := Applied(input)), Applied(input)[i])
  {
    SameEligibility(input, input.(identities := Applied(input)), i);
  }

  // ---- Counting ----

  lemma {:induction false} BearersBound(ids: seq<Identity>, n: nat, key: Str, i: nat)
    requires i < n <= |ids| && ids[i].externalId != EMPTY && Fold(ids[i].externalId) == key
    ensures |Index(ids, n, key)| >= 1
    ensures forall j | 0 <= j < n && j != i && ids[j].externalId != EMPTY && Fold(ids[j].externalId) == key ::
              |Index(ids, n, key)| >= 2
  {
    if i < n - 1 {
      BearersBound(ids, n - 1, key, i);
    } else {
      forall j | 0 <= j < n - 1 && ids[j].externalId != EMPTY && Fold(ids[j].externalId) == key
        ensures |Index(ids, n, key)| >= 2
      {
        BearersBound(ids, n - 1, key, j);
      }
    }
  }

  lemma {:induction false} TwoBearers(ids: seq<Identity>, n: nat, key: Str) returns (i: nat, j: nat)
    requires n <= |ids| && |Index(ids, n, key)| >= 1
    ensures i < n && ids[i].externalId != EMPTY && Fold(ids[i].externalId) == key
    ensures |Index(ids, n, key)| >= 2 ==> i < j < n && ids[j].externalId != EMPTY && Fold(ids[j].externalId) == key
  {
    if ids[n - 1].externalId != EMPTY && Fold(ids[n - 1].externalId) == key {
      i, j := n - 1, n - 1;
      if |Index(ids, n, key)| >= 2 {
        i, j := TwoBearers(ids, n - 1, key);
        j := n - 1;
      }
    } else {
      i, j := TwoBearers(ids, n - 1, key);
    }
  }

  /** An identity is eligible exactly when it has an external ID that no other
      listed identity shares up to case, and no ZitiIdentity resource names it by
      ID or by name. */
  lemma EligibleIff(input: PlanInput, i: nat)
    requires i < |input.identities|
    ensures var identity := input.identities[i];
            Eligible(input, identity) <==>
            && identity.externalId != Str("")
            && (forall o | o in input.owners ::
                  && (o.identityId == Str("") || o.identityId != identity.id)
                  && (o.identityName == Str("") || o.identityName != identity.name))
            && (forall j | 0 <= j < |input.identities| && j != i ::
                  !EqualFold(input.identities[j].externalId, identity.externalId))
  {
    var ids, identity := input.identities, input.identities[i];
    var key := Fold(identity.externalId);
    forall j | 0 <= j < |ids|
      ensures Fold(ids[j].externalId) == key <==> EqualFold(ids[j].externalId, identity.externalId)
    {
      FoldIff(ids[j].externalId, identity.externalId);
    }
    if identity.externalId != EMPTY {
      BearersBound(ids, |ids|, key, i);
      if |Bearers(ids, key)| >= 2 {
        var j, k := TwoBearers(ids, |ids|, key);
        assert j != i || k != i;
      }
    }
    assert Owned(identity, input.owners) <==> exists o | o in input.owners :: OwnedBy(identity, o);
  }

  /** Each folded external ID has at most one eligible identity. */
  lemma OneEligiblePerKey(input: PlanInput, i: nat, j: nat)
    requires i < |input.identities| && j < |input.identities|
    requires Eligible(input, input.identities[i]) && Eligible(input, input.identities[j])
    requires Fold(input.identities[i].externalId) == Fold(input.identities[j].externalId)
    ensures i == j
  {
    BearersBound(input.identities, |input.identities|, Fold(input.identities[i].externalId), i);
  }

  ghost function MatchedKeys(input: PlanInput, n: nat): set<Str>
    requires n <= |input.identities|
  {
    if n == 0 then {}
    else if IsMatched(input, input.identities[n - 1])
    then MatchedKeys(input, n - 1) + {Fold(input.identities[n - 1].externalId)}
    else MatchedKeys(input, n - 1)
  }

  lemma {:induction false} MatchedKeysIff(input: PlanInput, n: nat, key: Str)
    requires n <= |input.identities|
    ensures key in MatchedKeys(input, n) <==>
            exists i | 0 <= i < n :: IsMatched(input, input.identities[i])
              && Fold(input.identities[i].externalId) == key
  {
    if n > 0 { MatchedKeysIff(input, n - 1, key); }
  }

  lemma {:induction false} MatchedCountsKeys(input: PlanInput, n: nat)
    requires n <= |input.identities|
    ensures MatchedCount(input, n) == |MatchedKeys(input, n)|
  {
    if n > 0 {
      MatchedCountsKeys(input, n - 1);
      if IsMatched(input, input.identities[n - 1]) {
        FreshKey(input, n - 1);
      }
    }
  }

  lemma FreshKey(input: PlanInput, n: nat)
    requires n < |input.identities| && IsMatched(input, input.identities[n])
    ensures Fold(input.identities[n].externalId) !in MatchedKeys(input, n)
  {
    var key := Fold(input.identities[n].externalId);
    MatchedKeysIff(input, n, key);
    if i :| 0 <= i < n && IsMatched(input, input.identities[i]) && Fold(input.identities[i].externalId) == key {
      OneEligiblePerKey(input, i, n);
    }
  }

  /** Granted keys that identities bear, all of them owned or duplicated. */
  ghost function BlockedKeys(input: PlanInput): set<Str> {
    set k | k in GrantKeys(input.scope, input.members, input.property)
            && Bearers(input.identities, k) != []
            && !exists i | 0 <= i < |input.identities| ::
                 Eligible(input, input.identities[i]) && Fold(input.identities[i].externalId) == k
  }

  lemma GrantedKeyCases(input: PlanInput, k: Str)
    ensures var matched := MatchedKeys(input, |input.identities|);
            && (k in GrantKeys(input.scope, input.members, input.property) <==>
                k in Unclaimed(input) || k in matched || k in BlockedKeys(input))
            && (k in matched ==> k !in Unclaimed(input) && k !in BlockedKeys(input))
  {
    var n := |input.identities|;
    GrantKeysIff(input.scope, input.members, input.property, k);
    MatchedKeysIff(input, n, k);
    if i :| 0 <= i < n && Eligible(input, input.identities[i]) && Fold(input.identities[i].externalId) == k {
      BearersBound(input.identities, n, k, i);
      assert k in MatchedKeys(input, n) <==> GrantsTo(input, input.identities[i]) != {} by {
        if k in MatchedKeys(input, n) {
          var j :| 0 <= j < n && IsMatched(input, input.identities[j]) && Fold(input.identities[j].externalId) == k;
          OneEligiblePerKey(input, i, j);
        }
      }
    }
  }

  /** Granted keys that are no listed identity's folded external ID. */
  ghost function KeysWithoutIdentity(input: PlanInput): set<Str> {
    set k | k in GrantKeys(input.scope, input.members, input.property)
            && forall i | 0 <= i < |input.identities| :: Fold(input.identities[i].externalId) != k
  }

  /** The two counters: the folded external IDs of eligible identities that are
      granted something, of which there is one each, and the granted keys that no
      identity bears. */
  lemma CountersMean(input: PlanInput, cap: nat) returns (matched: set<Str>)
    ensures PlanOf(input, cap).matched == |matched|
    ensures forall k :: k in matched <==>
              exists i | 0 <= i < |input.identities| ::
                IsMatched(input, input.identities[i]) && Fold(input.identities[i].externalId) == k
    ensures PlanOf(input, cap).withoutIdentity == |KeysWithoutIdentity(input)|
  {
    matched := MatchedKeys(input, |input.identities|);
    MatchedCountsKeys(input, |input.identities|);
    forall k ensures k in matched <==>
                     exists i | 0 <= i < |input.identities| ::
                       IsMatched(input, input.identities[i]) && Fold(input.identities[i].externalId) == k
    {
      MatchedKeysIff(input, |input.identities|, k);
    }
    forall k | k in GrantKeys(input.scope, input.members, input.property)
      ensures Bearers(input.identities, k) == [] <==>
              forall i | 0 <= i < |input.identities| :: Fold(input.identities[i].externalId) != k
    {
      GrantKeysIff(input.scope, input.members, input.property, k);
      NoBearers(input.identities, k);
    }
    assert Unclaimed(input) == KeysWithoutIdentity(input);
  }

  lemma NoBearers(ids: seq<Identity>, key: Str)
    requires key != EMPTY
    ensures Bearers(ids, key) == [] <==> forall i | 0 <= i < |ids| :: Fold(ids[i].externalId) != key
  {
    if Bearers(ids, key) != [] {
      var i, j := TwoBearers(ids, |ids|, key);
    }
    if i :| 0 <= i < |ids| && Fold(ids[i].externalId) == key {
      BearersBound(ids, |ids|, key, i);
    }
  }

  /** Every granted key is counted once: without identity, matched, or blocked. */
  lemma CountingConserves(input: PlanInput, cap: nat)
    ensures |GrantKeys(input.scope, input.members, input.property)| ==
            PlanOf(input, cap).withoutIdentity + PlanOf(input, cap).matched + |BlockedKeys(input)|
  {
    var n := |input.identities|;
    var keys := GrantKeys(input.scope, input.members, input.property);
    var absent, matched, blocked := Unclaimed(input), MatchedKeys(input, n), BlockedKeys(input);
    MatchedCountsKeys(input, n);
    forall k ensures k in keys <==> k in absent || k in matched || k in blocked
      ensures k in matched ==> k !in absent && k !in blocked
    {
      GrantedKeyCases(input, k);
    }
    assert keys == absent + matched + blocked;
    assert absent !! matched && (absent + matched) !! blocked;
  }

  // ---- Changing attributes only ----

  /** Two listings that differ in attributes at most. */
  ghost predicate SameLabels(ids: seq<Identity>, ids': seq<Identity>) {
    |ids| == |ids'| && forall i | 0 <= i < |ids| :: ids'[i] == ids[i].(attrs := ids'[i].attrs)
  }

  lemma {:induction false} SameBearers(ids: seq<Identity>, ids': seq<Identity>, n: nat, key: Str)
    requires SameLabels(ids, ids') && n <= |ids|
    ensures |Index(ids, n, key)| == |Index(ids', n, key)|
  {
    if n > 0 { SameBearers(ids, ids', n - 1, key); }
  }

  /** Eligibility and grants ignore attributes and recorded claims. */
  lemma SameEligibility(input: PlanInput, input': PlanInput, i: nat)
    requires SameLabels(input.identities, input'.identities) && i < |input.identities|
    requires input' == input.(identities := input'.identities, self := input'.self)
    ensures Eligible(input, input.identities[i]) <==> Eligible(input', input'.identities[i])
    ensures GrantsTo(input, input.identities[i]) == GrantsTo(input', input'.identities[i])
  {
    SameBearers(input.identities, input'.identities, |input.identities|, Fold(input.identities[i].externalId));
    var a, b := input.identities[i], input'.identities[i];
    assert forall o :: OwnedBy(a, o) <==> OwnedBy(b, o);
  }

  lemma AllSettled(input: PlanInput, n: nat)
    requires n <= |input.identities|
    requires forall i | 0 <= i < n :: PatchFor(input, input.identities[i]) == []
    ensures PatchesFor(input, n) == []
  {
    if |PatchesFor(input, n)| > 0 {
      var i := PatchComesFrom(input, n, 0);
      assert false;
    }
  }

  /** A plan without patches cannot trip the guard. */
  lemma SettledPassesGuard(input: PlanInput)
    requires forall i | 0 <= i < |input.identities| :: PatchFor(input, input.identities[i]) == []
    ensures HadManaged(input, |input.identities|) ==> WillHaveManaged(input, |input.identities|)
  {
    HadManagedIff(input, |input.identities|);
    WillHaveIffMatched(input, |input.identities|);
    if i :| 0 <= i < |input.identities| && Holds(input, input.identities[i]) {
      assert PatchFor(input, input.identities[i]) == [];
      assert WillHold(input, input.identities[i]);
    }
  }

  lemma {:induction false} NoPatchAnywhere(input: PlanInput, n: nat, i: nat)
    requires i < n <= |input.identities| && PatchesFor(input, n) == []
    ensures PatchFor(input, input.identities[i]) == []
  {
    if i < n - 1 { NoPatchAnywhere(input, n - 1, i); }
  }

  // ---- Convergence ----

  /** The listing after every patch of the plan. */
  ghost function Applied(input: PlanInput): seq<Identity> {
    seq(|input.identities|, i requires 0 <= i < |input.identities| =>
      if PatchFor(input, input.identities[i]) == [] then input.identities[i]
      else input.identities[i].(attrs := NextAttrs(input, input.identities[i])))
  }

  ghost function Replanned(input: PlanInput, recorded: seq<Str>): PlanInput {
    input.(identities := Applied(input), self := input.self.(managed := recorded))
  }

  /** Once its patches are applied, a conflict-free plan is followed, on the
      same directory, by one with no conflict, no patch and no guard, whether
      the recorded claims are still C + P or already C; and re-merging a patched
      list reproduces it. */
  lemma Converges(input: PlanInput, recorded: seq<Str>, cap: nat)
    requires Foreign(input.self, input.others)
    requires PlanOf(input, cap).ownership.conflicts == []
    requires Elems(input.scope.current) <= Elems(recorded) <= Managed(input)
    ensures var next := PlanOf(Replanned(input, recorded), cap);
            next.patches == [] && !next.wouldRemoveAll && next.ownership.conflicts == []
    ensures forall i | 0 <= i < |input.identities| && PatchFor(input, input.identities[i]) != [] ::
              NextAttrs(Replanned(input, recorded), Applied(input)[i]) == Applied(input)[i].attrs
  {
    var again := Replanned(input, recorded);
    forall i | 0 <= i < |input.identities|
      ensures PatchFor(again, again.identities[i]) == []
      ensures PatchFor(input, input.identities[i]) != [] ==>
                NextAttrs(again, again.identities[i]) == again.identities[i].attrs
    {
      SettlesOne(input, recorded, i);
    }
    AllSettled(again, |again.identities|);
    SettledPassesGuard(again);
    StillClear(input, recorded);
  }

  lemma SettlesOne(input: PlanInput, recorded: seq<Str>, i: nat)
    requires i < |input.identities|
    requires Elems(recorded) <= Managed(input)
    ensures PatchFor(Replanned(input, recorded), Applied(input)[i]) == []
    ensures PatchFor(input, input.identities[i]) != [] ==>
              NextAttrs(Replanned(input, recorded), Applied(input)[i]) == Applied(input)[i].attrs
  {
    var again := Replanned(input, recorded);
    var a, b := input.identities[i], again.identities[i];
    SameEligibility(input, again, i);
    if Eligible(again, b) {
      var granted := GrantsTo(input, a);
      SettledIff(input, a);
      MergeFrame(a.attrs, Managed(input), granted);
      assert Elems(b.attrs) * Managed(input) == granted;
      assert Elems(b.attrs) * Managed(again) == (Elems(b.attrs) * Managed(input)) * Managed(again);
      SettledIff(again, b);
      if PatchFor(input, a) != [] {
        MergeIdempotent(a.attrs, Managed(input), granted, Managed(again));
      }
    }
  }

  lemma StillClear(input: PlanInput, recorded: seq<Str>)
    requires Foreign(input.self, input.others)
    requires ResolvedOwnership(input.self, Sorted(Managed(input)), input.others).conflicts == []
    requires Elems(input.scope.current) <= Elems(recorded) <= Managed(input)
    ensures var again := Replanned(input, recorded);
            ResolvedOwnership(again.self, Sorted(Managed(again)), again.others).conflicts == []
  {
    var again := Replanned(input, recorded);
    NoConflictsIff(input.self, input.others, Sorted(Managed(input)));
    NoConflictsIff(again.self, again.others, Sorted(Managed(again)));
    forall v | v in Managed(again) ensures Clear(again.self, again.others, v) {
      assert v in Elems(Sorted(Managed(input)));
      assert v in Elems(recorded);
      assert Clear(input.self, input.others, v);
    }
  }

  // ---- Syncs do not fight ----

  /** `ids'` is `ids` after another sync rewrote any of the attribute lists by
      merging its own grants under managed values `foreign`. */
  ghost predicate RewrittenBy(ids: seq<Identity>, ids': seq<Identity>, foreign: set<Str>) {
    && SameLabels(ids, ids')
    && forall i | 0 <= i < |ids| ::
         Elems(ids'[i].attrs) - foreign == Elems(ids[i].attrs) - foreign
  }

  /** A settled sync stays settled whatever another sync with disjoint managed
      values writes. */
  lemma StaysSettled(input: PlanInput, ids': seq<Identity>, foreign: set<Str>)
    requires PatchesFor(input, |input.identities|) == []
    requires RewrittenBy(input.identities, ids', foreign)
    requires foreign !! Managed(input)
    ensures PatchesFor(input.(identities := ids'), |ids'|) == []
  {
    var after := input.(identities := ids');
    forall i | 0 <= i < |ids'| ensures PatchFor(after, ids'[i]) == [] {
      SameEligibility(input, after, i);
      if Eligible(after, ids'[i]) {
        NoPatchAnywhere(input, |input.identities|, i);
        SettledIff(input, input.identities[i]);
        SettledIff(after, ids'[i]);
        assert Elems(ids'[i].attrs) * Managed(input) == (Elems(ids'[i].attrs) - foreign) * Managed(input);
        assert Elems(input.identities[i].attrs) * Managed(input) ==
          (Elems(input.identities[i].attrs) - foreign) * Managed(input);
      }
    }
    AllSettled(after, |ids'|);
  }

  /** Passing the ownership check against a disjoint recorded claim means having
      no managed value in common with it. */
  lemma ClearOfClaim(input: PlanInput, claim: SyncClaim, cap: nat)
    requires Foreign(input.self, input.others) && claim in input.others
    requires Elems(claim.managed) !! Elems(input.self.managed)
    requires PlanOf(input, cap).ownership.conflicts == []
    ensures Elems(claim.managed) !! Managed(input)
  {
    NoConflictsIff(input.self, input.others, Sorted(Managed(input)));
    forall v | v in Managed(input) ensures v in claim.managed ==> v in Elems(input.self.managed) {
      assert v in Elems(Sorted(Managed(input)));
      assert Clear(input.self, input.others, v);
    }
  }
}
