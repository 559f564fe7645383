/** The two decisions of a run, before it writes at all and before each PATCH, in
    terms of what is stored and listed. */
module Decisions {
  import opened Text
  import opened SortedSets
  import opened Ownership
  import opened Directory
  import opened Planner
  import opened PlanProperties
  import opened Retirement
  import opened Writes
  import opened Store
  import opened Protocol

  /** The resource is there, the same instance, and not being deleted. */
  ghost predicate Standing(store: Claims, key: ResourceKey, uid: nat) {
    key in store && store[key].uid == uid && !store[key].deleting
  }

  // ---- Before writing at all ----

  /** Some eligible identity is granted a value. */
  ghost predicate HasGrant(input: PlanInput) {
    exists i | 0 <= i < |input.identities| ::
      Eligible(input, input.identities[i]) && GrantsTo(input, input.identities[i]) != {}
  }

  /** What a run plans from: its listing and directory, the ZitiIdentity owners,
      its own stored claim and the stored claims of all other syncs. */
  ghost predicate PlansFrom(w: World, key: ResourceKey, snap: Snapshot, input: PlanInput) {
    && input.scope == snap.scope && input.members == snap.members && input.property == snap.property
    && input.identities == snap.identities && input.owners == w.owners
    && key in w.store && input.self == SyncClaim(key, w.store[key].created, w.store[key].managed)
    && forall c :: c in input.others <==>
         c.resource in w.store && c.resource != key
         && c.created == w.store[c.resource].created && c.managed == w.store[c.resource].managed
  }

  lemma PlansFromInput(w: World, key: ResourceKey, items: seq<ResourceKey>, snap: Snapshot)
    requires Enumerates(items, w.store) && key in w.store
    ensures PlansFrom(w, key, snap, InputFor(w, key, items, snap))
    ensures PlanOf(InputFor(w, key, items, snap), REPORT_CAP).ownership.conflicts == [] <==>
            Unchallenged(w.store, key, Managed(InputFor(w, key, items, snap)))
  {
    var input := InputFor(w, key, items, snap);
    PassesIff(w.store, items, key, PlanOf(input, REPORT_CAP).managed);
    PassesMeans(w.store, key, Managed(input));
    forall c ensures c in input.others <==>
                     c.resource in w.store && c.resource != key
                     && c.created == w.store[c.resource].created && c.managed == w.store[c.resource].managed
    {
      OthersIff(w.store, items, key, c);
    }
  }

  /** Planning goes on to the writes exactly when the instance stands, there are
      User roles, no other sync challenges a managed value, and either no
      eligible identity holds a managed value or some is granted one. Otherwise
      it stops, with Conflict or, unchallenged, with WouldRemoveAll, and keeps
      what was recorded. */
  lemma PlanStepExactly(w: World, key: ResourceKey, items: seq<ResourceKey>, uid: nat, snap: Snapshot)
    returns (input: PlanInput)
    requires Enumerates(items, w.store)
    ensures var run := PlanStep(w, key, items, uid, snap);
            if !Standing(w.store, key, uid) || snap.scope.current == [] then run == Finishing(uid, None)
            else
              && PlansFrom(w, key, snap, input) && input == InputFor(w, key, items, snap)
              && var managed := Elems(snap.scope.current) + Elems(w.store[key].managed);
              && (run.Planned? <==>
                  Unchallenged(w.store, key, managed) && (HasHolder(input) ==> HasGrant(input)))
              && (run.Planned? ==> run.job == Job(uid, input, PlanOf(input, 50)))
              && (!run.Planned? ==>
                    && run.Finishing? && run.uid == uid && run.completion.Some?
                    && run.completion.value.reason ==
                         (if Unchallenged(w.store, key, managed) then WouldRemoveAll else Conflict)
                    && !run.completion.value.ready && !run.completion.value.advanceLastSyncTime
                    && Elems(run.completion.value.managed) == Elems(w.store[key].managed))
  {
    if Standing(w.store, key, uid) {
      input := InputFor(w, key, items, snap);
      PlansFromInput(w, key, items, snap);
      GuardIff(input, REPORT_CAP);
      MatchedIff(input, |input.identities|);
      assert HasGrant(input) <==> PlanOf(input, REPORT_CAP).matched > 0;
    } else {
      input := PlanInput(snap.scope, snap.members, snap.identities, [], SyncClaim(key, 0, []), [], snap.property);
    }
  }

  // ---- Before each PATCH ----

  /** The identity may be patched: no ZitiIdentity resource names it and it still
      has, up to case, the external ID that was planned for. */
  ghost predicate Open(identity: Identity, owners: seq<IdentityOwner>, externalId: Str) {
    && identity.externalId != Str("") && EqualFold(identity.externalId, externalId)
    && forall o | o in owners ::
         && (o.identityId == Str("") || o.identityId != identity.id)
         && (o.identityName == Str("") || o.identityName != identity.name)
  }

  lemma OpenIff(identity: Identity, owners: seq<IdentityOwner>, patch: IdentityPatch)
    ensures MayPatch(identity, owners, patch) <==> Open(identity, owners, patch.externalId)
  {
    FoldIff(identity.externalId, patch.externalId);
    assert Owned(identity, owners) <==> exists o | o in owners :: OwnedBy(identity, o);
  }

  /** A fresh read and a fresh look at claims and owners authorize a PATCH exactly
      when no other sync challenges a managed value, the identity is there and
      open, and it does not hold its grants yet; each other case has its outcome,
      in this order. */
  lemma DecideExactly(store: Claims, owners: seq<IdentityOwner>, key: ResourceKey, items: seq<ResourceKey>,
                      plan: Plan, patch: IdentityPatch, found: Option<Identity>)
    requires Enumerates(items, store) && key in store && Elems(patch.granted) <= Elems(plan.managed)
    ensures var managed := Elems(plan.managed);
            var view := View(ClaimOf(key, store[key]), Others(store, items, key), owners);
            var decision := Decide(plan, patch, found, view);
            if !Unchallenged(store, key, managed) then decision.Report? && decision.outcome.kind == Conflicted
            else if found.None? then decision.Report? && decision.outcome.kind == Deleted
            else if !Open(found.value, owners, patch.externalId) then
              decision.Report? && decision.outcome.kind == Skipped
            else if Elems(found.value.attrs) * managed == Elems(patch.granted) then
              decision.Report? && decision.outcome.kind == Observed
            else decision.Send? && Rewritten(found.value.attrs, managed, patch.granted, decision.next)
  {
    PassesIff(store, items, key, plan.managed);
    PassesMeans(store, key, Elems(plan.managed));
    if found.Some? {
      var attrs, managed, granted := found.value.attrs, Elems(plan.managed), Elems(patch.granted);
      OpenIff(found.value, owners, patch);
      MergeFrame(attrs, managed, granted);
      MergeAppends(attrs, managed, granted);
      assert Elems(attrs) == (Elems(attrs) - managed) + (Elems(attrs) * managed);
    }
  }

  /** `next` is `attrs` without its managed values, in order, and then the
      grants, sorted. */
  ghost predicate Rewritten(attrs: seq<Str>, managed: set<Str>, granted: seq<Str>, next: seq<Str>) {
    exists n: nat | n <= |next| ::
      next[..n] == Drop(attrs, managed) && StrictlySorted(next[n..]) && Elems(next[n..]) == Elems(granted)
  }

  /** Which values were in the way. */
  lemma DecideNamesConflicts(store: Claims, owners: seq<IdentityOwner>, key: ResourceKey, items: seq<ResourceKey>,
                             plan: Plan, patch: IdentityPatch, found: Option<Identity>, v: Str)
    requires Enumerates(items, store) && key in store
    ensures var d := Decide(plan, patch, found, View(ClaimOf(key, store[key]), Others(store, items, key), owners));
            d.Report? ==>
              && d.outcome.id == patch.id && d.outcome.fault.None?
              && d.outcome.attrs == (if found.Some? then found.value.attrs else [])
              && (d.outcome.kind == Conflicted ==>
                    (v in d.outcome.conflicts <==> v in plan.managed && !Unchallenged(store, key, {v})))
  {
    var self, others := ClaimOf(key, store[key]), Others(store, items, key);
    var conflicts := ResolvedOwnership(self, plan.managed, others).conflicts;
    PassesIff(store, items, key, [v]);
    PassesMeans(store, key, {v});
    OthersAreForeign(store, items, key);
    ConflictsIff(self, others, plan.managed, v);
    ConflictsIff(self, others, [v], v);
    assert Elems([v]) == {v};
    var alone := ResolvedOwnership(self, [v], others).conflicts;
    NonEmptyElems(alone);
    assert Elems(alone) <= {v};
    assert v in alone <==> v in Elems(alone);
  }
}
