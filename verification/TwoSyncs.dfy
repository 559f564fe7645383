/** Syncs that share identities, reconcile after reconcile. */
module TwoSyncs {
  import opened Text
  import opened SortedSets
  import opened Ownership
  import opened Planner
  import opened PlanProperties
  import opened Retirement
  import opened Writes
  import opened Store
  import opened Protocol
  import opened Undisturbed
  import opened Reconciler
  import opened ProtocolClaims

  /** Sync `a` has recorded its claims, nobody else claims any of them, and with
      `input` it finds nothing to patch. */
  ghost predicate Quiet(w: World, a: ResourceKey, input: PlanInput) {
    && a in w.store && Disjoint(w.store) && input.owners == w.owners
    && input.self == ClaimOf(a, w.store[a]) && Managed(input) <= Elems(input.self.managed)
    && ListingOf(input.identities, w.backend) && PatchesFor(input, |input.identities|) == []
  }

  ghost function After(input: PlanInput, b: Backend): PlanInput
    requires forall i | 0 <= i < |input.identities| :: input.identities[i].id in b
  {
    input.(identities := Relisted(input.identities, b))
  }

  lemma RelistedLists(ids: seq<Identity>, b: Backend, b': Backend, managed: set<Str>)
    requires ListingOf(ids, b) && OnlyManaged(b, b', managed)
    ensures ListingOf(Relisted(ids, b'), b')
  {
    var ids' := Relisted(ids, b');
    forall i | 0 <= i < |ids'| ensures ids'[i].id == ids[i].id && ids'[i].id in b' && b'[ids'[i].id] == ids'[i] {
      assert b[ids[i].id] == ids[i];
    }
    forall id | id in b' ensures exists i | 0 <= i < |ids'| :: ids'[i].id == id {
      var i :| 0 <= i < |ids| && ids[i].id == id;
      assert ids'[i].id == id;
    }
  }

  // ---- The claims a reconcile leaves ----

  /** `store'` differs from `store` in `key`'s managed values and version only,
      and those values are among `values`. */
  ghost predicate ClaimsOnly(store: Claims, store': Claims, key: ResourceKey, values: set<Str>) {
    && store'.Keys == store.Keys
    && (forall j | j in store && j != key :: store'[j] == store[j])
    && (key in store ==>
          && store'[key] == store[key].(managed := store'[key].managed, rv := store'[key].rv)
          && Elems(store'[key].managed) <= values)
  }

  lemma RecordedClaims(store: Claims, rev: nat, key: ResourceKey, uid: nat, self: SyncClaim, values: seq<Str>, ack: Ack)
    requires key in store && Elems(store[key].managed) <= Elems(values)
    ensures ClaimsOnly(store, Recorded(store, rev, key, uid, self, values, ack).0, key, Elems(values))
  {}

  /** Completing never claims anything new. */
  lemma CompletionWithin(input: CompletionInput)
    requires Elems(input.plan.current) + Elems(input.previous) <= Elems(input.plan.managed)
    ensures Elems(CompletionOf(input).managed) <= Elems(input.plan.managed)
    ensures !input.claimRecorded ==> Elems(CompletionOf(input).managed) == Elems(input.previous)
  {}

  /** From a plan on, claims stay within its managed values. */
  lemma PlannedClaims(w: World, key: ResourceKey, job: Job, items: seq<ResourceKey>,
                      record: Ack, io: nat -> PatchIO, canceledAfter: bool)
    requires Enumerates(items, w.store) && key in w.store && job.input.self == ClaimOf(key, w.store[key])
    requires job.plan == PlanOf(job.input, REPORT_CAP)
    ensures var end := RunFrom(w, key, job, items, record, io, canceledAfter);
            && ClaimsOnly(w.store, end.store, key, Managed(job.input))
            && (end.completion.Some? ==> Elems(end.completion.value.managed) <= Managed(job.input))
  {
    RecordedClaims(w.store, w.rev, key, job.uid, job.input.self, job.plan.managed, record);
    var store := Recorded(w.store, w.rev, key, job.uid, job.input.self, job.plan.managed, record).0;
    var outcomes := WritePhase(w.backend, job.plan, ViewAt(store, w.owners, key, job.uid, items), io,
                               canceledAfter).outcomes;
    CompletionWithin(CompletionInput(job.plan, job.input.self.managed, outcomes, Unset, true));
  }

  /** A run's claims, recorded and completed, are values nobody else claims. */
  lemma RunClaims(w: World, t: Turn) returns (values: set<Str>)
    requires Enumerates(t.items, w.store) && Disjoint(w.store)
    ensures var end := RunOfTurn(w, t);
            && Free(w.store, t.key, values) && ClaimsOnly(w.store, end.store, t.key, values)
            && (end.completion.Some? ==> Elems(end.completion.value.managed) <= values)
  {
    PlanStepCases(w, t.key, t.items, t.uid, t.snap, t.record, t.io, t.canceledAfter);
    var run := PlanStep(w, t.key, t.items, t.uid, t.snap);
    values := if t.key in w.store then Elems(w.store[t.key].managed) else {};
    if run.Planned? {
      values := Managed(run.job.input);
      PlannedIsFree(w, t.key, t.items, t.snap);
      PlannedClaims(w, t.key, run.job, t.items, t.record, t.io, t.canceledAfter);
    } else {
      StoppedClaims(w, t.key, t.items, t.uid, t.snap);
    }
  }

  lemma PlannedIsFree(w: World, key: ResourceKey, items: seq<ResourceKey>, snap: Snapshot)
    requires Enumerates(items, w.store) && Disjoint(w.store) && key in w.store
    requires PlanOf(InputFor(w, key, items, snap), REPORT_CAP).ownership.conflicts == []
    ensures Free(w.store, key, Managed(InputFor(w, key, items, snap)))
  {
    PassesIff(w.store, items, key, PlanOf(InputFor(w, key, items, snap), REPORT_CAP).managed);
    PassingIsFree(w.store, key, Managed(InputFor(w, key, items, snap)));
  }

  lemma StoppedClaims(w: World, key: ResourceKey, items: seq<ResourceKey>, uid: nat, snap: Snapshot)
    requires Enumerates(items, w.store)
    ensures var run := PlanStep(w, key, items, uid, snap);
            run.Finishing? && run.completion.Some? ==>
              key in w.store && Elems(run.completion.value.managed) == Elems(w.store[key].managed)
  {
    if Live(w.store, key, uid) {
      var input := InputFor(w, key, items, snap);
      var plan := PlanOf(input, REPORT_CAP);
      CompletionWithin(CompletionInput(plan, input.self.managed, [], Conflict, false));
      CompletionWithin(CompletionInput(plan, input.self.managed, [], WouldRemoveAll, false));
    }
  }

  /** A reconcile, with any faults, keeps recorded claims disjoint and changes
      nobody else's. */
  lemma ReconcileClaims(w: World, t: Turn)
    requires Enumerates(t.items, w.store) && Disjoint(w.store)
    ensures var w' := ReconcileOf(w, t);
            && Disjoint(w'.store) && w'.store.Keys == w.store.Keys
            && forall j | j in w.store && j != t.key :: w'.store[j] == w.store[j]
  {
    var values := RunClaims(w, t);
    StatusClaims(w, RunOfTurn(w, t), t, values);
  }

  lemma StatusClaims(w: World, end: RunEnd, t: Turn, values: set<Str>)
    requires Disjoint(w.store) && Free(w.store, t.key, values) && ClaimsOnly(w.store, end.store, t.key, values)
    requires end.completion.Some? ==> Elems(end.completion.value.managed) <= values
    ensures ClaimsOnly(w.store, Persisted(w, end, t).store, t.key, values) && Disjoint(Persisted(w, end, t).store)
  {
    var store' := Persisted(w, end, t).store;
    assert ClaimsOnly(w.store, store', t.key, values);
    forall j, k | j in store' && k in store' && j != k ensures Elems(store'[j].managed) !! Elems(store'[k].managed) {
      if j != t.key && k != t.key { assert Elems(w.store[j].managed) !! Elems(w.store[k].managed); }
    }
  }

  // ---- A Synced sync has nothing to patch ----

  /** A Ready reconcile, once persisted, leaves its sync with recorded claims C,
      disjoint from everybody else's, and with nothing to patch. */
  lemma SyncedAndPersisted(w: World, t: Turn) returns (input: PlanInput)
    requires Enumerates(t.items, w.store) && ListingOf(t.snap.identities, w.backend) && Disjoint(w.store)
    requires RunOfTurn(w, t).completion.Some? && RunOfTurn(w, t).completion.value.ready && !t.persist.NotApplied?
    ensures var w' := ReconcileOf(w, t);
            && t.key in w.store && OnlyManaged(w.backend, w'.backend, Managed(InputFor(w, t.key, t.items, t.snap)))
            && Quiet(w', t.key, input) && Elems(w'.store[t.key].managed) == Elems(t.snap.scope.current)
            && input == InputFor(w, t.key, t.items, t.snap).(identities := Relisted(t.snap.identities, w'.backend),
                                                             self := ClaimOf(t.key, w'.store[t.key]))
  {
    var w' := ReconcileOf(w, t);
    var before := ReadyRunIsSound(w, t.key, t.uid, t.snap, t.items, t.record, t.io, t.canceledAfter);
    ReconcileClaims(w, t);
    ReadyIsPersisted(w, t);
    SyncedThenQuiet(w.backend, w'.backend, before, w'.store[t.key].managed);
    RelistedLists(t.snap.identities, w.backend, w'.backend, Managed(before));
    input := before.(identities := Relisted(t.snap.identities, w'.backend), self := ClaimOf(t.key, w'.store[t.key]));
  }

  lemma ReadyIsPersisted(w: World, t: Turn)
    requires Enumerates(t.items, w.store)
    requires RunOfTurn(w, t).completion.Some? && RunOfTurn(w, t).completion.value.ready && !t.persist.NotApplied?
    ensures var end, w' := RunOfTurn(w, t), ReconcileOf(w, t);
            && t.key in w'.store && w'.store[t.key].managed == end.completion.value.managed
            && w'.backend == end.backend && t.key in w.store && w'.store[t.key].created == w.store[t.key].created
  {
    var job := ReadyRunIsPlanned(w, t.key, t.uid, t.snap, t.items, t.record, t.io, t.canceledAfter);
    PlannedClaims(w, t.key, job, t.items, t.record, t.io, t.canceledAfter);
    WrittenToLive(w, RunOfTurn(w, t), t, Managed(job.input));
  }

  lemma WrittenToLive(w: World, end: RunEnd, t: Turn, values: set<Str>)
    requires Live(w.store, t.key, t.uid) && ClaimsOnly(w.store, end.store, t.key, values)
    requires end.completion.Some? && !t.persist.NotApplied?
    ensures var w' := Persisted(w, end, t);
            && t.key in w'.store && w'.store[t.key].managed == end.completion.value.managed
            && w'.backend == end.backend && w'.store[t.key].created == w.store[t.key].created
  {}

  // ---- And keeps having nothing to patch ----

  /** A run writes nothing unless its plan passed the ownership check, and then
      only what its write phase writes. */
  lemma RunWrites(w: World, t: Turn) returns (view: Option<View>)
    requires Enumerates(t.items, w.store)
    ensures var end := RunOfTurn(w, t);
            || end.backend == w.backend
            || (&& t.key in w.store
                && var plan := PlanOf(InputFor(w, t.key, t.items, t.snap), REPORT_CAP);
                && plan.ownership.conflicts == []
                && end.backend == WritePhase(w.backend, plan, view, t.io, t.canceledAfter).backend)
  {
    PlanStepCases(w, t.key, t.items, t.uid, t.snap, t.record, t.io, t.canceledAfter);
    var run := PlanStep(w, t.key, t.items, t.uid, t.snap);
    view := None;
    if run.Planned? {
      view := RunFromWrites(w, t.key, run.job, t.items, t.record, t.io, t.canceledAfter);
    }
  }

  /** The write phase of another sync that passed the ownership check. */
  lemma QuietAfter(w: World, a: ResourceKey, settled: PlanInput, b: ResourceKey, items: seq<ResourceKey>,
                   snap: Snapshot, view: Option<View>, io: nat -> PatchIO, canceledAfter: bool)
    requires a != b && Enumerates(items, w.store) && Quiet(w, a, settled) && b in w.store
    requires PlanOf(InputFor(w, b, items, snap), REPORT_CAP).ownership.conflicts == []
    ensures var input := InputFor(w, b, items, snap);
            var after := WritePhase(w.backend, PlanOf(input, REPORT_CAP), view, io, canceledAfter).backend;
            && OnlyManaged(w.backend, after, Managed(input))
            && PatchesFor(After(settled, after), |settled.identities|) == []
  {
    var input := InputFor(w, b, items, snap);
    OthersAreForeign(w.store, items, b);
    OthersIff(w.store, items, b, settled.self);
    SyncsDoNotFight(settled, w.backend, input, REPORT_CAP, view, io, canceledAfter);
    PlansGrantManaged(input, REPORT_CAP);
    WriteFrame(w.backend, PlanOf(input, REPORT_CAP), view, io, |PlanOf(input, REPORT_CAP).patches|);
  }

  lemma RelistedSame(ids: seq<Identity>, b: Backend)
    requires ListingOf(ids, b)
    ensures Relisted(ids, b) == ids
  {}

  /** A quiet sync stays quiet through any reconcile of another one. */
  lemma QuietThroughReconcile(w: World, a: ResourceKey, settled: PlanInput, t: Turn)
    requires Enumerates(t.items, w.store) && Quiet(w, a, settled) && a != t.key
    ensures ReconcileOf(w, t).backend.Keys == w.backend.Keys
    ensures Quiet(ReconcileOf(w, t), a, After(settled, ReconcileOf(w, t).backend))
  {
    ReconcileClaims(w, t);
    QuietThroughRun(w, a, settled, t);
  }

  lemma QuietThroughRun(w: World, a: ResourceKey, settled: PlanInput, t: Turn)
    requires Enumerates(t.items, w.store) && Quiet(w, a, settled) && a != t.key
    ensures var b := RunOfTurn(w, t).backend;
            && b.Keys == w.backend.Keys && ListingOf(After(settled, b).identities, b)
            && PatchesFor(After(settled, b), |settled.identities|) == []
  {
    var b := RunOfTurn(w, t).backend;
    var view := RunWrites(w, t);
    if b == w.backend {
      RelistedSame(settled.identities, w.backend);
    } else {
      QuietAfter(w, a, settled, t.key, t.items, t.snap, view, t.io, t.canceledAfter);
      RelistedLists(settled.identities, w.backend, b, Managed(InputFor(w, t.key, t.items, t.snap)));
    }
  }

  /** `w'` comes from `w` by the reconciles `turns`, one after the other. */
  ghost predicate Reconciled(w: World, turns: seq<Turn>, w': World)
    decreases |turns|
  {
    if turns == [] then w' == w
    else Enumerates(turns[0].items, w.store) && Reconciled(ReconcileOf(w, turns[0]), turns[1..], w')
  }

  lemma {:induction false} QuietThroughAll(w: World, a: ResourceKey, settled: PlanInput, turns: seq<Turn>, w': World)
    returns (input: PlanInput)
    requires Quiet(w, a, settled) && Reconciled(w, turns, w') && forall i | 0 <= i < |turns| :: turns[i].key != a
    ensures Quiet(w', a, input) && input == settled.(identities := input.identities)
    decreases |turns|
  {
    input := settled;
    if turns != [] {
      QuietThroughReconcile(w, a, settled, turns[0]);
      var m := ReconcileOf(w, turns[0]);
      input := QuietThroughAll(m, a, After(settled, m.backend), turns[1..], w');
    }
  }

  // ---- Whatever order the next listings come in ----

  lemma BearersInAnyOrder(ids: seq<Identity>, ids': seq<Identity>, b: Backend, key: Str)
    requires ListingOf(ids, b) && ListingOf(ids', b) && |Bearers(ids, key)| <= 1
    ensures |Bearers(ids', key)| <= 1
  {
    if |Bearers(ids', key)| >= 2 {
      var i, j := TwoBearers(ids', |ids'|, key);
      var k :| 0 <= k < |ids| && ids[k].id == ids'[i].id;
      var l :| 0 <= l < |ids| && ids[l].id == ids'[j].id;
      assert ids[k] == ids'[i] && ids[l] == ids'[j];
      BearersBound(ids, |ids|, key, k);
    }
  }

  /** What a plan patches does not depend on the order of its listing. */
  lemma SamePatchInAnyOrder(input: PlanInput, input': PlanInput, b: Backend, identity: Identity)
    requires ListingOf(input.identities, b) && ListingOf(input'.identities, b)
    requires input' == input.(identities := input'.identities, others := input'.others)
    ensures PatchFor(input, identity) == PatchFor(input', identity)
  {
    var key := Fold(identity.externalId);
    if |Bearers(input.identities, key)| <= 1 {
      BearersInAnyOrder(input.identities, input'.identities, b, key);
    }
    if |Bearers(input'.identities, key)| <= 1 {
      BearersInAnyOrder(input'.identities, input.identities, b, key);
    }
  }

  /** A quiet sync's next plan, over any listings, is empty and unblocked. */
  lemma QuietPlan(w: World, a: ResourceKey, settled: PlanInput, next: PlanInput, items: seq<ResourceKey>, cap: nat)
    requires Quiet(w, a, settled) && Enumerates(items, w.store) && ListingOf(next.identities, w.backend)
    requires next == settled.(identities := next.identities, others := Others(w.store, items, a))
    ensures var plan := PlanOf(next, cap);
            plan.ownership.conflicts == [] && plan.patches == [] && !plan.wouldRemoveAll
  {
    forall i | 0 <= i < |next.identities| ensures PatchFor(next, next.identities[i]) == [] {
      assert next.identities[i].id in w.backend;
      var k :| 0 <= k < |settled.identities| && settled.identities[k].id == next.identities[i].id;
      assert settled.identities[k] == next.identities[i];
      NoPatchAnywhere(settled, |settled.identities|, k);
      SamePatchInAnyOrder(settled, next, w.backend, next.identities[i]);
    }
    AllSettled(next, |next.identities|);
    SettledPassesGuard(next);
    OwnClaimsPass(w.store, a, Managed(next));
    PassesIff(w.store, items, a, PlanOf(next, cap).managed);
  }

  lemma OwnClaimsPass(store: Claims, a: ResourceKey, values: set<Str>)
    requires a in store && Disjoint(store) && values <= Elems(store[a].managed)
    ensures Passes(store, a, values)
  {
    forall j, v | j in store && j != a && v in values && v in store[j].managed ensures false {
      assert Elems(store[j].managed) !! Elems(store[a].managed);
    }
  }

  /** Once a sync is Synced, any number of reconciles of other syncs, with any
      faults, leave it with nothing to do on the same directory: its next plan,
      in whatever order it lists syncs and identities, has no conflict, no patch
      and no guard. */
  lemma SyncedStaysQuiet(w: World, first: Turn, later: seq<Turn>, w': World,
                         items: seq<ResourceKey>, identities: seq<Identity>, cap: nat)
    requires Enumerates(first.items, w.store) && ListingOf(first.snap.identities, w.backend) && Disjoint(w.store)
    requires RunOfTurn(w, first).completion.Some? && RunOfTurn(w, first).completion.value.ready
    requires !first.persist.NotApplied?
    requires Reconciled(ReconcileOf(w, first), later, w')
    requires forall i | 0 <= i < |later| :: later[i].key != first.key
    requires Enumerates(items, w'.store) && ListingOf(identities, w'.backend)
    ensures first.key in w'.store
    ensures var plan := PlanOf(InputFor(w', first.key, items, first.snap.(identities := identities)), cap);
            plan.ownership.conflicts == [] && plan.patches == [] && !plan.wouldRemoveAll
  {
    var settled := SyncedAndPersisted(w, first);
    var last := QuietThroughAll(ReconcileOf(w, first), first.key, settled, later, w');
    var next := InputFor(w', first.key, items, first.snap.(identities := identities));
    QuietPlan(w', first.key, last, next, items, cap);
  }
}
