/** A run whose calls all succeed: how it ends, exactly. */
module FaultFree {
  import opened Text
  import opened SortedSets
  import opened Ownership
  import opened Planner
  import opened PlanProperties
  import opened Retirement
  import opened Writes
  import opened Store
  import opened Protocol
  import opened Undisturbed
  import opened Reconciler
  import opened Decisions

  const NO_FAULT := PatchIO(false, None, None, false, None, false)

  function NoFaults(n: nat): PatchIO {
    NO_FAULT
  }

  ghost predicate Authorizes(view: View, plan: Plan) {
    ResolvedOwnership(view.self, plan.managed, view.others).conflicts == []
  }

  /** An ineligible listed identity holds a retired value. */
  ghost predicate HasIneligibleHolder(input: PlanInput) {
    exists i | 0 <= i < |input.identities| :: IneligibleHolding(input, input.identities[i])
  }

  ghost predicate AnsweredWell(plan: Plan, patch: IdentityPatch, o: IdentityOutcome) {
    Answers(plan, patch, o) && (o.kind.Observed? || o.kind.Patched?)
  }

  /** The first `n` patches were each answered by a write or by a clean read. */
  ghost predicate Smooth(p: Progress, plan: Plan, n: nat) {
    && n <= |plan.patches| && !p.stopped && |p.outcomes| == n
    && forall k | 0 <= k < n :: AnsweredWell(plan, plan.patches[k], p.outcomes[k])
  }

  lemma ApplySmoothly(b: Backend, plan: Plan, patch: IdentityPatch, view: View)
    requires PatchableNow(b, patch, Some(view)) && Authorizes(view, plan)
    ensures var o := ApplyOne(b, plan, patch, Some(view), NO_FAULT).0;
            AnsweredWell(plan, patch, o) && !StopsWrites(o)
  {
    var o := ApplyOne(b, plan, patch, Some(view), NO_FAULT).0;
    assert DecidedBy(plan, patch, Some(b[patch.id]), view, o);
  }

  lemma StaysSmooth(p: Progress, plan: Plan, view: View, n: nat)
    requires n < |plan.patches| && Smooth(p, plan, n) && Authorizes(view, plan)
    requires PatchableNow(p.backend, plan.patches[n], Some(view))
    ensures Smooth(WriteOne(p, plan, plan.patches[n], Some(view), NO_FAULT), plan, n + 1)
  {
    ApplySmoothly(p.backend, plan, plan.patches[n], view);
  }

  ghost predicate SmoothUpTo(b: Backend, plan: Plan, view: View, n: nat) {
    n <= |plan.patches| && Smooth(WriteUpTo(b, plan, Some(view), NoFaults, n), plan, n)
  }

  /** When its turn comes, patch `n` may still be applied. */
  ghost predicate PatchableInTurn(b: Backend, plan: Plan, view: View, n: nat)
    requires n < |plan.patches|
  {
    PatchableNow(WriteUpTo(b, plan, Some(view), NoFaults, n).backend, plan.patches[n], Some(view))
  }

  lemma OneMoreSmooth(b: Backend, plan: Plan, view: View, n: nat)
    requires n < |plan.patches| && SmoothUpTo(b, plan, view, n) && Authorizes(view, plan)
    requires PatchableInTurn(b, plan, view, n)
    ensures SmoothUpTo(b, plan, view, n + 1)
  {
    StaysSmooth(WriteUpTo(b, plan, Some(view), NoFaults, n), plan, view, n);
  }

  lemma {:induction false} SmoothAllAlong(b: Backend, plan: Plan, view: View, n: nat)
    requires n <= |plan.patches| && Authorizes(view, plan)
    requires forall k | 0 <= k < n :: PatchableInTurn(b, plan, view, k)
    ensures forall k: nat | k <= n :: SmoothUpTo(b, plan, view, k)
  {
    if n == 0 {
      assert SmoothUpTo(b, plan, view, 0);
    } else {
      SmoothAllAlong(b, plan, view, n - 1);
      OneMoreSmooth(b, plan, view, n - 1);
    }
  }

  lemma PatchableAllAlong(b: Backend, input: PlanInput, cap: nat, view: View)
    requires ListingOf(input.identities, b) && view.owners == input.owners
    ensures var plan := PlanOf(input, cap); forall k | 0 <= k < |plan.patches| :: PatchableInTurn(b, plan, view, k)
  {
    var plan := PlanOf(input, cap);
    PlansGrantManaged(input, cap);
    PatchesArePatchable(b, input, cap, Some(view));
    forall k | 0 <= k < |plan.patches| ensures PatchableInTurn(b, plan, view, k) {
      StillAsListed(b, plan, Some(view), NoFaults, k);
    }
  }

  /** Without faults, an authorized write phase ends Synced, unless an ineligible
      listed identity holds a retired value: then, and only then, CleanupPending. */
  lemma FaultFreePhase(b: Backend, input: PlanInput, cap: nat, view: View)
    requires ListingOf(input.identities, b) && PlanOf(input, cap).ownership.conflicts == []
    requires view.owners == input.owners && Authorizes(view, PlanOf(input, cap))
    ensures var p := WritePhase(b, PlanOf(input, cap), Some(view), NoFaults, false);
            var c := CompletionOf(CompletionInput(PlanOf(input, cap), input.self.managed, p.outcomes, Unset, true));
            && c.reason == (if HasIneligibleHolder(input) then CleanupPending else Synced)
            && (c.ready <==> c.reason == Synced)
  {
    var plan := PlanOf(input, cap);
    PatchableAllAlong(b, input, cap, view);
    SmoothAllAlong(b, plan, view, |plan.patches|);
    assert SmoothUpTo(b, plan, view, |plan.patches|);
    var p := WritePhase(b, plan, Some(view), NoFaults, false);
    SmoothEnds(input, cap, p.outcomes);
  }

  lemma SmoothEnds(input: PlanInput, cap: nat, outcomes: seq<IdentityOutcome>)
    requires DistinctIds(input.identities) && PlanOf(input, cap).ownership.conflicts == []
    requires CleanPhase(PlanOf(input, cap), outcomes)
    requires forall k | 0 <= k < |outcomes| :: !outcomes[k].kind.Skipped?
    ensures var c := CompletionOf(CompletionInput(PlanOf(input, cap), input.self.managed, outcomes, Unset, true));
            && c.reason == (if HasIneligibleHolder(input) then CleanupPending else Synced)
            && (c.ready <==> c.reason == Synced)
  {
    PendingExactly(input, cap, outcomes);
    TallyIff(Elems(PlanOf(input, cap).ownership.conflicts), outcomes, |outcomes|);
  }

  /** Recording its claims does not cost a sync its ownership. */
  lemma StillPasses(store: Claims, rev: nat, key: ResourceKey, uid: nat, values: seq<Str>)
    requires Live(store, key, uid) && Passes(store, key, Elems(values)) && Elems(store[key].managed) <= Elems(values)
    ensures var store' := Recorded(store, rev, key, uid, ClaimOf(key, store[key]), values, Acked).0;
            Live(store', key, uid) && store'.Keys == store.Keys && Passes(store', key, Elems(values))
  {
    var store' := Recorded(store, rev, key, uid, ClaimOf(key, store[key]), values, Acked).0;
    forall j, v | j in store' && j != key && v in Elems(values) && v in store'[j].managed
      ensures v in store'[key].managed && ClaimBefore(ClaimOf(key, store'[key]), ClaimOf(j, store'[j]))
    {
      assert v in store[key].managed && ClaimBefore(ClaimOf(key, store[key]), ClaimOf(j, store[j]));
      assert v in Elems(store'[key].managed);
    }
  }

  /** What a fault-free write phase makes of a listed identity: an eligible one
      holds exactly its grants within C + P, and everything else as it was; any
      other one is left alone. */
  ghost predicate AsGranted(b': Backend, input: PlanInput, identity: Identity) {
    && identity.id in b' && b'[identity.id] == identity.(attrs := b'[identity.id].attrs)
    && Drop(b'[identity.id].attrs, Managed(input)) == Drop(identity.attrs, Managed(input))
    && if Eligible(input, identity) then Elems(b'[identity.id].attrs) * Managed(input) == GrantsTo(input, identity)
       else b'[identity.id] == identity
  }

  lemma FaultFreeWrites(b: Backend, input: PlanInput, cap: nat, view: View)
    requires ListingOf(input.identities, b) && PlanOf(input, cap).ownership.conflicts == []
    requires view.owners == input.owners && Authorizes(view, PlanOf(input, cap))
    ensures var b' := WritePhase(b, PlanOf(input, cap), Some(view), NoFaults, false).backend;
            b'.Keys == b.Keys && forall i | 0 <= i < |input.identities| :: AsGranted(b', input, input.identities[i])
  {
    var plan := PlanOf(input, cap);
    var n := |plan.patches|;
    PlansGrantManaged(input, cap);
    PatchesArePatchable(b, input, cap, Some(view));
    PatchableAllAlong(b, input, cap, view);
    SmoothAllAlong(b, plan, view, n);
    assert SmoothUpTo(b, plan, view, n);
    var p := WriteUpTo(b, plan, Some(view), NoFaults, n);
    SmoothIsNoTrouble(p, plan, n);
    WriteSettles(b, plan, Some(view), NoFaults, n);
    WriteFrame(b, plan, Some(view), NoFaults, n);
    forall i | 0 <= i < |input.identities| ensures AsGranted(p.backend, input, input.identities[i]) {
      GrantedOne(b, p.backend, input, cap, i);
    }
  }

  lemma SmoothIsNoTrouble(p: Progress, plan: Plan, n: nat)
    requires Smooth(p, plan, n)
    ensures NoTrouble(p.outcomes)
  {
    forall k | 0 <= k < |p.outcomes| ensures !p.outcomes[k].kind.Failed? && !p.outcomes[k].kind.Conflicted? {
      assert AnsweredWell(plan, plan.patches[k], p.outcomes[k]);
    }
  }

  lemma GrantedOne(b: Backend, b': Backend, input: PlanInput, cap: nat, i: nat)
    requires ListingOf(input.identities, b) && i < |input.identities| && OnlyManaged(b, b', Managed(input))
    requires PlanOf(input, cap).ownership.conflicts == [] && UnplannedKept(b, b', PlanOf(input, cap))
    requires forall k | 0 <= k < |PlanOf(input, cap).patches| ::
               Settled(b', PlanOf(input, cap), PlanOf(input, cap).patches[k])
    ensures AsGranted(b', input, input.identities[i])
  {
    assert b[input.identities[i].id] == input.identities[i];
    if Eligible(input, input.identities[i]) {
      EligibleSettled(b, b', input, cap, i);
    } else {
      UnpatchedId(input, cap, i);
    }
  }

  /** A whole run without faults and without interference. When the instance
      stands, there are User roles, nobody challenges a managed value, and no
      eligible identity holds a managed value or some is granted one, the run
      records C + P, leaves every listed identity with exactly its grants, and
      ends Synced or, exactly when an ineligible listed identity holds a retired
      value, CleanupPending. In every other case it changes nothing. */
  lemma FaultFreeRun(w: World, key: ResourceKey, uid: nat, snap: Snapshot, items: seq<ResourceKey>)
    returns (input: PlanInput)
    requires Enumerates(items, w.store) && ListingOf(snap.identities, w.backend)
    ensures var end := RunOf(w, key, uid, snap, items, Acked, NoFaults, false);
            if Standing(w.store, key, uid) && snap.scope.current != []
               && Unchallenged(w.store, key, Elems(snap.scope.current) + Elems(w.store[key].managed))
               && (HasHolder(InputFor(w, key, items, snap)) ==> HasGrant(InputFor(w, key, items, snap)))
            then
              && PlansFrom(w, key, snap, input)
              && end.completion.Some?
              && end.completion.value.reason == (if HasIneligibleHolder(input) then CleanupPending else Synced)
              && (end.completion.value.ready <==> end.completion.value.reason == Synced)
              && key in end.store && Elems(end.store[key].managed) == Managed(input)
              && end.backend.Keys == w.backend.Keys
              && forall i | 0 <= i < |snap.identities| :: AsGranted(end.backend, input, snap.identities[i])
            else end.store == w.store && end.backend == w.backend
                 && (end.completion.Some? ==> !end.completion.value.ready)
  {
    input := PlanStepExactly(w, key, items, uid, snap);
    PlanStepCases(w, key, items, uid, snap, Acked, NoFaults, false);
    if PlanStep(w, key, items, uid, snap).Planned? {
      FaultFreeFrom(w, key, PlanStep(w, key, items, uid, snap).job, items);
    }
  }

  lemma FaultFreeFrom(w: World, key: ResourceKey, job: Job, items: seq<ResourceKey>)
    requires Enumerates(items, w.store) && Live(w.store, key, job.uid)
    requires job.input.self == ClaimOf(key, w.store[key]) && job.input.others == Others(w.store, items, key)
    requires job.input.owners == w.owners && ListingOf(job.input.identities, w.backend)
    requires job.plan == PlanOf(job.input, REPORT_CAP) && job.plan.ownership.conflicts == []
    ensures var end := RunFrom(w, key, job, items, Acked, NoFaults, false);
            && end.completion.Some?
            && end.completion.value.reason == (if HasIneligibleHolder(job.input) then CleanupPending else Synced)
            && (end.completion.value.ready <==> end.completion.value.reason == Synced)
            && key in end.store && Elems(end.store[key].managed) == Managed(job.input)
            && end.backend.Keys == w.backend.Keys
            && forall i | 0 <= i < |job.input.identities| :: AsGranted(end.backend, job.input, job.input.identities[i])
  {
    PassesIff(w.store, items, key, job.plan.managed);
    StillPasses(w.store, w.rev, key, job.uid, job.plan.managed);
    RecordedValues(w.store, w.rev, key, job.uid, job.input.self, job.plan.managed, Acked);
    var store := Recorded(w.store, w.rev, key, job.uid, job.input.self, job.plan.managed, Acked).0;
    PassesIff(store, items, key, job.plan.managed);
    WrittenWithoutFaults(w.backend, job, ViewAt(store, w.owners, key, job.uid, items).value);
  }

  lemma WrittenWithoutFaults(b: Backend, job: Job, view: View)
    requires ListingOf(job.input.identities, b) && view.owners == job.input.owners
    requires job.plan == PlanOf(job.input, REPORT_CAP) && job.plan.ownership.conflicts == []
    requires Authorizes(view, job.plan)
    ensures var (b', c) := Written(b, job, Some(view), NoFaults, false);
            && c.reason == (if HasIneligibleHolder(job.input) then CleanupPending else Synced)
            && (c.ready <==> c.reason == Synced)
            && b'.Keys == b.Keys
            && forall i | 0 <= i < |job.input.identities| :: AsGranted(b', job.input, job.input.identities[i])
  {
    FaultFreePhase(b, job.input, REPORT_CAP, view);
    FaultFreeWrites(b, job.input, REPORT_CAP, view);
  }
}
