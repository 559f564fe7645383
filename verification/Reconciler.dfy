/** The role sync reconciler, run without interference. */
module Reconciler {
  import opened Text
  import opened SortedSets
  import opened Ownership
  import opened Planner
  import opened PlanBuilder
  import opened PlanProperties
  import opened Retirement
  import opened Writes
  import opened Store
  import opened Protocol
  import opened Undisturbed
  import opened Decisions

  ghost function ViewAt(store: Claims, owners: seq<IdentityOwner>, key: ResourceKey, uid: nat,
                        items: seq<ResourceKey>): Option<View>
    requires Enumerates(items, store)
  {
    if Live(store, key, uid) then Some(View(ClaimOf(key, store[key]), Others(store, items, key), owners)) else None
  }

  ghost function WithClaims(store: Claims, rev: nat, key: ResourceKey, values: seq<Str>): Claims
    requires key in store
  {
    store[key := store[key].(managed := values, rv := rev + 1)]
  }

  /** recordRoleClaims: the store it leaves, and whether the run may go on. */
  ghost function Recorded(store: Claims, rev: nat, key: ResourceKey, uid: nat, self: SyncClaim, values: seq<Str>,
                          ack: Ack): (Claims, nat, bool) {
    if Elems(self.managed) == Elems(values) then (store, rev, true)
    else if !Live(store, key, uid) || Elems(store[key].managed) != Elems(self.managed) || ack.NotApplied? then
      (store, rev, false)
    else (WithClaims(store, rev, key, values), rev + 1, ack.Acked?)
  }

  datatype RunEnd = RunEnd(store: Claims, rev: nat, backend: Backend, completion: Option<Completion>)

  /** The write phase and its completion. */
  ghost function Written(b: Backend, job: Job, view: Option<View>, io: nat -> PatchIO,
                         canceledAfter: bool): (Backend, Completion) {
    var p := WritePhase(b, job.plan, view, io, canceledAfter);
    (p.backend, CompletionOf(CompletionInput(job.plan, job.input.self.managed, p.outcomes, Unset, true)))
  }

  /** The rest of a run once it is planned: record, write, complete. */
  ghost function RunFrom(w: World, key: ResourceKey, job: Job, items: seq<ResourceKey>,
                         record: Ack, io: nat -> PatchIO, canceledAfter: bool): RunEnd
    requires Enumerates(items, w.store)
  {
    var (store, rev, ok) := Recorded(w.store, w.rev, key, job.uid, job.input.self, job.plan.managed, record);
    assert store.Keys == w.store.Keys;
    if !ok then RunEnd(store, rev, w.backend, None)
    else
      var (backend, completion) := Written(w.backend, job, ViewAt(store, w.owners, key, job.uid, items), io,
                                           canceledAfter);
      RunEnd(store, rev, backend, Some(completion))
  }

  /** What follows planning: nothing when the run was stopped. */
  ghost function RunOnFrom(w: World, key: ResourceKey, run: Run, items: seq<ResourceKey>,
                           record: Ack, io: nat -> PatchIO, canceledAfter: bool): RunEnd
    requires Enumerates(items, w.store)
  {
    match run
    case Finishing(_, completion) => RunEnd(w.store, w.rev, w.backend, completion)
    case Planned(job) => RunFrom(w, key, job, items, record, io, canceledAfter)
    case _ => RunEnd(w.store, w.rev, w.backend, None)
  }

  /** A whole run: plan, stop or record, write, complete. */
  ghost function RunOf(w: World, key: ResourceKey, uid: nat, snap: Snapshot, items: seq<ResourceKey>,
                       record: Ack, io: nat -> PatchIO, canceledAfter: bool): RunEnd
    requires Enumerates(items, w.store)
  {
    RunOnFrom(w, key, PlanStep(w, key, items, uid, snap), items, record, io, canceledAfter)
  }

  /** persistSyncResult: the store it leaves, and whether the call succeeds. */
  ghost function StatusWritten(store: Claims, rev: nat, key: ResourceKey, uid: nat, completion: Option<Completion>,
                               ack: Ack): (Claims, nat, bool) {
    if !Live(store, key, uid) || ack.NotApplied? then (store, rev, false)
    else (WithClaims(store, rev, key, if completion.Some? then completion.value.managed else store[key].managed),
          rev + 1, ack.Acked?)
  }

  /** One reconcile of a sync: what it lists, in which order it finds the syncs,
      and how its calls turn out. */
  datatype Turn = Turn(key: ResourceKey, uid: nat, snap: Snapshot, items: seq<ResourceKey>,
                       record: Ack, io: nat -> PatchIO, canceledAfter: bool, persist: Ack)

  ghost function RunOfTurn(w: World, t: Turn): RunEnd
    requires Enumerates(t.items, w.store)
  {
    RunOf(w, t.key, t.uid, t.snap, t.items, t.record, t.io, t.canceledAfter)
  }

  /** A whole reconcile: the run and its final status write. */
  ghost function ReconcileOf(w: World, t: Turn): World
    requires Enumerates(t.items, w.store)
  {
    Persisted(w, RunOfTurn(w, t), t)
  }

  ghost function Persisted(w: World, end: RunEnd, t: Turn): World {
    var (store, rev, _) := StatusWritten(end.store, end.rev, t.key, t.uid, end.completion, t.persist);
    w.(store := store, rev := rev, backend := end.backend)
  }

  /** Planning either stops the run or hands it on, conflict-free and under the
      same instance. */
  lemma PlanStepCases(w: World, key: ResourceKey, items: seq<ResourceKey>, uid: nat, snap: Snapshot,
                      record: Ack, io: nat -> PatchIO, canceledAfter: bool)
    requires Enumerates(items, w.store)
    ensures var run := PlanStep(w, key, items, uid, snap);
            var end := RunOf(w, key, uid, snap, items, record, io, canceledAfter);
            || (run.Finishing? && run.uid == uid && end == RunEnd(w.store, w.rev, w.backend, run.completion))
            || (&& run.Planned? && end == RunFrom(w, key, run.job, items, record, io, canceledAfter) && key in w.store
                && run.job == Job(uid, InputFor(w, key, items, snap), PlanOf(InputFor(w, key, items, snap), REPORT_CAP))
                && run.job.plan.ownership.conflicts == [])
  {}

  /** What a planned run does to the backend is its write phase, if that. */
  lemma RunFromWrites(w: World, key: ResourceKey, job: Job, items: seq<ResourceKey>,
                      record: Ack, io: nat -> PatchIO, canceledAfter: bool) returns (view: Option<View>)
    requires Enumerates(items, w.store)
    ensures var b := RunFrom(w, key, job, items, record, io, canceledAfter).backend;
            b == w.backend || b == WritePhase(w.backend, job.plan, view, io, canceledAfter).backend
  {
    var store := Recorded(w.store, w.rev, key, job.uid, job.input.self, job.plan.managed, record).0;
    RecordedKeys(w.store, w.rev, key, job.uid, job.input.self, job.plan.managed, record);
    view := ViewAt(store, w.owners, key, job.uid, items);
  }

  lemma RecordedKeys(store: Claims, rev: nat, key: ResourceKey, uid: nat, self: SyncClaim, values: seq<Str>, ack: Ack)
    ensures Recorded(store, rev, key, uid, self, values, ack).0.Keys == store.Keys
  {}

  /** Recording changes the store only to replace exactly the claims planned from
      by `values`, on the standing instance; equal claims need no write; and the
      run goes on exactly after a write that was acknowledged or not needed. */
  lemma RecordedExactly(store: Claims, rev: nat, key: ResourceKey, uid: nat, self: SyncClaim, values: seq<Str>,
                        ack: Ack)
    ensures var (store', rev', ok) := Recorded(store, rev, key, uid, self, values, ack);
            var same := Elems(self.managed) == Elems(values);
            var swaps := !same && Standing(store, key, uid) && Elems(store[key].managed) == Elems(self.managed);
            && (ok <==> same || (swaps && ack == Acked))
            && if swaps && ack != NotApplied
               then key in store' && Elems(store'[key].managed) == Elems(values) && store'[key].rv > rev
                    && store' == store[key := store[key].(managed := store'[key].managed, rv := store'[key].rv)]
               else store' == store && rev' == rev
  {}

  lemma RecordedValues(store: Claims, rev: nat, key: ResourceKey, uid: nat, self: SyncClaim, values: seq<Str>, ack: Ack)
    requires key in store && self == ClaimOf(key, store[key])
    requires Recorded(store, rev, key, uid, self, values, ack).2
    ensures var store' := Recorded(store, rev, key, uid, self, values, ack).0;
            key in store' && Elems(store'[key].managed) == Elems(values)
  {}

  /** An undisturbed run that completes Ready leaves every listed identity as
      Synced promises, and its sync's claims recorded. */
  lemma ReadyRunIsSound(w: World, key: ResourceKey, uid: nat, snap: Snapshot, items: seq<ResourceKey>,
                        record: Ack, io: nat -> PatchIO, canceledAfter: bool) returns (input: PlanInput)
    requires Enumerates(items, w.store) && ListingOf(snap.identities, w.backend)
    requires var end := RunOf(w, key, uid, snap, items, record, io, canceledAfter);
             end.completion.Some? && end.completion.value.ready
    ensures key in w.store && input == InputFor(w, key, items, snap)
    ensures var end := RunOf(w, key, uid, snap, items, record, io, canceledAfter);
            && (forall i | 0 <= i < |snap.identities| :: AsPromised(end.backend, input, snap.identities[i]))
            && OnlyManaged(w.backend, end.backend, Managed(input))
            && key in end.store && Elems(end.store[key].managed) == Managed(input)
            && Elems(end.completion.value.managed) == Elems(snap.scope.current)
  {
    var job := ReadyRunIsPlanned(w, key, uid, snap, items, record, io, canceledAfter);
    input := job.input;
    var (store, rev, ok) := Recorded(w.store, w.rev, key, uid, job.input.self, job.plan.managed, record);
    RecordedKeys(w.store, w.rev, key, uid, job.input.self, job.plan.managed, record);
    RecordedValues(w.store, w.rev, key, uid, job.input.self, job.plan.managed, record);
    ReadyWriteIsSound(w.backend, job, ViewAt(store, w.owners, key, uid, items), io, canceledAfter);
  }

  lemma ReadyRunIsPlanned(w: World, key: ResourceKey, uid: nat, snap: Snapshot, items: seq<ResourceKey>,
                          record: Ack, io: nat -> PatchIO, canceledAfter: bool) returns (job: Job)
    requires Enumerates(items, w.store)
    requires var end := RunOf(w, key, uid, snap, items, record, io, canceledAfter);
             end.completion.Some? && end.completion.value.ready
    ensures Live(w.store, key, uid) && job.uid == uid
    ensures job.input == InputFor(w, key, items, snap) && job.plan == PlanOf(job.input, REPORT_CAP)
    ensures job.plan.ownership.conflicts == []
    ensures Recorded(w.store, w.rev, key, uid, job.input.self, job.plan.managed, record).2
    ensures RunOf(w, key, uid, snap, items, record, io, canceledAfter) ==
            RunFrom(w, key, job, items, record, io, canceledAfter)
  {
    job := PlanStep(w, key, items, uid, snap).job;
  }

  lemma ReadyWriteIsSound(b: Backend, job: Job, view: Option<View>, io: nat -> PatchIO, canceledAfter: bool)
    requires ListingOf(job.input.identities, b) && job.plan == PlanOf(job.input, REPORT_CAP)
    requires job.plan.ownership.conflicts == [] && (view.Some? ==> view.value.owners == job.input.owners)
    requires Written(b, job, view, io, canceledAfter).1.ready
    ensures var (b', completion) := Written(b, job, view, io, canceledAfter);
            && (forall i | 0 <= i < |job.input.identities| :: AsPromised(b', job.input, job.input.identities[i]))
            && OnlyManaged(b, b', Managed(job.input))
            && Elems(completion.managed) == Elems(job.input.scope.current)
  {
    SyncedIsSound(b, job.input, REPORT_CAP, view, io, canceledAfter);
    OutcomesOfReady(job.plan, job.input.self.managed, WritePhase(b, job.plan, view, io, canceledAfter).outcomes);
  }

  /** The calls before the decision all answer, for the same standing instance. */
  ghost predicate Answered(store: Claims, key: ResourceKey, uid: nat, io: PatchIO) {
    io.readFault.None? && io.ownershipFault.None? && Standing(store, key, uid)
  }

  ghost predicate Sends(b: Backend, store: Claims, owners: seq<IdentityOwner>, key: ResourceKey, uid: nat,
                        plan: Plan, patch: IdentityPatch, io: PatchIO) {
    && Answered(store, key, uid, io) && Unchallenged(store, key, Elems(plan.managed))
    && patch.id in b && Open(b[patch.id], owners, patch.externalId)
    && Elems(b[patch.id].attrs) * Elems(plan.managed) != Elems(patch.granted) && !io.canceled
  }

  /** applyRolePatch in terms of the store and the backend: when it sends, what it
      then writes, and which outcome it reports. */
  lemma ApplyOneExactly(b: Backend, store: Claims, owners: seq<IdentityOwner>, key: ResourceKey, uid: nat,
                        items: seq<ResourceKey>, plan: Plan, patch: IdentityPatch, io: PatchIO)
    requires Enumerates(items, store) && Elems(patch.granted) <= Elems(plan.managed)
    ensures var (o, b') := ApplyOne(b, plan, patch, ViewAt(store, owners, key, uid, items), io);
            var answered, managed := Answered(store, key, uid, io), Elems(plan.managed);
            && o.id == patch.id
            && (o.kind == Conflicted <==> answered && !Unchallenged(store, key, managed))
            && (o.kind == Deleted <==> answered && Unchallenged(store, key, managed) && patch.id !in b)
            && (o.kind == Skipped <==>
                answered && Unchallenged(store, key, managed) && patch.id in b
                && !Open(b[patch.id], owners, patch.externalId))
            && (o.kind == Observed <==>
                answered && Unchallenged(store, key, managed) && patch.id in b
                && Open(b[patch.id], owners, patch.externalId)
                && Elems(b[patch.id].attrs) * managed == Elems(patch.granted))
            && (o.kind == Patched <==> Sends(b, store, owners, key, uid, plan, patch, io) && io.patchFault.None?)
            && o.attrs == (if o.kind == Patched && patch.id in b' then b'[patch.id].attrs
                           else if io.readFault.None? && patch.id in b then b[patch.id].attrs else [])
            && o.fault == (if io.readFault.Some? then io.readFault
                           else if io.ownershipFault.Some? then io.ownershipFault
                           else if !Standing(store, key, uid) then Some(Failure)
                           else if Sends(b, store, owners, key, uid, plan, patch, io.(canceled := false))
                           then if io.canceled then Some(Canceled) else io.patchFault
                           else None)
            && (o.fault.Some? <==> o.kind == Failed)
            && if Sends(b, store, owners, key, uid, plan, patch, io) && (io.patchFault.None? || io.applied)
               then patch.id in b' && b' == b[patch.id := b[patch.id].(attrs := b'[patch.id].attrs)]
                    && Rewritten(b[patch.id].attrs, managed, patch.granted, b'[patch.id].attrs)
               else b' == b
  {
    if Standing(store, key, uid) {
      DecideExactly(store, owners, key, items, plan, patch, Lookup(b, patch.id));
      DecideNamesConflicts(store, owners, key, items, plan, patch, Lookup(b, patch.id), EMPTY);
    }
  }

  class RoleSyncReconciler {
    var store: Claims
    var rev: nat
    var identities: Backend
    var owners: seq<IdentityOwner>

    /** The state as a world with no run under way. */
    ghost function Idle(): World
      reads this
    {
      World(store, rev, identities, owners, map[], {})
    }

    method ReadOwnership(key: ResourceKey, uid: nat, items: seq<ResourceKey>) returns (view: Option<View>)
      requires Enumerates(items, store)
      ensures view == ViewAt(store, owners, key, uid, items)
    {
      if !Live(store, key, uid) { return None; }
      var others: seq<SyncClaim> := [];
      for n := 0 to |items|
        invariant others == OthersIn(store, items, n, key)
      {
        if items[n] != key {
          others := others + [ClaimOf(items[n], store[items[n]])];
        }
      }
      view := Some(View(ClaimOf(key, store[key]), others, owners));
    }

    method RecordRoleClaims(key: ResourceKey, uid: nat, self: SyncClaim, values: seq<Str>, ack: Ack) returns (ok: bool)
      modifies this`store, this`rev
      ensures (store, rev, ok) == Recorded(old(store), old(rev), key, uid, self, values, ack)
    {
      var same := SameRoleSet(self.managed, values);
      if same { return true; }
      if !Live(store, key, uid) { return false; }
      var current := store[key];
      var unchanged' := SameRoleSet(current.managed, self.managed);
      if !unchanged' || ack.NotApplied? { return false; }
      store := store[key := current.(managed := values, rv := rev + 1)];
      rev := rev + 1;
      ok := ack.Acked?;
    }

    method ApplyRolePatch(key: ResourceKey, uid: nat, items: seq<ResourceKey>, plan: Plan, patch: IdentityPatch,
                          io: PatchIO)
      returns (outcome: IdentityOutcome)
      requires Enumerates(items, store)
      modifies this`identities
      ensures (outcome, identities) ==
              ApplyOne(old(identities), plan, patch, ViewAt(store, owners, key, uid, items), io)
      ensures identities != old(identities) ==>
                Standing(store, key, uid) && Unchallenged(store, key, Elems(plan.managed))
      ensures outcome.kind == Conflicted <==>
              Answered(store, key, uid, io) && !Unchallenged(store, key, Elems(plan.managed))
    {
      if Standing(store, key, uid) {
        PassesIff(store, items, key, plan.managed);
        PassesMeans(store, key, Elems(plan.managed));
      }
      if io.readFault.Some? { return FailedOutcome(patch.id, [], io.readFault.value); }
      var found := Lookup(identities, patch.id);
      var attrs := if found.Some? then found.value.attrs else [];
      if io.ownershipFault.Some? { return FailedOutcome(patch.id, attrs, io.ownershipFault.value); }
      var view := ReadOwnership(key, uid, items);
      if view.None? { return FailedOutcome(patch.id, attrs, Failure); }
      var ownership := ResolveOwnership(view.value.self, plan.managed, view.value.others);
      if ownership.conflicts != [] { return IdentityOutcome(patch.id, Conflicted, attrs, None, ownership.conflicts); }
      if found.None? { return IdentityOutcome(patch.id, Deleted, attrs, None, []); }
      var owned := IdentityOwned(found.value, view.value.owners);
      if owned || found.value.externalId == EMPTY || Fold(found.value.externalId) != Fold(patch.externalId) {
        return IdentityOutcome(patch.id, Skipped, attrs, None, []);
      }
      var next := MergeAttributes(attrs, plan.managed, patch.granted);
      var same := SameRoleSet(attrs, next);
      if same { return IdentityOutcome(patch.id, Observed, attrs, None, []); }
      if io.canceled { return FailedOutcome(patch.id, attrs, Canceled); }
      if io.patchFault.None? || io.applied {
        identities := identities[patch.id := identities[patch.id].(attrs := next)];
      }
      if io.patchFault.Some? { return FailedOutcome(patch.id, attrs, io.patchFault.value); }
      return PatchedOutcome(patch, next);
    }

    method WriteRolePlan(key: ResourceKey, uid: nat, items: seq<ResourceKey>, plan: Plan, io: nat -> PatchIO,
                         canceledAfter: bool)
      returns (outcomes: seq<IdentityOutcome>)
      requires Enumerates(items, store)
      modifies this`identities
      ensures var p := WritePhase(old(identities), plan, ViewAt(store, owners, key, uid, items), io, canceledAfter);
              outcomes == p.outcomes && identities == p.backend
    {
      outcomes := [];
      ghost var view := ViewAt(store, owners, key, uid, items);
      ghost var stopped := false;
      for n := 0 to |plan.patches|
        invariant !stopped
        invariant Progress(outcomes, identities, stopped) == WriteUpTo(old(identities), plan, view, io, n)
      {
        var patch := plan.patches[n];
        if io(n).canceledBefore {
          outcomes := outcomes + [FailedOutcome(patch.id, [], Canceled)];
          StoppedStays(old(identities), plan, view, io, n + 1, |plan.patches|);
          return;
        }
        var outcome := ApplyRolePatch(key, uid, items, plan, patch, io(n));
        outcomes := outcomes + [outcome];
        if StopsWrites(outcome) {
          StoppedStays(old(identities), plan, view, io, n + 1, |plan.patches|);
          return;
        }
      }
      if canceledAfter {
        outcomes := outcomes + [FailedOutcome(EMPTY, [], Canceled)];
      }
    }

    /** runSync up to its two stops: ownership conflict and remove-all guard. */
    method PlanRun(key: ResourceKey, uid: nat, snap: Snapshot, items: seq<ResourceKey>) returns (run: Run)
      requires Enumerates(items, store)
      ensures run == PlanStep(Idle(), key, items, uid, snap)
      ensures run.Planned? || run.Finishing?
      ensures run.Planned? <==>
              && Standing(store, key, uid) && snap.scope.current != []
              && Unchallenged(store, key, Elems(snap.scope.current) + Elems(store[key].managed))
              && var input := InputFor(Idle(), key, items, snap); HasHolder(input) ==> HasGrant(input)
    {
      ghost var asked := PlanStepExactly(Idle(), key, items, uid, snap);
      var view := ReadOwnership(key, uid, items);
      if view.None? { return Finishing(uid, None); }
      var input := PlanInput(snap.scope, snap.members, snap.identities, owners, view.value.self, view.value.others,
                             snap.property);
      assert input == InputFor(Idle(), key, items, snap);
      var built := BuildPlan(input, REPORT_CAP);
      if built.None? { return Finishing(uid, None); }
      var job := Job(uid, input, built.value);
      if job.plan.ownership.conflicts == [] && !job.plan.wouldRemoveAll { return Planned(job); }
      var reason := if job.plan.ownership.conflicts != [] then Conflict else WouldRemoveAll;
      var blocked := Complete(CompletionInput(job.plan, input.self.managed, [], reason, false));
      return Finishing(uid, Some(blocked));
    }

    method WriteAndComplete(key: ResourceKey, uid: nat, items: seq<ResourceKey>, job: Job, io: nat -> PatchIO,
                            canceledAfter: bool)
      returns (completion: Completion)
      requires Enumerates(items, store)
      modifies this`identities
      ensures (identities, completion) == Written(old(identities), job, ViewAt(store, owners, key, uid, items), io,
                                                  canceledAfter)
    {
      var outcomes := WriteRolePlan(key, uid, items, job.plan, io, canceledAfter);
      completion := Complete(CompletionInput(job.plan, job.input.self.managed, outcomes, Unset, true));
    }

    /** Everything runSync does between reading ownership and returning. */
    method RunSync(key: ResourceKey, uid: nat, snap: Snapshot, items: seq<ResourceKey>,
                   record: Ack, io: nat -> PatchIO, canceledAfter: bool) returns (completion: Option<Completion>)
      requires Enumerates(items, store)
      modifies this`store, this`rev, this`identities
      ensures RunEnd(store, rev, identities, completion) ==
              RunOf(old(Idle()), key, uid, snap, items, record, io, canceledAfter)
    {
      var run := PlanRun(key, uid, snap, items);
      completion := RunOn(key, run, items, record, io, canceledAfter);
    }

    method RunOn(key: ResourceKey, run: Run, items: seq<ResourceKey>,
                 record: Ack, io: nat -> PatchIO, canceledAfter: bool) returns (completion: Option<Completion>)
      requires Enumerates(items, store) && (run.Planned? || run.Finishing?)
      modifies this`store, this`rev, this`identities
      ensures RunEnd(store, rev, identities, completion) ==
              RunOnFrom(old(Idle()), key, run, items, record, io, canceledAfter)
    {
      if run.Finishing? { return run.completion; }
      completion := RunPlanned(key, run.job, items, record, io, canceledAfter);
    }

    method RunPlanned(key: ResourceKey, job: Job, items: seq<ResourceKey>,
                      record: Ack, io: nat -> PatchIO, canceledAfter: bool) returns (completion: Option<Completion>)
      requires Enumerates(items, store)
      modifies this`store, this`rev, this`identities
      ensures RunEnd(store, rev, identities, completion) ==
              RunFrom(old(Idle()), key, job, items, record, io, canceledAfter)
    {
      ghost var before := store;
      var ok := RecordRoleClaims(key, job.uid, job.input.self, job.plan.managed, record);
      assert Enumerates(items, store) by { assert store.Keys == before.Keys; }
      if !ok { return None; }
      var done := WriteAndComplete(key, job.uid, items, job, io, canceledAfter);
      return Some(done);
    }

    /** The status is read again and its managed values overwritten, if it is
        still the same live instance. */
    method PersistSyncResult(key: ResourceKey, uid: nat, completion: Option<Completion>, ack: Ack) returns (ok: bool)
      modifies this`store, this`rev
      ensures (store, rev, ok) == StatusWritten(old(store), old(rev), key, uid, completion, ack)
    {
      if !Live(store, key, uid) || ack.NotApplied? { return false; }
      var current := store[key];
      if completion.Some? { current := current.(managed := completion.value.managed); }
      store := store[key := current.(rv := rev + 1)];
      rev := rev + 1;
      ok := ack.Acked?;
    }

    /** Reconcile: the run, then its status write whatever the run came to. */
    method Reconcile(t: Turn) returns (ok: bool)
      requires Enumerates(t.items, store)
      modifies this`store, this`rev, this`identities
      ensures Idle() == ReconcileOf(old(Idle()), t)
    {
      var completion := RunSync(t.key, t.uid, t.snap, t.items, t.record, t.io, t.canceledAfter);
      ok := PersistSyncResult(t.key, t.uid, completion, t.persist);
    }
  }
}
