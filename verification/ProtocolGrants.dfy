/** No grant is forgotten: over every behaviour in which only this controller
    writes role sync status, a value that a sync put on an identity, and that the
    identity has held ever since, is still among the sync's recorded values. */
module ProtocolGrants {
  import opened Text
  import opened SortedSets
  import opened Ownership
  import opened Planner
  import opened PlanProperties
  import opened Retirement
  import opened Writes
  import opened Store
  import opened Protocol
  import opened ProtocolShape
  import opened ProtocolHistory

  predicate Belongs(p: Placement, k: ResourceKey, uid: nat) {
    p.key == k && p.uid == uid
  }

  /** The instance that run `uid` of sync `k` serves is still stored. */
  predicate Stands(store: Claims, k: ResourceKey, uid: nat) {
    k in store && store[k].uid == uid
  }

  ghost predicate Records(store: Claims, k: ResourceKey, uid: nat, values: set<Str>) {
    Stands(store, k, uid) ==> Elems(store[k].managed) == values
  }

  ghost predicate Seen(ids: seq<Identity>, p: Placement) {
    exists i | 0 <= i < |ids| :: ids[i].id == p.id && p.value in ids[i].attrs
  }

  /** Every retired value the run's sync placed sits on an identity that the
      completion, as things stand, still counts as unclean. */
  ghost predicate Covered(placed: set<Placement>, k: ResourceKey, job: Job, outcomes: seq<IdentityOutcome>) {
    forall p | p in placed && Belongs(p, k, job.uid) && p.value in Retired(job.input) ::
      p.id in Unclean(job.plan.holders, Retired(job.input), outcomes, |outcomes|)
  }

  /** Forgetting all but `values` forgets nothing placed. */
  ghost predicate Kept(store: Claims, placed: set<Placement>, k: ResourceKey, uid: nat, values: set<Str>) {
    Stands(store, k, uid) ==>
      values <= Elems(store[k].managed) && forall p | p in placed && Belongs(p, k, uid) :: p.value in values
  }

  ghost predicate RunOk(store: Claims, placed: set<Placement>, k: ResourceKey, run: Run) {
    match run
    case Started(_) => true
    case Listed(uid, snap) => forall p | p in placed && Belongs(p, k, uid) :: Seen(snap.identities, p)
    case Planned(job) => Records(store, k, job.uid, Elems(job.input.self.managed)) && Covered(placed, k, job, [])
    case Recording(job, _) => Records(store, k, job.uid, Elems(job.input.self.managed)) && Covered(placed, k, job, [])
    case Writing(job, outcomes) => Records(store, k, job.uid, Managed(job.input)) && Covered(placed, k, job, outcomes)
    case Fetched(job, outcomes, found) =>
      && Records(store, k, job.uid, Managed(job.input)) && Covered(placed, k, job, outcomes)
      && |outcomes| < |job.plan.patches|
      && forall p | p in placed && Belongs(p, k, job.uid) && p.id == NextPatch(job, outcomes).id ::
           found.Some? && p.value in found.value.attrs
    case Sending(job, outcomes, _, _, _) =>
      Records(store, k, job.uid, Managed(job.input)) && Covered(placed, k, job, outcomes)
    case Finishing(uid, completion) => completion.Some? ==> Kept(store, placed, k, uid, Elems(completion.value.managed))
    case Persisting(uid, completion, _) =>
      completion.Some? ==> Kept(store, placed, k, uid, Elems(completion.value.managed))
  }

  ghost predicate Recorded(store: Claims, placed: set<Placement>) {
    forall p | p in placed && Stands(store, p.key, p.uid) :: p.value in store[p.key].managed
  }

  ghost predicate Grants(w: World) {
    && (forall p | p in w.placed :: p.uid <= w.rev && Held(p, w.backend))
    && Recorded(w.store, w.placed)
    && (forall k | k in w.runs :: RunOk(w.store, w.placed, k, w.runs[k]))
  }

  // ---- Interference ----

  /** From `k`'s view a step of anyone else leaves its instance's claims alone,
      or removes or replaces the instance, and places nothing in its name. */
  ghost predicate Rely(k: ResourceKey, w: World, w': World) {
    && (k in w'.store ==>
          || (k in w.store && w'.store[k].uid == w.store[k].uid && w'.store[k].managed == w.store[k].managed)
          || w'.store[k].uid > w.rev)
    && (forall p | p in w'.placed && p.key == k :: p in w.placed)
  }

  lemma RunStable(w: World, w': World, k: ResourceKey, run: Run)
    requires RunOk(w.store, w.placed, k, run) && Rely(k, w, w') && UidOf(run) <= w.rev
    ensures RunOk(w'.store, w'.placed, k, run)
  {}

  // ---- Completing a run ----

  lemma CompletedOk(w: World, k: ResourceKey, job: Job, outcomes: seq<IdentityOutcome>)
    requires Recorded(w.store, w.placed) && JobOk(k, job)
    requires Records(w.store, k, job.uid, Managed(job.input)) && Covered(w.placed, k, job, outcomes)
    ensures RunOk(w.store, w.placed, k, Completed(job, outcomes))
  {
    var c := Completed(job, outcomes).completion.value;
    assert Elems(job.plan.managed) == Managed(job.input);
    if Stands(w.store, k, job.uid) {
      forall p | p in w.placed && Belongs(p, k, job.uid) ensures p.value in Elems(c.managed) {
        assert p.value in Elems(w.store[k].managed);
        if c.ready && p.value in Retired(job.input) {
          assert p.id in Unclean(job.plan.holders, Retired(job.input), outcomes, |outcomes|);
          assert RetiredBy(job.plan, job.input.self.managed) == Retired(job.input);
        }
      }
    }
  }

  /** A failure leaves the count of unclean identities as it was. */
  lemma FailureCovered(placed: set<Placement>, k: ResourceKey, job: Job, outcomes: seq<IdentityOutcome>,
                       o: IdentityOutcome)
    requires Covered(placed, k, job, outcomes) && (o.kind.Failed? || o.kind.Conflicted?)
    ensures Covered(placed, k, job, outcomes + [o])
  {
    UncleanAppend(job.plan.holders, Retired(job.input), outcomes, o);
  }

  lemma UncleanAppend(holders: seq<RetirementHolder>, retired: set<Str>, outcomes: seq<IdentityOutcome>,
                      o: IdentityOutcome)
    ensures forall id :: id in Unclean(holders, retired, outcomes, |outcomes|) && id != o.id ==>
                         id in Unclean(holders, retired, outcomes + [o], |outcomes| + 1)
    ensures o.kind.Failed? || o.kind.Conflicted? ==>
              Unclean(holders, retired, outcomes + [o], |outcomes| + 1) ==
                Unclean(holders, retired, outcomes, |outcomes|)
    ensures !o.kind.Failed? && !o.kind.Conflicted? && !o.kind.Deleted? && Elems(o.attrs) * retired != {} ==>
              o.id in Unclean(holders, retired, outcomes + [o], |outcomes| + 1)
  {
    UncleanPrefix(holders, retired, outcomes, [o], |outcomes|);
  }

  lemma {:induction false} UncleanPrefix(holders: seq<RetirementHolder>, retired: set<Str>,
                                         outcomes: seq<IdentityOutcome>, more: seq<IdentityOutcome>, n: nat)
    requires n <= |outcomes|
    ensures Unclean(holders, retired, outcomes + more, n) == Unclean(holders, retired, outcomes, n)
  {
    if n > 0 { UncleanPrefix(holders, retired, outcomes, more, n - 1); }
  }

  /** A fresh read that shows every placement still held, and drops its identity
      from the unclean ones only when it shows no retired value. */
  lemma ReadCovered(placed: set<Placement>, k: ResourceKey, job: Job, outcomes: seq<IdentityOutcome>,
                    found: Option<Identity>, o: IdentityOutcome)
    requires Covered(placed, k, job, outcomes)
    requires forall p | p in placed && Belongs(p, k, job.uid) && p.id == o.id ::
               found.Some? && p.value in found.value.attrs
    requires found.None? ==> o.kind.Deleted?
    requires found.Some? ==> o.attrs == found.value.attrs && !o.kind.Deleted?
    ensures Covered(placed, k, job, outcomes + [o])
  {
    UncleanAppend(job.plan.holders, Retired(job.input), outcomes, o);
    if o.kind.Failed? || o.kind.Conflicted? {
      FailureCovered(placed, k, job, outcomes, o);
    } else {
      forall p | p in placed && Belongs(p, k, job.uid) && p.value in Retired(job.input)
        ensures p.id in Unclean(job.plan.holders, Retired(job.input), outcomes + [o], |outcomes| + 1)
      {
        if p.id == o.id {
          assert p.value in Elems(o.attrs) * Retired(job.input);
        }
      }
    }
  }

  lemma AfterOutcomeOk(w: World, k: ResourceKey, job: Job, outcomes: seq<IdentityOutcome>, o: IdentityOutcome)
    requires Recorded(w.store, w.placed) && JobOk(k, job)
    requires Records(w.store, k, job.uid, Managed(job.input)) && Covered(w.placed, k, job, outcomes + [o])
    ensures RunOk(w.store, w.placed, k, AfterOutcome(job, outcomes, o))
  {
    if StopsWrites(o) { CompletedOk(w, k, job, outcomes + [o]); }
  }

  // ---- Own steps that write nothing ----

  lemma ListOk(w: World, k: ResourceKey, uid: nat, snap: Snapshot)
    requires Grants(w) && ListingOf(snap.identities, w.backend)
    ensures RunOk(w.store, w.placed, k, Listed(uid, snap))
  {
    forall p | p in w.placed && Belongs(p, k, uid) ensures Seen(snap.identities, p) {
      assert Held(p, w.backend);
      var i :| 0 <= i < |snap.identities| && snap.identities[i].id == p.id;
    }
  }

  lemma PlannedCovered(placed: set<Placement>, k: ResourceKey, job: Job)
    requires job.plan == PlanOf(job.input, REPORT_CAP)
    requires forall p | p in placed && Belongs(p, k, job.uid) :: Seen(job.input.identities, p)
    ensures Covered(placed, k, job, [])
  {
    forall p | p in placed && Belongs(p, k, job.uid) && p.value in Retired(job.input)
      ensures p.id in HolderIds(job.plan.holders)
    {
      HoldersAreExact(job.input, |job.input.identities|, p.id);
      var i :| 0 <= i < |job.input.identities| && job.input.identities[i].id == p.id
        && p.value in job.input.identities[i].attrs;
      assert p.value in Elems(job.input.identities[i].attrs) * Retired(job.input);
    }
  }

  lemma PlanStepOk(w: World, k: ResourceKey, items: seq<ResourceKey>, uid: nat, snap: Snapshot)
    requires Grants(w) && Enumerates(items, w.store)
    requires RunOk(w.store, w.placed, k, Listed(uid, snap))
    ensures RunOk(w.store, w.placed, k, PlanStep(w, k, items, uid, snap))
  {
    if Live(w.store, k, uid) && snap.scope.current != [] {
      var input := InputFor(w, k, items, snap);
      var job := Job(uid, input, PlanOf(input, REPORT_CAP));
      PlannedCovered(w.placed, k, job);
    }
  }

  lemma AuthorizeOk(w: World, k: ResourceKey, items: seq<ResourceKey>, fault: Option<Fault>, canceled: bool, run: Run)
    requires Recorded(w.store, w.placed) && Enumerates(items, w.store)
    requires run.Fetched? && ShapeOk(w.store, w.rev, k, run) && RunOk(w.store, w.placed, k, run)
    ensures RunOk(w.store, w.placed, k, AuthorizeStep(w, k, items, fault, canceled, run.job, run.outcomes, run.found))
  {
    var job, outcomes := run.job, run.outcomes;
    var patch := NextPatch(job, outcomes);
    var attrs := if run.found.Some? then run.found.value.attrs else [];
    if fault.Some? {
      ReportOk(w, k, run, FailedOutcome(patch.id, attrs, fault.value));
    } else if !Live(w.store, k, job.uid) {
      ReportOk(w, k, run, FailedOutcome(patch.id, attrs, Failure));
    } else {
      match Decide(job.plan, patch, run.found, ViewOf(w, k, items))
      case Report(o) => ReportOk(w, k, run, o);
      case Send(next) => if canceled { ReportOk(w, k, run, FailedOutcome(patch.id, attrs, Canceled)); }
    }
  }

  lemma ReportOk(w: World, k: ResourceKey, run: Run, o: IdentityOutcome)
    requires Recorded(w.store, w.placed)
    requires run.Fetched? && JobOk(k, run.job) && RunOk(w.store, w.placed, k, run)
    requires o.id == NextPatch(run.job, run.outcomes).id
    requires || o.kind.Failed? || o.kind.Conflicted?
             || (run.found.None? && o.kind.Deleted?)
             || (run.found.Some? && o.attrs == run.found.value.attrs && !o.kind.Deleted?)
    ensures RunOk(w.store, w.placed, k, AfterOutcome(run.job, run.outcomes, o))
  {
    if o.kind.Failed? || o.kind.Conflicted? {
      FailureCovered(w.placed, k, run.job, run.outcomes, o);
    } else {
      ReadCovered(w.placed, k, run.job, run.outcomes, run.found, o);
    }
    AfterOutcomeOk(w, k, run.job, run.outcomes, o);
  }

  lemma FetchOk(w: World, k: ResourceKey, run: Run, fault: Option<Fault>)
    requires Grants(w) && StepEnabled(w, k, run, Fetch(fault))
    requires ShapeOk(w.store, w.rev, k, run) && RunOk(w.store, w.placed, k, run)
    ensures RunOk(w.store, w.placed, k, NextRun(w, k, run, Fetch(fault)).value)
  {
    if fault.Some? {
      var o := FailedOutcome(NextPatch(run.job, run.outcomes).id, [], fault.value);
      FailureCovered(w.placed, k, run.job, run.outcomes, o);
      AfterOutcomeOk(w, k, run.job, run.outcomes, o);
    } else {
      assert forall p | p in w.placed :: Held(p, w.backend);
    }
  }

  lemma EndOk(w: World, k: ResourceKey, run: Run, step: Step)
    requires Grants(w) && StepEnabled(w, k, run, step) && (step.CancelWrites? || step.EndWrites?)
    requires ShapeOk(w.store, w.rev, k, run) && RunOk(w.store, w.placed, k, run)
    ensures RunOk(w.store, w.placed, k, NextRun(w, k, run, step).value)
  {
    var job, outcomes := run.job, run.outcomes;
    if step.CancelWrites? {
      var o := FailedOutcome(NextPatch(job, outcomes).id, [], Canceled);
      FailureCovered(w.placed, k, job, outcomes, o);
      CompletedOk(w, k, job, outcomes + [o]);
    } else if step.canceled {
      FailureCovered(w.placed, k, job, outcomes, FailedOutcome(EMPTY, [], Canceled));
      CompletedOk(w, k, job, outcomes + [FailedOutcome(EMPTY, [], Canceled)]);
    } else {
      CompletedOk(w, k, job, outcomes);
    }
  }

  lemma ReadRunOk(w: World, k: ResourceKey, run: Run, step: Step)
    requires StepEnabled(w, k, run, step) && (step.SkipRecord? || step.ReadToRecord? || step.ReadToPersist?)
    requires ShapeOk(w.store, w.rev, k, run) && RunOk(w.store, w.placed, k, run)
    ensures NextRun(w, k, run, step).Some? ==> RunOk(w.store, w.placed, k, NextRun(w, k, run, step).value)
  {
    if step.SkipRecord? {
      assert Elems(run.job.plan.managed) == Managed(run.job.input);
    }
  }

  ghost predicate TakesEffect(step: Step) {
    (step.Record? || step.Persist? || step.Patch?) && !step.ack.NotApplied?
  }

  lemma QuietStepOk(w: World, k: ResourceKey, run: Run, step: Step)
    requires Grants(w) && StepEnabled(w, k, run, step) && !TakesEffect(step)
    requires ShapeOk(w.store, w.rev, k, run) && RunOk(w.store, w.placed, k, run)
    ensures NextRun(w, k, run, step).Some? ==> RunOk(w.store, w.placed, k, NextRun(w, k, run, step).value)
  {
    match step
    case List(snap) => ListOk(w, k, run.uid, snap);
    case Abort =>
    case MakePlan(items) => PlanStepOk(w, k, items, run.uid, run.snap);
    case SkipRecord => ReadRunOk(w, k, run, step);
    case ReadToRecord => ReadRunOk(w, k, run, step);
    case Record(ack) =>
    case CancelWrites => EndOk(w, k, run, step);
    case Fetch(fault) => FetchOk(w, k, run, fault);
    case Authorize(items, fault, canceled) => AuthorizeOk(w, k, items, fault, canceled, run);
    case Patch(ack, error) =>
      var o := FailedOutcome(NextPatch(run.job, run.outcomes).id, run.target.attrs, error);
      FailureCovered(w.placed, k, run.job, run.outcomes, o);
      AfterOutcomeOk(w, k, run.job, run.outcomes, o);
    case EndWrites(_) => EndOk(w, k, run, step);
    case ReadToPersist => ReadRunOk(w, k, run, step);
    case Persist(_) =>
    case Crash =>
  }

  // ---- Own steps that write ----

  lemma RecordOk(w: World, k: ResourceKey, run: Run, ack: Ack)
    requires Grants(w) && StepEnabled(w, k, run, Record(ack)) && !ack.NotApplied?
    requires ShapeOk(w.store, w.rev, k, run) && RunOk(w.store, w.placed, k, run)
    ensures var w' := Effect(w, k, run, Record(ack));
            Recorded(w'.store, w'.placed) && RunOk(w'.store, w'.placed, k, NextRun(w, k, run, Record(ack)).value)
  {
    var w' := Effect(w, k, run, Record(ack));
    assert Elems(run.job.plan.managed) == Managed(run.job.input);
    assert w.store[k] == run.read;
    forall p | p in w'.placed && Stands(w'.store, p.key, p.uid) ensures p.value in w'.store[p.key].managed {
      assert Stands(w.store, p.key, p.uid);
      if p.key == k { assert p.value in Elems(run.job.plan.managed); }
    }
    assert forall p | p in w'.placed :: p in w.placed;
  }

  lemma PersistOk(w: World, k: ResourceKey, run: Run, ack: Ack)
    requires Grants(w) && StepEnabled(w, k, run, Persist(ack)) && !ack.NotApplied?
    requires ShapeOk(w.store, w.rev, k, run) && RunOk(w.store, w.placed, k, run)
    ensures var w' := Effect(w, k, run, Persist(ack)); Recorded(w'.store, w'.placed)
  {
    var w' := Effect(w, k, run, Persist(ack));
    assert w.store[k] == run.read;
    forall p | p in w'.placed && Stands(w'.store, p.key, p.uid) ensures p.value in w'.store[p.key].managed {
      assert Stands(w.store, p.key, p.uid);
      if p.key == k && run.completion.Some? { assert p.value in Elems(run.completion.value.managed); }
    }
  }

  /** What the applied list leaves of the run's placements on the identity. */
  lemma NextIsClean(job: Job, outcomes: seq<IdentityOutcome>, target: Identity, view: View, next: seq<Str>)
    requires job.plan == PlanOf(job.input, REPORT_CAP) && |outcomes| < |job.plan.patches|
    requires Decide(job.plan, NextPatch(job, outcomes), Some(target), view) == Send(next)
    ensures Elems(next) * Retired(job.input) == {}
    ensures Elems(NextPatch(job, outcomes).granted) <= Elems(next)
    ensures Elems(NextPatch(job, outcomes).granted) <= Managed(job.input) - Retired(job.input)
  {
    var i := PlannedGrants(job.input, REPORT_CAP, |outcomes|);
    MergeFrame(target.attrs, Managed(job.input), Elems(NextPatch(job, outcomes).granted));
    assert Retired(job.input) <= Managed(job.input);
  }

  lemma PatchOk(w: World, k: ResourceKey, run: Run, ack: Ack, error: Fault)
    requires Grants(w) && StepEnabled(w, k, run, Patch(ack, error)) && !ack.NotApplied?
    requires ShapeOk(w.store, w.rev, k, run) && RunOk(w.store, w.placed, k, run)
    ensures var w' := Effect(w, k, run, Patch(ack, error));
            && Recorded(w'.store, w'.placed)
            && (forall p | p in w'.placed :: p.uid <= w'.rev && Held(p, w'.backend))
            && (forall p | p in w'.placed && p.id == NextPatch(run.job, run.outcomes).id :: p.value in Elems(run.next))
            && (forall p | p in w'.placed && p !in w.placed ::
                Belongs(p, k, run.job.uid) && p.value in Managed(run.job.input) - Retired(run.job.input))
  {
    NextIsClean(run.job, run.outcomes, run.target, run.view, run.next);
    var w' := Effect(w, k, run, Patch(ack, error));
    var patch := NextPatch(run.job, run.outcomes);
    forall p | p in Granting(k, run.job, patch)
      ensures p.uid <= w'.rev && Held(p, w'.backend) && p.id == patch.id && Belongs(p, k, run.job.uid)
      ensures p.value in Managed(run.job.input) - Retired(run.job.input)
    {
      assert p.value in Elems(patch.granted);
    }
    forall p | p in w'.placed && Stands(w'.store, p.key, p.uid) ensures p.value in w'.store[p.key].managed {
      if p in Granting(k, run.job, patch) {
        assert p.value in Elems(w.store[k].managed);
      }
    }
  }

  lemma PatchCovered(placed: set<Placement>, placed': set<Placement>, k: ResourceKey, job: Job,
                     outcomes: seq<IdentityOutcome>, o: IdentityOutcome, next: seq<Str>)
    requires Covered(placed, k, job, outcomes) && Elems(next) * Retired(job.input) == {}
    requires forall p | p in placed' && p !in placed :: p.value !in Retired(job.input)
    requires forall p | p in placed' && p.id == o.id :: p.value in Elems(next)
    ensures Covered(placed', k, job, outcomes + [o])
  {
    UncleanAppend(job.plan.holders, Retired(job.input), outcomes, o);
    forall p | p in placed' && Belongs(p, k, job.uid) && p.value in Retired(job.input)
      ensures p.id in Unclean(job.plan.holders, Retired(job.input), outcomes + [o], |outcomes| + 1)
    {
      assert p.value in Elems(next) ==> p.value in Elems(next) * Retired(job.input);
    }
  }

  lemma PatchRunOk(w: World, k: ResourceKey, run: Run, ack: Ack, error: Fault)
    requires Grants(w) && StepEnabled(w, k, run, Patch(ack, error)) && !ack.NotApplied?
    requires ShapeOk(w.store, w.rev, k, run) && RunOk(w.store, w.placed, k, run)
    ensures var w' := Effect(w, k, run, Patch(ack, error));
            RunOk(w'.store, w'.placed, k, NextRun(w, k, run, Patch(ack, error)).value)
  {
    PatchOk(w, k, run, ack, error);
    NextIsClean(run.job, run.outcomes, run.target, run.view, run.next);
    var w' := Effect(w, k, run, Patch(ack, error));
    var patch := NextPatch(run.job, run.outcomes);
    var o := if ack.Acked? then PatchedOutcome(patch, run.next) else FailedOutcome(patch.id, run.target.attrs, error);
    PatchCovered(w.placed, w'.placed, k, run.job, run.outcomes, o, run.next);
    AfterOutcomeOk(w', k, run.job, run.outcomes, o);
  }

  // ---- All steps ----

  lemma EffectRely(w: World, k: ResourceKey, run: Run, step: Step, j: ResourceKey)
    requires StepEnabled(w, k, run, step) && j != k
    ensures Rely(j, w, Effect(w, k, run, step))
  {}

  lemma EventRely(w: World, e: Event, j: ResourceKey)
    requires EventEnabled(w, e) && !e.EditStatus?
    ensures Rely(j, w, AfterEvent(w, e))
  {}

  lemma EventGrants(w: World, e: Event)
    requires Grants(w) && Shape(w) && EventEnabled(w, e) && !e.EditStatus?
    ensures Grants(AfterEvent(w, e))
  {
    var w' := AfterEvent(w, e);
    forall k | k in w'.runs ensures RunOk(w'.store, w'.placed, k, w'.runs[k]) {
      EventRely(w, e, k);
      assert ShapeOk(w.store, w.rev, k, w.runs[k]);
      RunStable(w, w', k, w.runs[k]);
    }
    forall p | p in w'.placed && Stands(w'.store, p.key, p.uid) ensures p.value in w'.store[p.key].managed {
      EventRely(w, e, p.key);
    }
  }

  lemma OwnStepGrants(w: World, k: ResourceKey, step: Step)
    requires Grants(w) && Shape(w) && k in w.runs && StepEnabled(w, k, w.runs[k], step)
    ensures var w', run' := Effect(w, k, w.runs[k], step), NextRun(w, k, w.runs[k], step);
            && (forall p | p in w'.placed :: p.uid <= w'.rev && Held(p, w'.backend))
            && Recorded(w'.store, w'.placed)
            && (run'.Some? ==> RunOk(w'.store, w'.placed, k, run'.value))
  {
    var run := w.runs[k];
    assert ShapeOk(w.store, w.rev, k, run) && RunOk(w.store, w.placed, k, run);
    if !TakesEffect(step) {
      QuietStepOk(w, k, run, step);
    } else if step.Record? {
      RecordOk(w, k, run, step.ack);
    } else if step.Persist? {
      PersistOk(w, k, run, step.ack);
    } else {
      PatchOk(w, k, run, step.ack, step.error);
      PatchRunOk(w, k, run, step.ack, step.error);
    }
  }

  lemma GrantsStep(w: World, a: Action)
    requires Grants(w) && Shape(w) && Enabled(w, a)
    requires a.Outside? ==> !a.event.EditStatus?
    ensures Grants(Next(w, a))
  {
    match a
    case Begin(key, uid) =>
    case Outside(event) => EventGrants(w, event);
    case Sync(key, step) =>
      OwnStepGrants(w, key, step);
      var w', effect := Next(w, a), Effect(w, key, w.runs[key], step);
      forall j | j in w'.runs && j != key ensures RunOk(w'.store, w'.placed, j, w'.runs[j]) {
        EffectRely(w, key, w.runs[key], step, j);
        assert ShapeOk(w.store, w.rev, j, w.runs[j]);
        RunStable(w, effect, j, w.runs[j]);
      }
  }

  // ---- Behaviours ----

  /** Role sync status is written by this controller only. */
  ghost predicate StatusIsOurs(actions: seq<Action>) {
    forall i | 0 <= i < |actions| && actions[i].Outside? :: !actions[i].event.EditStatus?
  }

  lemma {:induction false} GrantsAlways(ws: seq<World>, actions: seq<Action>, i: nat)
    requires Behavior(ws, actions) && StatusIsOurs(actions) && i < |ws|
    ensures Shape(ws[i]) && Grants(ws[i])
  {
    ShapeAlways(ws, actions, i);
    if i > 0 {
      GrantsAlways(ws, actions, i - 1);
      GrantsStep(ws[i - 1], actions[i - 1]);
    }
  }

  /** Action `a` is a PATCH of sync `p.key`, as instance `p.uid`, that takes
      effect and grants `p.value` to identity `p.id`. */
  ghost predicate Places(w: World, a: Action, p: Placement)
    requires Enabled(w, a)
  {
    && a.Sync? && a.key == p.key && a.step.Patch? && !a.step.ack.NotApplied?
    && var run := w.runs[p.key];
       run.job.uid == p.uid && NextPatch(run.job, run.outcomes).id == p.id
         && p.value in NextPatch(run.job, run.outcomes).granted
  }

  lemma PlacedAtOnce(w: World, a: Action, p: Placement)
    requires Enabled(w, a) && Places(w, a, p)
    ensures p in Next(w, a).placed
  {
    var run := w.runs[p.key];
    assert p in Granting(p.key, run.job, NextPatch(run.job, run.outcomes));
  }

  lemma {:induction false} StaysPlaced(ws: seq<World>, actions: seq<Action>, i: nat, j: nat, p: Placement)
    requires Behavior(ws, actions) && i < j < |ws|
    requires Places(ws[i], actions[i], p)
    requires forall m | i < m <= j :: Held(p, ws[m].backend)
    ensures p in ws[j].placed
  {
    if j > i + 1 {
      StaysPlaced(ws, actions, i, j - 1, p);
      assert Held(p, ws[j].backend) && ws[j] == Next(ws[j - 1], actions[j - 1]);
      KeepsPlacement(ws[j - 1], actions[j - 1], p);
    } else {
      PlacedAtOnce(ws[i], actions[i], p);
    }
  }

  lemma KeepsPlacement(w: World, a: Action, p: Placement)
    requires Enabled(w, a) && p in w.placed && Held(p, Next(w, a).backend)
    ensures p in Next(w, a).placed
  {}

  /** No forgotten grants. Over every behaviour (directory, identity and
      resource changes, concurrent syncs, crashes, and PATCHes and status writes
      that fail with or without effect): a value that a sync granted to an
      identity, and that the identity has held ever since, is still recorded in
      the sync's status as long as that instance exists. */
  lemma NoForgottenGrants(ws: seq<World>, actions: seq<Action>, i: nat, j: nat, p: Placement)
    requires Behavior(ws, actions) && StatusIsOurs(actions) && i < j < |ws|
    requires Places(ws[i], actions[i], p)
    requires forall m | i < m <= j :: Held(p, ws[m].backend)
    requires p.key in ws[j].store && ws[j].store[p.key].uid == p.uid
    ensures p.value in ws[j].store[p.key].managed
  {
    StaysPlaced(ws, actions, i, j, p);
    GrantsAlways(ws, actions, j);
    assert Stands(ws[j].store, p.key, p.uid);
  }

  /** In every interleaving, two PATCHes of different syncs that were authorized
      against the same recorded claims have no managed value in common. */
  lemma AuthorizedTogether(ws: seq<World>, actions: seq<Action>, i: nat, i': nat, j: ResourceKey, k: ResourceKey)
    returns (n: nat, n': nat)
    requires Behavior(ws, actions) && StatusIsOurs(actions) && i < |ws| && i' < |ws| && j != k
    requires j in ws[i].runs && ws[i].runs[j].Sending? && PatchesLeft(ws[i].runs[j])
    requires k in ws[i'].runs && ws[i'].runs[k].Sending? && PatchesLeft(ws[i'].runs[k])
    ensures n < i && AuthorizedAt(ws, actions, n, j, ws[i].runs[j])
    ensures n' < i' && AuthorizedAt(ws, actions, n', k, ws[i'].runs[k])
    ensures ws[n].store == ws[n'].store ==> Managed(ws[i].runs[j].job.input) !! Managed(ws[i'].runs[k].job.input)
  {
    var m, m';
    m, n := PatchWasUnchallenged(ws, actions, i, j, ws[i].runs[j]);
    m', n' := PatchWasUnchallenged(ws, actions, i', k, ws[i'].runs[k]);
    RecordedWhenFetched(ws, actions, n, j);
    RecordedWhenFetched(ws, actions, n', k);
    if ws[n].store == ws[n'].store {
      var mj, mk := Managed(ws[i].runs[j].job.input), Managed(ws[i'].runs[k].job.input);
      PassesMeans(ws[n].store, j, mj);
      PassesMeans(ws[n'].store, k, mk);
      AtMostOnePasses(ws[n].store, j, k, mj, mk);
    }
  }

  lemma RecordedWhenFetched(ws: seq<World>, actions: seq<Action>, n: nat, k: ResourceKey)
    requires Behavior(ws, actions) && StatusIsOurs(actions) && n < |ws|
    requires k in ws[n].runs && ws[n].runs[k].Fetched? && Live(ws[n].store, k, ws[n].runs[k].job.uid)
    ensures Elems(ws[n].store[k].managed) == Managed(ws[n].runs[k].job.input)
  {
    GrantsAlways(ws, actions, n);
    assert RunOk(ws[n].store, ws[n].placed, k, ws[n].runs[k]);
    assert Stands(ws[n].store, k, ws[n].runs[k].job.uid);
  }
}
