/** What holds at every step of every interleaving, outside status edits
    included: each run stays tied to the plan it made, the instance it read and
    the version it will overwrite. */
module ProtocolShape {
  import opened Text
  import opened SortedSets
  import opened Ownership
  import opened Planner
  import opened PlanProperties
  import opened Retirement
  import opened Writes
  import opened Store
  import opened Protocol

  ghost predicate JobOk(k: ResourceKey, job: Job) {
    && job.plan == PlanOf(job.input, REPORT_CAP)
    && job.plan.ownership.conflicts == [] && !job.plan.wouldRemoveAll
    && DistinctIds(job.input.identities)
    && job.input.self.resource == k
  }

  /** Every outcome so far answers its patch. */
  ghost predicate Answered(job: Job, outcomes: seq<IdentityOutcome>) {
    && |outcomes| <= |job.plan.patches|
    && forall n | 0 <= n < |outcomes| :: Answers(job.plan, job.plan.patches[n], outcomes[n])
  }

  ghost predicate Unanswered(job: Job, outcomes: seq<IdentityOutcome>) {
    Answered(job, outcomes) && |outcomes| < |job.plan.patches|
  }

  /** The version read is the instance's, and is stored only as it was read. */
  ghost predicate ReadOk(store: Claims, rev: nat, k: ResourceKey, uid: nat, read: Stored) {
    && read.uid == uid && !read.deleting && read.rv <= rev
    && (k in store && store[k].rv == read.rv ==> store[k] == read)
  }

  ghost predicate ShapeOk(store: Claims, rev: nat, k: ResourceKey, run: Run) {
    UidOf(run) <= rev &&
    match run
    case Started(_) => true
    case Listed(_, snap) => DistinctIds(snap.identities)
    case Planned(job) => JobOk(k, job)
    case Recording(job, read) => JobOk(k, job) && ReadOk(store, rev, k, job.uid, read) &&
      Elems(read.managed) == Elems(job.input.self.managed)
    case Writing(job, outcomes) => JobOk(k, job) && Answered(job, outcomes)
    case Fetched(job, outcomes, found) => JobOk(k, job) && Unanswered(job, outcomes) &&
      (found.Some? ==> found.value.id == NextPatch(job, outcomes).id)
    case Sending(job, outcomes, target, view, next) => JobOk(k, job) && Unanswered(job, outcomes) &&
      target.id == NextPatch(job, outcomes).id &&
      Decide(job.plan, NextPatch(job, outcomes), Some(target), view) == Send(next)
    case Finishing(_, _) => true
    case Persisting(uid, _, read) => ReadOk(store, rev, k, uid, read)
  }

  ghost predicate StoreOk(store: Claims, rev: nat) {
    forall k | k in store :: store[k].uid <= rev && store[k].rv <= rev
  }

  ghost predicate Shape(w: World) {
    && StoreOk(w.store, w.rev)
    && ValidBackend(w.backend)
    && (forall k | k in w.runs :: ShapeOk(w.store, w.rev, k, w.runs[k]))
  }

  // ---- Preservation ----

  /** Stored resources change only under a new version. */
  ghost predicate Versioned(store: Claims, rev: nat, store': Claims, rev': nat) {
    rev <= rev' && forall k | k in store' :: (k in store && store'[k] == store[k]) || rev < store'[k].rv
  }

  lemma EventIsVersioned(w: World, e: Event)
    requires StoreOk(w.store, w.rev) && ValidBackend(w.backend) && EventEnabled(w, e)
    ensures var w' := AfterEvent(w, e);
            Versioned(w.store, w.rev, w'.store, w'.rev) && StoreOk(w'.store, w'.rev) && ValidBackend(w'.backend)
  {}

  lemma ReadIsBounded(w: World, key: ResourceKey, run: Run)
    requires ShapeOk(w.store, w.rev, key, run) && (run.Recording? || run.Persisting?)
    ensures run.read.uid <= w.rev
  {}

  lemma EffectIsVersioned(w: World, key: ResourceKey, run: Run, step: Step)
    requires StoreOk(w.store, w.rev) && ValidBackend(w.backend) && StepEnabled(w, key, run, step)
    requires run.Recording? || run.Persisting? ==> run.read.uid <= w.rev
    ensures var w' := Effect(w, key, run, step);
            Versioned(w.store, w.rev, w'.store, w'.rev) && StoreOk(w'.store, w'.rev) && ValidBackend(w'.backend)
  {}

  lemma ShapeStable(store: Claims, rev: nat, store': Claims, rev': nat, k: ResourceKey, run: Run)
    requires ShapeOk(store, rev, k, run) && Versioned(store, rev, store', rev')
    ensures ShapeOk(store', rev', k, run)
  {}

  lemma AfterOutcomeShape(store: Claims, rev: nat, k: ResourceKey, job: Job, outcomes: seq<IdentityOutcome>,
                          o: IdentityOutcome)
    requires JobOk(k, job) && Unanswered(job, outcomes) && job.uid <= rev
    requires Answers(job.plan, NextPatch(job, outcomes), o)
    ensures ShapeOk(store, rev, k, AfterOutcome(job, outcomes, o))
  {
    AnsweredAppend(job, outcomes, o);
  }

  lemma AnsweredAppend(job: Job, outcomes: seq<IdentityOutcome>, o: IdentityOutcome)
    requires Unanswered(job, outcomes) && Answers(job.plan, NextPatch(job, outcomes), o)
    ensures Answered(job, outcomes + [o])
  {
    var all := outcomes + [o];
    forall n | 0 <= n < |all| ensures Answers(job.plan, job.plan.patches[n], all[n]) {
      if n < |outcomes| { assert all[n] == outcomes[n]; }
    }
  }

  lemma PlanStepShape(w: World, key: ResourceKey, items: seq<ResourceKey>, uid: nat, snap: Snapshot)
    requires Enumerates(items, w.store) && uid <= w.rev && DistinctIds(snap.identities)
    ensures ShapeOk(w.store, w.rev, key, PlanStep(w, key, items, uid, snap))
  {}

  lemma AuthorizeShape(w: World, key: ResourceKey, items: seq<ResourceKey>, fault: Option<Fault>, canceled: bool,
                       run: Run)
    requires run.Fetched? && PatchesLeft(run) && Enumerates(items, w.store) && ShapeOk(w.store, w.rev, key, run)
    ensures ShapeOk(w.store, w.rev, key,
                    AuthorizeStep(w, key, items, fault, canceled, run.job, run.outcomes, run.found))
  {
    var patch := NextPatch(run.job, run.outcomes);
    var attrs := if run.found.Some? then run.found.value.attrs else [];
    if fault.Some? {
      AfterOutcomeShape(w.store, w.rev, key, run.job, run.outcomes, FailedOutcome(patch.id, attrs, fault.value));
    } else if !Live(w.store, key, run.job.uid) {
      AfterOutcomeShape(w.store, w.rev, key, run.job, run.outcomes, FailedOutcome(patch.id, attrs, Failure));
    } else {
      var view := ViewOf(w, key, items);
      match Decide(run.job.plan, patch, run.found, view)
      case Report(o) =>
        assert DecidedBy(run.job.plan, patch, run.found, view, o);
        AfterOutcomeShape(w.store, w.rev, key, run.job, run.outcomes, o);
      case Send(next) =>
        if canceled {
          AfterOutcomeShape(w.store, w.rev, key, run.job, run.outcomes, FailedOutcome(patch.id, attrs, Canceled));
        }
    }
  }

  lemma PatchShape(w: World, key: ResourceKey, run: Run, ack: Ack, error: Fault)
    requires run.Sending? && StepEnabled(w, key, run, Patch(ack, error)) && ShapeOk(w.store, w.rev, key, run)
    ensures ShapeOk(w.store, w.rev, key, NextRun(w, key, run, Patch(ack, error)).value)
  {
    var patch := NextPatch(run.job, run.outcomes);
    if ack.Acked? {
      assert DecidedBy(run.job.plan, patch, Some(run.target), run.view, PatchedOutcome(patch, run.next));
      AfterOutcomeShape(w.store, w.rev, key, run.job, run.outcomes, PatchedOutcome(patch, run.next));
    } else {
      AfterOutcomeShape(w.store, w.rev, key, run.job, run.outcomes, FailedOutcome(patch.id, run.target.attrs, error));
    }
  }

  lemma SimpleStepShape(w: World, key: ResourceKey, run: Run, step: Step)
    requires StoreOk(w.store, w.rev) && StepEnabled(w, key, run, step) && ShapeOk(w.store, w.rev, key, run)
    requires !step.MakePlan? && !step.Fetch? && !step.Authorize? && !step.Patch? && !step.ReadToRecord?
             && !step.ReadToPersist?
    ensures NextRun(w, key, run, step).Some? ==> ShapeOk(w.store, w.rev, key, NextRun(w, key, run, step).value)
  {}

  lemma ReadStepShape(w: World, key: ResourceKey, run: Run, step: Step)
    requires StoreOk(w.store, w.rev) && StepEnabled(w, key, run, step) && ShapeOk(w.store, w.rev, key, run)
    requires step.ReadToRecord? || step.ReadToPersist?
    ensures NextRun(w, key, run, step).Some? ==> ShapeOk(w.store, w.rev, key, NextRun(w, key, run, step).value)
  {}

  lemma FetchShape(w: World, key: ResourceKey, run: Run, fault: Option<Fault>)
    requires ValidBackend(w.backend) && StepEnabled(w, key, run, Fetch(fault)) && ShapeOk(w.store, w.rev, key, run)
    ensures ShapeOk(w.store, w.rev, key, NextRun(w, key, run, Fetch(fault)).value)
  {
    if fault.Some? {
      AfterOutcomeShape(w.store, w.rev, key, run.job, run.outcomes,
                        FailedOutcome(NextPatch(run.job, run.outcomes).id, [], fault.value));
    }
  }

  /** The run after its own step, against the store before the step's effect. */
  lemma NextRunShape(w: World, key: ResourceKey, run: Run, step: Step)
    requires StoreOk(w.store, w.rev) && ValidBackend(w.backend)
    requires StepEnabled(w, key, run, step) && ShapeOk(w.store, w.rev, key, run)
    ensures NextRun(w, key, run, step).Some? ==> ShapeOk(w.store, w.rev, key, NextRun(w, key, run, step).value)
  {
    match step
    case MakePlan(items) => PlanStepShape(w, key, items, run.uid, run.snap);
    case Authorize(items, fault, canceled) => AuthorizeShape(w, key, items, fault, canceled, run);
    case Patch(ack, error) => PatchShape(w, key, run, ack, error);
    case Fetch(fault) => FetchShape(w, key, run, fault);
    case ReadToRecord => ReadStepShape(w, key, run, step);
    case ReadToPersist => ReadStepShape(w, key, run, step);
    case _ => SimpleStepShape(w, key, run, step);
  }

  lemma ShapeStep(w: World, a: Action)
    requires Shape(w) && Enabled(w, a)
    ensures Shape(Next(w, a))
  {
    var w' := Next(w, a);
    match a {
      case Begin(key, uid) =>
      case Outside(event) => EventIsVersioned(w, event);
      case Sync(key, step) =>
        if w.runs[key].Recording? || w.runs[key].Persisting? { ReadIsBounded(w, key, w.runs[key]); }
        EffectIsVersioned(w, key, w.runs[key], step);
        NextRunShape(w, key, w.runs[key], step);
    }
    forall k | k in w'.runs ensures ShapeOk(w'.store, w'.rev, k, w'.runs[k]) {
      if !a.Begin? || k != a.key {
        ShapeStable(w.store, w.rev, w'.store, w'.rev, k, w'.runs[k]);
      }
    }
  }

  // ---- Behaviours ----

  ghost predicate Initial(w: World) {
    w.runs == map[] && w.placed == {} && StoreOk(w.store, w.rev) && ValidBackend(w.backend)
  }

  /** A finite run of the whole system: any actions, in any order. */
  ghost predicate Behavior(ws: seq<World>, actions: seq<Action>) {
    && |ws| == |actions| + 1
    && Initial(ws[0])
    && forall i | 0 <= i < |actions| :: Enabled(ws[i], actions[i]) && ws[i + 1] == Next(ws[i], actions[i])
  }

  lemma {:induction false} ShapeAlways(ws: seq<World>, actions: seq<Action>, i: nat)
    requires Behavior(ws, actions) && i < |ws|
    ensures Shape(ws[i])
  {
    if i > 0 {
      ShapeAlways(ws, actions, i - 1);
      ShapeStep(ws[i - 1], actions[i - 1]);
    }
  }

  // ---- Status writes ----

  /** Recording claims is a compare-and-swap on one live instance: when the
      write takes effect, the stored set was exactly the one planned from, it
      becomes the managed set, and nothing else changes. */
  lemma RecordIsCas(ws: seq<World>, actions: seq<Action>, i: nat, key: ResourceKey, ack: Ack)
    requires Behavior(ws, actions) && i < |actions|
    requires actions[i] == Sync(key, Record(ack)) && !ack.NotApplied?
    ensures var job := ws[i].runs[key].job; var old', new' := ws[i].store, ws[i + 1].store;
            && Live(old', key, job.uid)
            && Elems(old'[key].managed) == Elems(job.input.self.managed)
            && Elems(new'[key].managed) == Managed(job.input)
            && new' == old'[key := old'[key].(managed := new'[key].managed, rv := new'[key].rv)]
  {
    ShapeAlways(ws, actions, i);
    assert ShapeOk(ws[i].store, ws[i].rev, key, ws[i].runs[key]);
  }

  /** The final status write, too, lands on the live instance the run started
      from, and replaces its managed values by the completion's or keeps them. */
  lemma PersistIsBound(ws: seq<World>, actions: seq<Action>, i: nat, key: ResourceKey, ack: Ack)
    requires Behavior(ws, actions) && i < |actions|
    requires actions[i] == Sync(key, Persist(ack)) && !ack.NotApplied?
    ensures var run := ws[i].runs[key]; var old', new' := ws[i].store, ws[i + 1].store;
            && Live(old', key, run.uid)
            && new'[key].managed == (if run.completion.Some? then run.completion.value.managed else old'[key].managed)
            && new' == old'[key := old'[key].(managed := new'[key].managed, rv := new'[key].rv)]
  {
    ShapeAlways(ws, actions, i);
    assert ShapeOk(ws[i].store, ws[i].rev, key, ws[i].runs[key]);
  }

  // ---- Backend writes ----

  /** Every PATCH, in every interleaving, replaces the attributes of one
      identity only. The identity was eligible when listed and, at its fresh
      read, unowned and still under the same folded external ID; the list sent
      keeps the fresh list's values outside C + P in order and multiplicity and
      holds exactly the grants inside. */
  lemma PatchFrame(ws: seq<World>, actions: seq<Action>, i: nat, key: ResourceKey, ack: Ack, error: Fault)
    requires Behavior(ws, actions) && i < |actions|
    requires actions[i] == Sync(key, Patch(ack, error)) && !ack.NotApplied?
    ensures var run := ws[i].runs[key]; var patch := NextPatch(run.job, run.outcomes);
            var managed := Managed(run.job.input);
            && ws[i + 1].backend == ws[i].backend[patch.id := ws[i].backend[patch.id].(attrs := run.next)]
            && (exists n | 0 <= n < |run.job.input.identities| ::
                  run.job.input.identities[n].id == patch.id && Eligible(run.job.input, run.job.input.identities[n]))
            && run.target.id == patch.id && MayPatch(run.target, run.view.owners, patch)
            && Drop(run.next, managed) == Drop(run.target.attrs, managed)
            && Elems(run.next) * managed == Elems(patch.granted)
  {
    ShapeAlways(ws, actions, i);
    var run := ws[i].runs[key];
    assert ShapeOk(ws[i].store, ws[i].rev, key, run);
    var n := PlannedGrants(run.job.input, REPORT_CAP, |run.outcomes|);
    assert run.job.input.identities[n].id == NextPatch(run.job, run.outcomes).id;
    MergeFrame(run.target.attrs, Managed(run.job.input), Elems(NextPatch(run.job, run.outcomes).granted));
  }

  /** The documented race, exactly: a PATCH brings an unmanaged value onto the
      identity if and only if the value was removed between the fresh read and
      the PATCH, and it drops one if and only if it was added in between. */
  lemma RaceExactly(ws: seq<World>, actions: seq<Action>, i: nat, key: ResourceKey, ack: Ack, error: Fault, v: Str)
    requires Behavior(ws, actions) && i < |actions|
    requires actions[i] == Sync(key, Patch(ack, error)) && !ack.NotApplied?
    requires v !in Managed(ws[i].runs[key].job.input)
    ensures var run := ws[i].runs[key]; var id := NextPatch(run.job, run.outcomes).id;
            var before, after := ws[i].backend[id].attrs, ws[i + 1].backend[id].attrs;
            && (v in after && v !in before <==> v in run.target.attrs && v !in before)
            && (v in before && v !in after <==> v in before && v !in run.target.attrs)
  {
    PatchFrame(ws, actions, i, key, ack, error);
    var run := ws[i].runs[key];
    var managed := Managed(run.job.input);
    assert v in Elems(run.next) <==> v in Elems(Drop(run.next, managed));
    assert v in Elems(run.target.attrs) <==> v in Elems(Drop(run.target.attrs, managed));
  }

  // ---- Completion ----

  /** In every interleaving, a write phase that ends without failures or
      conflicts completes CleanupPending exactly when an ineligible listed
      identity holds a retired value or a skipped fresh read still shows one. */
  lemma PendingInRun(ws: seq<World>, actions: seq<Action>, i: nat, key: ResourceKey)
    requires Behavior(ws, actions) && i < |actions|
    requires actions[i] == Sync(key, EndWrites(false))
    requires forall k | 0 <= k < |ws[i].runs[key].outcomes| ::
               !ws[i].runs[key].outcomes[k].kind.Failed? && !ws[i].runs[key].outcomes[k].kind.Conflicted?
    ensures var job, outcomes := ws[i].runs[key].job, ws[i].runs[key].outcomes;
            && ws[i + 1].runs[key].Finishing? && ws[i + 1].runs[key].completion.Some?
            && (ws[i + 1].runs[key].completion.value.reason == CleanupPending <==>
                || (exists n | 0 <= n < |job.input.identities| :: IneligibleHolding(job.input, job.input.identities[n]))
                || (exists k | 0 <= k < |outcomes| :: SkippedHolding(outcomes[k], Retired(job.input))))
  {
    ShapeAlways(ws, actions, i);
    var run := ws[i].runs[key];
    assert ShapeOk(ws[i].store, ws[i].rev, key, run);
    assert CleanPhase(run.job.plan, run.outcomes);
    PendingExactly(run.job.input, REPORT_CAP, run.outcomes);
  }
}
