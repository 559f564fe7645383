/** How the run at a step came about: where a PATCH's list and authorization, a
    plan's input and a status write's instance come from. */
module ProtocolHistory {
  import opened Text
  import opened SortedSets
  import opened Ownership
  import opened Planner
  import opened Retirement
  import opened Writes
  import opened Store
  import opened Protocol
  import opened ProtocolShape
  import opened PlanProperties
  import opened Undisturbed
  import opened Decisions

  lemma OnlyFetchFetches(w: World, key: ResourceKey, run: Run, step: Step)
    requires StepEnabled(w, key, run, step)
    requires NextRun(w, key, run, step).Some? && NextRun(w, key, run, step).value.Fetched?
    ensures step == Fetch(None)
    ensures var next := NextRun(w, key, run, step).value;
            |next.outcomes| < |next.job.plan.patches|
            && (next.found.Some? ==> NextPatch(next.job, next.outcomes).id in w.backend
                                     && w.backend[NextPatch(next.job, next.outcomes).id] == next.found.value)
  {}

  lemma OnlyAuthorizeSends(w: World, key: ResourceKey, run: Run, step: Step)
    requires StepEnabled(w, key, run, step)
    requires NextRun(w, key, run, step).Some? && NextRun(w, key, run, step).value.Sending?
    ensures step.Authorize? && run.Fetched? && Enumerates(step.items, w.store)
    ensures var next := NextRun(w, key, run, step).value;
            && next.job == run.job && next.outcomes == run.outcomes && run.found == Some(next.target)
            && Live(w.store, key, run.job.uid) && next.view == ViewOf(w, key, step.items)
  {}

  lemma OthersKeepRun(w: World, a: Action, key: ResourceKey)
    requires Enabled(w, a) && key in Next(w, a).runs
    requires !(a.Sync? && a.key == key) && a != Begin(key, UidOf(Next(w, a).runs[key]))
    ensures key in w.runs && w.runs[key] == Next(w, a).runs[key]
  {}

  /** At action `m` the run of `key` read identity `id` and found `target`. */
  ghost predicate ReadAt(ws: seq<World>, actions: seq<Action>, m: nat, key: ResourceKey, id: Str, target: Identity) {
    && m < |actions| && m < |ws| && actions[m] == Sync(key, Fetch(None))
    && id in ws[m].backend && ws[m].backend[id] == target
  }

  /** The run of `key` is between a fresh read for its patch and that PATCH. */
  ghost predicate OnPatch(w: World, key: ResourceKey, job: Job, outcomes: seq<IdentityOutcome>) {
    && key in w.runs && (w.runs[key].Fetched? || w.runs[key].Sending?)
    && w.runs[key].job == job && w.runs[key].outcomes == outcomes
  }

  ghost predicate OnPatchSince(ws: seq<World>, m: nat, i: nat, key: ResourceKey, job: Job,
                               outcomes: seq<IdentityOutcome>) {
    i < |ws| && forall t | m < t <= i :: OnPatch(ws[t], key, job, outcomes)
  }

  lemma {:induction false} FetchedWasRead(ws: seq<World>, actions: seq<Action>, i: nat, key: ResourceKey, run: Run)
    returns (m: nat)
    requires Behavior(ws, actions) && i < |ws| && key in ws[i].runs && ws[i].runs[key] == run
    requires run.Fetched? && run.found.Some? && PatchesLeft(run)
    ensures m < i && ReadAt(ws, actions, m, key, NextPatch(run.job, run.outcomes).id, run.found.value)
    ensures OnPatchSince(ws, m, i, key, run.job, run.outcomes)
  {
    var w, a := ws[i - 1], actions[i - 1];
    assert ws[i] == Next(w, a);
    if a.Sync? && a.key == key {
      OnlyFetchFetches(w, key, w.runs[key], a.step);
      m := i - 1;
    } else {
      OthersKeepRun(w, a, key);
      m := FetchedWasRead(ws, actions, i - 1, key, run);
    }
  }

  /** At action `n` the run of `key` was authorized: it had fetched its target,
      its instance was live, and it read the claims and the owners of that moment. */
  ghost predicate AuthorizedAt(ws: seq<World>, actions: seq<Action>, n: nat, key: ResourceKey, run: Run)
    requires run.Sending?
  {
    && n < |actions| && n < |ws| && actions[n].Sync? && actions[n].key == key && actions[n].step.Authorize?
    && Enumerates(actions[n].step.items, ws[n].store) && Live(ws[n].store, key, run.job.uid)
    && run.view == ViewOf(ws[n], key, actions[n].step.items)
    && key in ws[n].runs && ws[n].runs[key] == Fetched(run.job, run.outcomes, Some(run.target))
  }

  /** A sending run was sending already, or has just been authorized. */
  lemma SentOrKept(ws: seq<World>, actions: seq<Action>, i: nat, key: ResourceKey, run: Run)
    requires Behavior(ws, actions) && i < |ws| && key in ws[i].runs && ws[i].runs[key] == run && run.Sending?
    ensures i > 0 && (AuthorizedAt(ws, actions, i - 1, key, run)
                      || (key in ws[i - 1].runs && ws[i - 1].runs[key] == run))
  {
    var w, a := ws[i - 1], actions[i - 1];
    assert ws[i] == Next(w, a);
    if a.Sync? && a.key == key {
      OnlyAuthorizeSends(w, key, w.runs[key], a.step);
    } else {
      OthersKeepRun(w, a, key);
    }
  }

  lemma {:induction false} SendWasAuthorized(ws: seq<World>, actions: seq<Action>, i: nat, key: ResourceKey, run: Run)
    returns (n: nat)
    requires Behavior(ws, actions) && i < |ws| && key in ws[i].runs && ws[i].runs[key] == run && run.Sending?
    ensures n < i && AuthorizedAt(ws, actions, n, key, run)
    ensures OnPatchSince(ws, n, i, key, run.job, run.outcomes)
  {
    SentOrKept(ws, actions, i, key, run);
    n := i - 1;
    if !AuthorizedAt(ws, actions, n, key, run) {
      n := SendWasAuthorized(ws, actions, i - 1, key, run);
    }
  }

  /** The list that a PATCH merges into is one that the backend held at a fresh
      read `m` of the same identity, and the PATCH was authorized at `n` against
      the claims and owners of that moment. From the read on, the run has been
      waiting to send this one PATCH: both belong to this run and this patch. */
  lemma TargetWasRead(ws: seq<World>, actions: seq<Action>, i: nat, key: ResourceKey, run: Run) returns (m: nat, n: nat)
    requires Behavior(ws, actions) && i < |ws| && key in ws[i].runs && ws[i].runs[key] == run
    requires run.Sending? && PatchesLeft(run)
    ensures m < n < i && ReadAt(ws, actions, m, key, NextPatch(run.job, run.outcomes).id, run.target)
    ensures AuthorizedAt(ws, actions, n, key, run)
    ensures OnPatchSince(ws, m, i, key, run.job, run.outcomes)
  {
    n := SendWasAuthorized(ws, actions, i, key, run);
    m := FetchedWasRead(ws, actions, n, key, ws[n].runs[key]);
  }

  /** At its authorization the run's instance stood, no other sync challenged
      any of its managed values, and the identity, as read, was open under the
      external ID it was listed with. */
  ghost predicate RightlyAuthorized(w: World, key: ResourceKey, run: Run)
    requires run.Sending? && PatchesLeft(run)
  {
    && Standing(w.store, key, run.job.uid) && Unchallenged(w.store, key, Managed(run.job.input))
    && exists x | 0 <= x < |run.job.input.identities| ::
         && run.job.input.identities[x].id == NextPatch(run.job, run.outcomes).id
         && Eligible(run.job.input, run.job.input.identities[x])
         && Open(run.target, w.owners, run.job.input.identities[x].externalId)
  }

  /** No PATCH is sent without the pre-PATCH check: in every behaviour, a PATCH
      belongs to a run that read its identity at `m` and was rightly authorized
      at `n`, against the claims and owners of that moment. */
  lemma PatchWasUnchallenged(ws: seq<World>, actions: seq<Action>, i: nat, key: ResourceKey, run: Run)
    returns (m: nat, n: nat)
    requires Behavior(ws, actions) && i < |ws| && key in ws[i].runs && ws[i].runs[key] == run
    requires run.Sending? && PatchesLeft(run)
    ensures m < n < i && ReadAt(ws, actions, m, key, NextPatch(run.job, run.outcomes).id, run.target)
    ensures AuthorizedAt(ws, actions, n, key, run) && OnPatchSince(ws, m, i, key, run.job, run.outcomes)
    ensures RightlyAuthorized(ws[n], key, run)
  {
    m, n := TargetWasRead(ws, actions, i, key, run);
    ShapeAlways(ws, actions, i);
    assert ShapeOk(ws[i].store, ws[i].rev, key, run);
    SendIsRight(ws[n], key, actions[n].step.items, run);
  }

  lemma SendIsRight(w: World, key: ResourceKey, items: seq<ResourceKey>, run: Run)
    requires Enumerates(items, w.store) && run.Sending? && PatchesLeft(run)
    requires Live(w.store, key, run.job.uid) && run.view == ViewOf(w, key, items)
    requires JobOk(key, run.job)
    requires Decide(run.job.plan, NextPatch(run.job, run.outcomes), Some(run.target), run.view) == Send(run.next)
    ensures RightlyAuthorized(w, key, run)
  {
    var patch := NextPatch(run.job, run.outcomes);
    var x := PlannedGrants(run.job.input, REPORT_CAP, |run.outcomes|);
    DecideExactly(w.store, w.owners, key, items, run.job.plan, patch, Some(run.target));
    assert run.job.input.identities[x].id == patch.id;
  }

  /** While a run is writing, no outcome so far halted it. */
  ghost predicate StillGoing(run: Run) {
    run.Writing? || run.Fetched? || run.Sending? ==> GoesOn(run.outcomes)
  }

  lemma StepKeepsGoing(w: World, key: ResourceKey, run: Run, step: Step)
    requires StepEnabled(w, key, run, step) && StillGoing(run)
    ensures NextRun(w, key, run, step).Some? ==> StillGoing(NextRun(w, key, run, step).value)
  {
    if step.MakePlan? {
      PlanStepStops(w, key, step.items, run.uid, run.snap);
    } else if step.Authorize? {
      AuthorizeKeepsGoing(w, key, step.items, step.fault, step.canceled, run.job, run.outcomes, run.found);
    }
  }

  lemma PlanStepStops(w: World, key: ResourceKey, items: seq<ResourceKey>, uid: nat, snap: Snapshot)
    requires Enumerates(items, w.store)
    ensures StillGoing(PlanStep(w, key, items, uid, snap))
  {}

  lemma AuthorizeKeepsGoing(w: World, key: ResourceKey, items: seq<ResourceKey>, fault: Option<Fault>, canceled: bool,
                            job: Job, outcomes: seq<IdentityOutcome>, found: Option<Identity>)
    requires Enumerates(items, w.store) && |outcomes| < |job.plan.patches| && GoesOn(outcomes)
    ensures StillGoing(AuthorizeStep(w, key, items, fault, canceled, job, outcomes, found))
  {}

  /** In every behaviour, a run that still reads, checks or sends has had no
      conflict and no cancellation: nothing follows an outcome that halts. */
  lemma {:induction false} NothingFollowsHalt(ws: seq<World>, actions: seq<Action>, i: nat, key: ResourceKey)
    requires Behavior(ws, actions) && i < |ws| && key in ws[i].runs
    ensures StillGoing(ws[i].runs[key])
  {
    if i > 0 {
      if key in ws[i - 1].runs { NothingFollowsHalt(ws, actions, i - 1, key); }
      ActionKeepsGoing(ws[i - 1], actions[i - 1], key);
    }
  }

  lemma ActionKeepsGoing(w: World, a: Action, key: ResourceKey)
    requires Enabled(w, a) && key in Next(w, a).runs && (key in w.runs ==> StillGoing(w.runs[key]))
    ensures StillGoing(Next(w, a).runs[key])
  {
    if a.Sync? && a.key == key {
      StepKeepsGoing(w, key, w.runs[key], a.step);
    } else if a != Begin(key, UidOf(Next(w, a).runs[key])) {
      OthersKeepRun(w, a, key);
    }
  }

  // ---- Which instance a run serves ----

  /** Since `b`, the run of `key` has been under way for instance `uid`. */
  ghost predicate ServesSince(ws: seq<World>, b: nat, i: nat, key: ResourceKey, uid: nat) {
    i < |ws| && forall t | b < t <= i :: key in ws[t].runs && UidOf(ws[t].runs[key]) == uid
  }

  lemma StepKeepsUid(w: World, key: ResourceKey, run: Run, step: Step)
    requires StepEnabled(w, key, run, step) && NextRun(w, key, run, step).Some?
    ensures UidOf(NextRun(w, key, run, step).value) == UidOf(run)
  {
    if step.MakePlan? {
      PlanStepUid(w, key, step.items, run.uid, run.snap);
    } else if step.Authorize? {
      AuthorizeUid(w, key, step.items, step.fault, step.canceled, run.job, run.outcomes, run.found);
    }
  }

  lemma PlanStepUid(w: World, key: ResourceKey, items: seq<ResourceKey>, uid: nat, snap: Snapshot)
    requires Enumerates(items, w.store)
    ensures UidOf(PlanStep(w, key, items, uid, snap)) == uid
  {}

  lemma AuthorizeUid(w: World, key: ResourceKey, items: seq<ResourceKey>, fault: Option<Fault>, canceled: bool,
                     job: Job, outcomes: seq<IdentityOutcome>, found: Option<Identity>)
    requires Enumerates(items, w.store) && |outcomes| < |job.plan.patches|
    ensures UidOf(AuthorizeStep(w, key, items, fault, canceled, job, outcomes, found)) == job.uid
  {}

  /** A run keeps, from its beginning on, the instance it began with. */
  lemma {:induction false} RunHasBegun(ws: seq<World>, actions: seq<Action>, i: nat, key: ResourceKey, uid: nat)
    returns (b: nat)
    requires Behavior(ws, actions) && i < |ws| && key in ws[i].runs && UidOf(ws[i].runs[key]) == uid
    ensures b < i && actions[b] == Begin(key, uid) && key !in ws[b].runs && ServesSince(ws, b, i, key, uid)
  {
    var w, a := ws[i - 1], actions[i - 1];
    assert ws[i] == Next(w, a);
    b := i - 1;
    if a != Begin(key, uid) {
      if a.Sync? && a.key == key {
        StepKeepsUid(w, key, w.runs[key], a.step);
      } else {
        OthersKeepRun(w, a, key);
      }
      b := RunHasBegun(ws, actions, i - 1, key, uid);
    }
  }

  predicate HasJob(run: Run) {
    run.Planned? || run.Recording? || run.Writing? || run.Fetched? || run.Sending?
  }

  /** The run has a plan, or completed one. */
  predicate PlanBased(run: Run) {
    HasJob(run) || ((run.Finishing? || run.Persisting?) && run.completion.Some?)
  }

  /** At action `p` the run of `key` planned, with `input` if it has a job, from
      its listing and from the ownership read of a live instance `UidOf(run)`. */
  ghost predicate PlannedAt(ws: seq<World>, actions: seq<Action>, p: nat, key: ResourceKey, run: Run) {
    && p < |actions| && p < |ws| && actions[p].Sync? && actions[p].key == key && actions[p].step.MakePlan?
    && Live(ws[p].store, key, UidOf(run)) && Enumerates(actions[p].step.items, ws[p].store)
    && key in ws[p].runs && ws[p].runs[key].Listed? && UidOf(ws[p].runs[key]) == UidOf(run)
    && (HasJob(run) ==> run.job.input == InputFor(ws[p], key, actions[p].step.items, ws[p].runs[key].snap))
  }

  /** A plan-based run has just planned, or was plan-based on the same job. */
  lemma StepKeepsPlan(w: World, key: ResourceKey, run: Run, step: Step)
    requires StepEnabled(w, key, run, step) && NextRun(w, key, run, step).Some?
             && PlanBased(NextRun(w, key, run, step).value)
    ensures var next := NextRun(w, key, run, step).value;
            if step.MakePlan? then
              && Live(w.store, key, run.uid) && next == PlanStep(w, key, step.items, run.uid, run.snap)
              && (HasJob(next) ==> next.job.input == InputFor(w, key, step.items, run.snap))
            else PlanBased(run) && (HasJob(next) ==> HasJob(run) && next.job == run.job)
  {}

  lemma PlannedOrKept(ws: seq<World>, actions: seq<Action>, i: nat, key: ResourceKey, run: Run)
    requires Behavior(ws, actions) && i < |ws| && key in ws[i].runs && ws[i].runs[key] == run && PlanBased(run)
    ensures i > 0 && key in ws[i - 1].runs && UidOf(ws[i - 1].runs[key]) == UidOf(run)
    ensures var before := ws[i - 1].runs[key];
            || PlannedAt(ws, actions, i - 1, key, run)
            || (PlanBased(before) && (HasJob(run) ==> HasJob(before) && before.job == run.job))
  {
    var w, a := ws[i - 1], actions[i - 1];
    assert ws[i] == Next(w, a);
    if a.Sync? && a.key == key {
      StepKeepsPlan(w, key, w.runs[key], a.step);
      StepKeepsUid(w, key, w.runs[key], a.step);
    } else {
      OthersKeepRun(w, a, key);
    }
  }

  lemma {:induction false} PlanWasMade(ws: seq<World>, actions: seq<Action>, i: nat, key: ResourceKey, run: Run)
    returns (p: nat)
    requires Behavior(ws, actions) && i < |ws| && key in ws[i].runs && ws[i].runs[key] == run && PlanBased(run)
    ensures p < i && PlannedAt(ws, actions, p, key, run) && ServesSince(ws, p, i, key, UidOf(run))
  {
    PlannedOrKept(ws, actions, i, key, run);
    p := i - 1;
    if !PlannedAt(ws, actions, p, key, run) {
      p := PlanWasMade(ws, actions, i - 1, key, ws[i - 1].runs[key]);
    }
  }

  /** Every status write of a run, claims or final, lands on the live instance
      that the run began with at `b` and, if it planned, whose live claims and
      listing it planned from at `p`: one run, one instance throughout. */
  lemma StatusWriteInstance(ws: seq<World>, actions: seq<Action>, i: nat, key: ResourceKey, step: Step)
    returns (b: nat, p: nat)
    requires Behavior(ws, actions) && i < |actions|
    requires actions[i] == Sync(key, step) && (step.Record? || step.Persist?) && !step.ack.NotApplied?
    ensures var run := ws[i].runs[key];
            && Live(ws[i].store, key, UidOf(run))
            && b < i && actions[b] == Begin(key, UidOf(run)) && ServesSince(ws, b, i, key, UidOf(run))
            && (PlanBased(run) ==> b < p < i && PlannedAt(ws, actions, p, key, run))
            && (step.Record? ==> PlanBased(run))
  {
    var run := ws[i].runs[key];
    if step.Record? {
      RecordIsCas(ws, actions, i, key, step.ack);
    } else {
      PersistIsBound(ws, actions, i, key, step.ack);
    }
    b := RunHasBegun(ws, actions, i, key, UidOf(run));
    p := b;
    if PlanBased(run) {
      p := PlanWasMade(ws, actions, i, key, run);
    }
  }
}
