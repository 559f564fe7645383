/** Under serialized reconciles, the recorded claims of all syncs stay pairwise
    disjoint, through conflicts, failures, crashes, and resources coming and going. */
module ProtocolClaims {
  import opened Text
  import opened SortedSets
  import opened Ownership
  import opened Planner
  import opened Retirement
  import opened Writes
  import opened Store
  import opened Protocol
  import opened ProtocolShape
  import opened ProtocolGrants
  import opened ProtocolHistory

  /** Nobody else has recorded any of `values`. */
  ghost predicate Free(store: Claims, k: ResourceKey, values: set<Str>) {
    forall j | j in store && j != k :: Elems(store[j].managed) !! values
  }

  ghost predicate RunFree(store: Claims, k: ResourceKey, run: Run) {
    HasJob(run) ==> Free(store, k, Managed(run.job.input))
  }

  ghost predicate Separate(w: World) {
    && Disjoint(w.store)
    && (forall j, k | j in w.runs && k in w.runs :: j == k)
    && (forall k | k in w.runs :: RunFree(w.store, k, w.runs[k]))
  }

  /** Passing the ownership check on disjoint claims means the values are free. */
  lemma PassingIsFree(store: Claims, k: ResourceKey, values: set<Str>)
    requires k in store && Disjoint(store) && Passes(store, k, values)
    ensures Free(store, k, values)
  {
    forall j | j in store && j != k ensures Elems(store[j].managed) !! values {
      assert Elems(store[j].managed) !! Elems(store[k].managed);
      assert forall v | v in values && v in store[j].managed :: v in store[k].managed;
    }
  }

  lemma PlanStepFree(w: World, k: ResourceKey, items: seq<ResourceKey>, uid: nat, snap: Snapshot)
    requires Disjoint(w.store) && Enumerates(items, w.store)
    ensures RunFree(w.store, k, PlanStep(w, k, items, uid, snap))
  {
    if PlanStep(w, k, items, uid, snap).Planned? {
      var plan := PlanStep(w, k, items, uid, snap).job.plan;
      PassesIff(w.store, items, k, plan.managed);
      PassingIsFree(w.store, k, Elems(plan.managed));
    }
  }

  lemma NextRunFree(w: World, k: ResourceKey, run: Run, step: Step)
    requires Disjoint(w.store) && RunFree(w.store, k, run) && StepEnabled(w, k, run, step)
    ensures NextRun(w, k, run, step).Some? ==> RunFree(w.store, k, NextRun(w, k, run, step).value)
  {
    if NextRun(w, k, run, step).Some? && HasJob(NextRun(w, k, run, step).value) {
      StepKeepsPlan(w, k, run, step);
      if step.MakePlan? { PlanStepFree(w, k, step.items, run.uid, run.snap); }
    }
  }

  /** A step writes no resource but its own, and leaves there values nobody else
      claims. */
  lemma EffectIsOwn(w: World, k: ResourceKey, run: Run, step: Step)
    requires Disjoint(w.store) && RunFree(w.store, k, run) && StepEnabled(w, k, run, step)
    requires ShapeOk(w.store, w.rev, k, run) && RunOk(w.store, w.placed, k, run)
    ensures var store' := Effect(w, k, run, step).store;
            && (forall j | j != k && j in store' :: j in w.store && store'[j] == w.store[j])
            && (k in store' ==> Free(w.store, k, Elems(store'[k].managed)))
  {
    if step.Record? && !step.ack.NotApplied? {
      assert Elems(run.job.plan.managed) == Managed(run.job.input);
    } else if step.Persist? && !step.ack.NotApplied? {
      assert Stands(w.store, k, run.uid);
    }
  }

  lemma EffectDisjoint(w: World, k: ResourceKey, run: Run, step: Step)
    requires Disjoint(w.store) && RunFree(w.store, k, run) && StepEnabled(w, k, run, step)
    requires ShapeOk(w.store, w.rev, k, run) && RunOk(w.store, w.placed, k, run)
    ensures Disjoint(Effect(w, k, run, step).store)
    ensures forall j | j != k && j in Effect(w, k, run, step).store ::
              j in w.store && Effect(w, k, run, step).store[j] == w.store[j]
  {
    EffectIsOwn(w, k, run, step);
    OwnWriteDisjoint(w.store, Effect(w, k, run, step).store, k);
  }

  lemma OwnWriteDisjoint(store: Claims, store': Claims, k: ResourceKey)
    requires Disjoint(store) && forall j | j != k && j in store' :: j in store && store'[j] == store[j]
    requires k in store' ==> Free(store, k, Elems(store'[k].managed))
    ensures Disjoint(store')
  {}

  lemma EventSeparate(w: World, e: Event)
    requires Separate(w) && EventEnabled(w, e) && !e.EditStatus?
    ensures Separate(AfterEvent(w, e))
  {
    var w' := AfterEvent(w, e);
    forall j | j in w'.store
      ensures w'.store[j].managed == [] || (j in w.store && w'.store[j].managed == w.store[j].managed)
    {}
    assert Disjoint(w'.store);
    forall k | k in w'.runs ensures RunFree(w'.store, k, w'.runs[k]) {
      assert RunFree(w.store, k, w.runs[k]);
    }
  }

  lemma SeparateStep(w: World, a: Action)
    requires Separate(w) && Shape(w) && Grants(w) && Enabled(w, a)
    requires a.Outside? ==> !a.event.EditStatus?
    requires a.Begin? ==> w.runs == map[]
    ensures Separate(Next(w, a))
  {
    match a
    case Begin(key, uid) =>
    case Outside(event) => EventSeparate(w, event);
    case Sync(key, step) =>
      var run := w.runs[key];
      assert ShapeOk(w.store, w.rev, key, run) && RunOk(w.store, w.placed, key, run);
      EffectDisjoint(w, key, run, step);
      NextRunFree(w, key, run, step);
  }

  /** A run begins only when none is under way: one reconcile at a time. */
  ghost predicate Serialized(ws: seq<World>, actions: seq<Action>)
    requires |ws| == |actions| + 1
  {
    forall i | 0 <= i < |actions| && actions[i].Begin? :: ws[i].runs == map[]
  }

  lemma {:induction false} SeparateAlways(ws: seq<World>, actions: seq<Action>, i: nat)
    requires Behavior(ws, actions) && StatusIsOurs(actions) && Serialized(ws, actions)
    requires Disjoint(ws[0].store) && i < |ws|
    ensures Separate(ws[i])
  {
    if i > 0 {
      SeparateAlways(ws, actions, i - 1);
      GrantsAlways(ws, actions, i - 1);
      SeparateStep(ws[i - 1], actions[i - 1]);
    }
  }

  /** The recorded claims of all syncs are pairwise disjoint in every state of
      every serialized behaviour. */
  lemma ClaimsStayDisjoint(ws: seq<World>, actions: seq<Action>, i: nat, j: ResourceKey, k: ResourceKey)
    requires Behavior(ws, actions) && StatusIsOurs(actions) && Serialized(ws, actions)
    requires Disjoint(ws[0].store)
    requires i < |ws| && j in ws[i].store && k in ws[i].store && j != k
    ensures Elems(ws[i].store[j].managed) !! Elems(ws[i].store[k].managed)
  {
    SeparateAlways(ws, actions, i);
  }

  /** Syncs do not fight, step by step: in every serialized behaviour, a PATCH
      that takes effect neither adds nor removes, relative to the fresh read `m`
      of its own run, a value that another sync has recorded. */
  lemma PatchSparesOtherClaims(ws: seq<World>, actions: seq<Action>, i: nat, key: ResourceKey, ack: Ack, error: Fault,
                               j: ResourceKey, v: Str) returns (m: nat)
    requires Behavior(ws, actions) && StatusIsOurs(actions) && Serialized(ws, actions)
    requires Disjoint(ws[0].store) && i < |actions|
    requires actions[i] == Sync(key, Patch(ack, error)) && !ack.NotApplied?
    requires j in ws[i].store && j != key && v in ws[i].store[j].managed
    ensures var run := ws[i].runs[key]; var id := NextPatch(run.job, run.outcomes).id;
            && m < i && ReadAt(ws, actions, m, key, id, run.target)
            && OnPatchSince(ws, m, i, key, run.job, run.outcomes)
            && id in ws[i + 1].backend
            && (v in ws[i + 1].backend[id].attrs <==> v in ws[m].backend[id].attrs)
  {
    var run := ws[i].runs[key];
    SeparateAlways(ws, actions, i);
    PatchFrame(ws, actions, i, key, ack, error);
    var n;
    m, n := TargetWasRead(ws, actions, i, key, run);
    OutsideManaged(run.next, run.target.attrs, Managed(run.job.input), v);
  }

  lemma OutsideManaged(next: seq<Str>, attrs: seq<Str>, managed: set<Str>, v: Str)
    requires Drop(next, managed) == Drop(attrs, managed) && v !in managed
    ensures v in next <==> v in attrs
  {
    assert v in Elems(next) <==> v in Elems(Drop(next, managed));
    assert v in Elems(attrs) <==> v in Elems(Drop(attrs, managed));
  }
}
