/** Why reconciles are serialized: two syncs that plan at the same time can both
    record the same value. */
module Overlap {
  import opened Text
  import opened SortedSets
  import opened Ownership
  import opened Directory
  import opened Planner
  import opened Retirement
  import opened Store
  import opened Protocol
  import opened ProtocolShape
  import opened Reconciler
  import opened Refinement

  /** Two fresh syncs, nothing recorded, no identities. */
  ghost function TwoFresh(a: ResourceKey, b: ResourceKey): World {
    World(map[a := Stored(1, 1, 0, false, []), b := Stored(2, 2, 0, false, [])], 2, map[], [], map[], {})
  }

  ghost function OneRole(v: Str): Snapshot {
    Snapshot(ScopeData([v], map[]), map[], EMPTY, [])
  }

  /** With nothing recorded by others and no identities, planning goes through. */
  lemma PlansFreely(w: World, key: ResourceKey, items: seq<ResourceKey>, uid: nat, v: Str) returns (job: Job)
    requires Enumerates(items, w.store) && Live(w.store, key, uid) && w.store[key].managed == []
    requires forall j | j in w.store && j != key :: w.store[j].managed == []
    ensures PlanStep(w, key, items, uid, OneRole(v)) == Planned(job)
    ensures job.uid == uid && job.input.self.managed == [] && Elems(job.plan.managed) == {v}
  {
    var input := InputFor(w, key, items, OneRole(v));
    job := Job(uid, input, PlanOf(input, REPORT_CAP));
    assert Managed(input) == {v};
    PassesIff(w.store, items, key, job.plan.managed);
  }

  /** Recording a fresh sync's first claim takes effect. */
  lemma RecordsFirst(w: World, key: ResourceKey, job: Job) returns (actions: seq<Action>, w': World)
    requires key in w.runs && w.runs[key] == Planned(job) && Live(w.store, key, job.uid)
    requires w.store[key].managed == [] && job.input.self.managed == [] && Elems(job.plan.managed) != {}
    ensures Steps(w, actions, w')
    ensures w'.store == WithClaims(w.store, w.rev, key, job.plan.managed)
    ensures w'.runs == w.runs[key := Writing(job, [])]
  {
    actions, w' := RecordIsSteps(w, key, job, Acked);
    assert Elems([]) == {};
  }

  /** A sync for which nothing is recorded yet lists and plans. */
  lemma OnePlans(w: World, key: ResourceKey, uid: nat, items: seq<ResourceKey>, v: Str)
    returns (actions: seq<Action>, w': World, job: Job)
    requires key !in w.runs && uid <= w.rev && w.backend == map[]
    requires Enumerates(items, w.store) && Live(w.store, key, uid)
    requires forall j | j in w.store :: w.store[j].managed == []
    ensures Steps(w, actions, w') && w' == w.(runs := w.runs[key := Planned(job)])
    ensures job.uid == uid && job.input.self.managed == [] && Elems(job.plan.managed) == {v}
  {
    actions, w' := PlanningIsSteps(w, key, uid, OneRole(v), items);
    job := PlansFreely(w, key, items, uid, v);
  }

  lemma BothPlan(a: ResourceKey, b: ResourceKey, v: Str) returns (actions: seq<Action>, w': World, jobA: Job, jobB: Job)
    requires a != b
    ensures Steps(TwoFresh(a, b), actions, w')
    ensures w' == TwoFresh(a, b).(runs := map[a := Planned(jobA), b := Planned(jobB)])
    ensures jobA.uid == 1 && jobA.input.self.managed == [] && Elems(jobA.plan.managed) == {v}
    ensures jobB.uid == 2 && jobB.input.self.managed == [] && Elems(jobB.plan.managed) == {v}
  {
    var w, items := TwoFresh(a, b), [a, b];
    var m, more;
    actions, m, jobA := OnePlans(w, a, 1, items, v);
    more, w', jobB := OnePlans(m, b, 2, items, v);
    Joined(w, actions, m, more, w');
    actions := actions + more;
  }

  /** For any two syncs and any value there is a behaviour, starting with
      disjoint claims, that ends with both having recorded the value: the second
      run began while the first was under way. */
  lemma OverlapWithoutSerialization(a: ResourceKey, b: ResourceKey, v: Str) returns (actions: seq<Action>, w': World)
    requires a != b
    ensures Initial(TwoFresh(a, b)) && Disjoint(TwoFresh(a, b).store)
    ensures Steps(TwoFresh(a, b), actions, w')
    ensures a in w'.store && b in w'.store && v in w'.store[a].managed && v in w'.store[b].managed
  {
    var w := TwoFresh(a, b);
    assert Elems([]) == {};
    var m, jobA, jobB;
    actions, m, jobA, jobB := BothPlan(a, b, v);
    assert v in Elems(jobA.plan.managed) && v in Elems(jobB.plan.managed);
    var more, m' := RecordsFirst(m, a, jobA);
    Joined(w, actions, m, more, m');
    actions := actions + more;
    more, w' := RecordsFirst(m', b, jobB);
    Joined(w, actions, m', more, w');
    actions := actions + more;
  }
}
