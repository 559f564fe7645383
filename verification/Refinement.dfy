/** The reconciler's run is one of the protocol's behaviours: whatever holds of
    every behaviour holds of it. */
module Refinement {
  import opened Text
  import opened SortedSets
  import opened Ownership
  import opened Planner
  import opened Retirement
  import opened Writes
  import opened Store
  import opened Protocol
  import opened ProtocolShape
  import opened Undisturbed
  import opened Reconciler

  ghost predicate Steps(w: World, actions: seq<Action>, w': World)
    decreases |actions|
  {
    if actions == [] then w' == w
    else Enabled(w, actions[0]) && Steps(Next(w, actions[0]), actions[1..], w')
  }

  lemma {:induction false} Joined(w: World, a: seq<Action>, m: World, b: seq<Action>, w': World)
    requires Steps(w, a, m) && Steps(m, b, w')
    ensures Steps(w, a + b, w')
    decreases |a|
  {
    if a == [] {
      assert a + b == b;
    } else {
      Joined(Next(w, a[0]), a[1..], m, b, w');
      assert (a + b)[1..] == a[1..] + b;
    }
  }

  lemma OneStep(w: World, a: Action)
    requires Enabled(w, a)
    ensures Steps(w, [a], Next(w, a))
  {
    assert [a][1..] == [];
  }

  /** Where the run stands after `p`. */
  ghost function RunAt(job: Job, p: Progress): Run {
    if p.stopped then Completed(job, p.outcomes) else Writing(job, p.outcomes)
  }

  /** `w'` is `w` with the run of `key` at `run` and the backend at `b`; only the
      placements may differ otherwise. */
  ghost predicate Reaches(w: World, key: ResourceKey, run: Run, b: Backend, w': World) {
    w' == w.(runs := w.runs[key := run], backend := b, placed := w'.placed)
  }

  ghost function AckOf(io: PatchIO): Ack {
    if io.patchFault.None? then Acked else if io.applied then LostButApplied else NotApplied
  }

  ghost function ErrorOf(io: PatchIO): Fault {
    if io.patchFault.None? then Failure else io.patchFault.value
  }

  /** What authorization makes of a fetched identity, next to applyRolePatch. */
  lemma AuthorizeAgrees(w: World, key: ResourceKey, items: seq<ResourceKey>, job: Job,
                        outcomes: seq<IdentityOutcome>, io: PatchIO)
    requires Enumerates(items, w.store) && |outcomes| < |job.plan.patches| && io.readFault.None?
    ensures var patch := NextPatch(job, outcomes); var found := Lookup(w.backend, patch.id);
            var run := AuthorizeStep(w, key, items, io.ownershipFault, io.canceled, job, outcomes, found);
            var (o, b) := ApplyOne(w.backend, job.plan, patch, ViewAt(w.store, w.owners, key, job.uid, items), io);
            if run.Sending? then
              && run.job == job && run.outcomes == outcomes && found == Some(run.target)
              && o == (if io.patchFault.None? then PatchedOutcome(patch, run.next)
                       else FailedOutcome(patch.id, run.target.attrs, io.patchFault.value))
              && b == if AckOf(io).NotApplied? then w.backend else WithAttrs(w.backend, patch.id, run.next)
            else run == AfterOutcome(job, outcomes, o) && b == w.backend
  {}

  /** From a fetched identity on: authorize, and send if authorized. */
  lemma ApplyFetched(w: World, key: ResourceKey, items: seq<ResourceKey>, job: Job, outcomes: seq<IdentityOutcome>,
                     io: PatchIO)
    returns (actions: seq<Action>, w': World)
    requires Enumerates(items, w.store) && |outcomes| < |job.plan.patches| && io.readFault.None?
    requires key in w.runs && w.runs[key] == Fetched(job, outcomes, Lookup(w.backend, NextPatch(job, outcomes).id))
    ensures var (o, b) := ApplyOne(w.backend, job.plan, NextPatch(job, outcomes),
                                   ViewAt(w.store, w.owners, key, job.uid, items), io);
            Steps(w, actions, w') && Reaches(w, key, AfterOutcome(job, outcomes, o), b, w')
  {
    AuthorizeAgrees(w, key, items, job, outcomes, io);
    var m := AuthorizeIsStep(w, key, items, job, outcomes, io);
    var a := Sync(key, Authorize(items, io.ownershipFault, io.canceled));
    actions, w' := [a], m;
    if m.runs[key].Sending? {
      w' := SendIsStep(m, key, io);
      Joined(w, [a], m, [Sync(key, Patch(AckOf(io), ErrorOf(io)))], w');
      actions := [a] + [Sync(key, Patch(AckOf(io), ErrorOf(io)))];
    }
  }

  lemma AuthorizeIsStep(w: World, key: ResourceKey, items: seq<ResourceKey>, job: Job,
                        outcomes: seq<IdentityOutcome>, io: PatchIO)
    returns (w': World)
    requires Enumerates(items, w.store) && |outcomes| < |job.plan.patches|
    requires key in w.runs && w.runs[key] == Fetched(job, outcomes, Lookup(w.backend, NextPatch(job, outcomes).id))
    ensures Steps(w, [Sync(key, Authorize(items, io.ownershipFault, io.canceled))], w')
    ensures w' == w.(runs := w.runs[key := AuthorizeStep(w, key, items, io.ownershipFault, io.canceled, job, outcomes,
                                                         Lookup(w.backend, NextPatch(job, outcomes).id))])
  {
    OneStep(w, Sync(key, Authorize(items, io.ownershipFault, io.canceled)));
    w' := Next(w, Sync(key, Authorize(items, io.ownershipFault, io.canceled)));
  }

  lemma SendIsStep(w: World, key: ResourceKey, io: PatchIO) returns (w': World)
    requires key in w.runs && w.runs[key].Sending? && PatchesLeft(w.runs[key])
    requires NextPatch(w.runs[key].job, w.runs[key].outcomes).id in w.backend
    ensures var run := w.runs[key]; var patch := NextPatch(run.job, run.outcomes);
            && Steps(w, [Sync(key, Patch(AckOf(io), ErrorOf(io)))], w')
            && Reaches(w, key,
                       AfterOutcome(run.job, run.outcomes,
                                    if io.patchFault.None? then PatchedOutcome(patch, run.next)
                                    else FailedOutcome(patch.id, run.target.attrs, io.patchFault.value)),
                       if AckOf(io).NotApplied? then w.backend else WithAttrs(w.backend, patch.id, run.next), w')
  {
    OneStep(w, Sync(key, Patch(AckOf(io), ErrorOf(io))));
    w' := Next(w, Sync(key, Patch(AckOf(io), ErrorOf(io))));
  }

  /** One turn of the write loop, as protocol steps. */
  lemma TurnIsSteps(w: World, key: ResourceKey, items: seq<ResourceKey>, job: Job, p: Progress, io: PatchIO)
    returns (actions: seq<Action>, w': World)
    requires Enumerates(items, w.store) && |p.outcomes| < |job.plan.patches| && !p.stopped
    requires key in w.runs && w.runs[key] == Writing(job, p.outcomes) && w.backend == p.backend
    ensures var p' := WriteOne(p, job.plan, job.plan.patches[|p.outcomes|],
                               ViewAt(w.store, w.owners, key, job.uid, items), io);
            Steps(w, actions, w') && Reaches(w, key, RunAt(job, p'), p'.backend, w')
  {
    if io.canceledBefore {
      OneStep(w, Sync(key, CancelWrites));
      actions, w' := [Sync(key, CancelWrites)], Next(w, Sync(key, CancelWrites));
    } else {
      var fetch := Sync(key, Fetch(io.readFault));
      OneStep(w, fetch);
      var m := Next(w, fetch);
      if io.readFault.Some? {
        actions, w' := [fetch], m;
      } else {
        var more;
        more, w' := ApplyFetched(m, key, items, job, p.outcomes, io);
        Joined(w, [fetch], m, more, w');
        actions := [fetch] + more;
      }
    }
  }

  lemma {:induction false} WritesAreSteps(w: World, key: ResourceKey, items: seq<ResourceKey>, job: Job,
                                          io: nat -> PatchIO, n: nat)
    returns (actions: seq<Action>, w': World)
    requires Enumerates(items, w.store) && n <= |job.plan.patches|
    requires key in w.runs && w.runs[key] == Writing(job, [])
    ensures var p := WriteUpTo(w.backend, job.plan, ViewAt(w.store, w.owners, key, job.uid, items), io, n);
            Steps(w, actions, w') && Reaches(w, key, RunAt(job, p), p.backend, w')
    decreases n
  {
    if n == 0 {
      actions, w' := [], w;
    } else {
      var view := ViewAt(w.store, w.owners, key, job.uid, items);
      OutcomeIds(w.backend, job.plan, view, io, n - 1);
      var before, m := WritesAreSteps(w, key, items, job, io, n - 1);
      actions, w' := OneMoreTurn(w, before, m, key, items, job, WriteUpTo(w.backend, job.plan, view, io, n - 1),
                                 io(n - 1), n - 1);
    }
  }

  lemma OneMoreTurn(w: World, before: seq<Action>, m: World, key: ResourceKey, items: seq<ResourceKey>, job: Job,
                    p: Progress, io: PatchIO, n: nat) returns (actions: seq<Action>, w': World)
    requires Enumerates(items, w.store) && n < |job.plan.patches| && (!p.stopped ==> |p.outcomes| == n)
    requires Steps(w, before, m) && Reaches(w, key, RunAt(job, p), p.backend, m)
    ensures var p' := WriteOne(p, job.plan, job.plan.patches[n], ViewAt(w.store, w.owners, key, job.uid, items), io);
            Steps(w, actions, w') && Reaches(w, key, RunAt(job, p'), p'.backend, w')
  {
    if p.stopped { return before, m; }
    var more;
    more, w' := TurnIsSteps(m, key, items, job, p, io);
    Joined(w, before, m, more, w');
    actions := before + more;
    ResetRun(w.runs, key, m.runs[key], w'.runs[key]);
  }

  /** The write phase and completion, as protocol steps. */
  lemma PhaseIsSteps(w: World, key: ResourceKey, items: seq<ResourceKey>, job: Job, io: nat -> PatchIO,
                     canceledAfter: bool)
    returns (actions: seq<Action>, w': World)
    requires Enumerates(items, w.store)
    requires key in w.runs && w.runs[key] == Writing(job, [])
    ensures var (b, completion) := Written(w.backend, job, ViewAt(w.store, w.owners, key, job.uid, items), io,
                                           canceledAfter);
            Steps(w, actions, w') && Reaches(w, key, Finishing(job.uid, Some(completion)), b, w')
  {
    var view := ViewAt(w.store, w.owners, key, job.uid, items);
    var p := WriteUpTo(w.backend, job.plan, view, io, |job.plan.patches|);
    OutcomeIds(w.backend, job.plan, view, io, |job.plan.patches|);
    var m;
    actions, m := WritesAreSteps(w, key, items, job, io, |job.plan.patches|);
    if p.stopped {
      w' := m;
    } else {
      var end := Sync(key, EndWrites(canceledAfter));
      OneStep(m, end);
      w' := Next(m, end);
      Joined(w, actions, m, [end], w');
      actions := actions + [end];
    }
  }

  /** Recording the claims, as protocol steps. */
  lemma RecordIsSteps(w: World, key: ResourceKey, job: Job, ack: Ack) returns (actions: seq<Action>, w': World)
    requires key in w.runs && w.runs[key] == Planned(job)
    ensures var (store, rev, ok) := Reconciler.Recorded(w.store, w.rev, key, job.uid, job.input.self,
                                                        job.plan.managed, ack);
            && Steps(w, actions, w')
            && w' == w.(store := store, rev := rev,
                        runs := w.runs[key := if ok then Writing(job, []) else Finishing(job.uid, None)])
  {
    if Elems(job.input.self.managed) == Elems(job.plan.managed) {
      OneStep(w, Sync(key, SkipRecord));
      return [Sync(key, SkipRecord)], Next(w, Sync(key, SkipRecord));
    }
    var read := Sync(key, ReadToRecord);
    OneStep(w, read);
    var m := Next(w, read);
    if m.runs[key].Finishing? { return [read], m; }
    var record := Sync(key, Record(ack));
    OneStep(m, record);
    w' := Next(m, record);
    Joined(w, [read], m, [record], w');
    actions := [read] + [record];
  }

  lemma PlanningIsSteps(w: World, key: ResourceKey, uid: nat, snap: Snapshot, items: seq<ResourceKey>)
    returns (actions: seq<Action>, w': World)
    requires key !in w.runs && uid <= w.rev
    requires Enumerates(items, w.store) && ListingOf(snap.identities, w.backend)
    ensures Steps(w, actions, w') && w' == w.(runs := w.runs[key := PlanStep(w, key, items, uid, snap)])
  {
    var m;
    actions, m := ListingIsSteps(w, key, uid, snap);
    w' := MakePlanIsStep(m, key, uid, snap, items);
    Joined(w, actions, m, [Sync(key, MakePlan(items))], w');
    actions := actions + [Sync(key, MakePlan(items))];
    PlanStepIgnoresRuns(w, m, key, items, uid, snap);
    ResetRun(w.runs, key, Listed(uid, snap), PlanStep(w, key, items, uid, snap));
  }

  lemma ListingIsSteps(w: World, key: ResourceKey, uid: nat, snap: Snapshot) returns (actions: seq<Action>, w': World)
    requires key !in w.runs && uid <= w.rev && ListingOf(snap.identities, w.backend)
    ensures Steps(w, actions, w') && w' == w.(runs := w.runs[key := Listed(uid, snap)])
  {
    var m := Next(w, Begin(key, uid));
    OneStep(w, Begin(key, uid));
    OneStep(m, Sync(key, List(snap)));
    w' := Next(m, Sync(key, List(snap)));
    Joined(w, [Begin(key, uid)], m, [Sync(key, List(snap))], w');
    actions := [Begin(key, uid)] + [Sync(key, List(snap))];
    ResetRun(w.runs, key, Started(uid), Listed(uid, snap));
  }

  lemma MakePlanIsStep(w: World, key: ResourceKey, uid: nat, snap: Snapshot, items: seq<ResourceKey>)
    returns (w': World)
    requires Enumerates(items, w.store) && key in w.runs && w.runs[key] == Listed(uid, snap)
    ensures Steps(w, [Sync(key, MakePlan(items))], w')
    ensures w' == w.(runs := w.runs[key := PlanStep(w, key, items, uid, snap)])
  {
    OneStep(w, Sync(key, MakePlan(items)));
    w' := Next(w, Sync(key, MakePlan(items)));
  }

  lemma PlanStepIgnoresRuns(w: World, w': World, key: ResourceKey, items: seq<ResourceKey>, uid: nat, snap: Snapshot)
    requires Enumerates(items, w.store) && w'.store == w.store && w'.owners == w.owners
    ensures PlanStep(w', key, items, uid, snap) == PlanStep(w, key, items, uid, snap)
  {}

  lemma RunFromIgnoresRuns(w: World, w': World, key: ResourceKey, job: Job, items: seq<ResourceKey>,
                           record: Ack, io: nat -> PatchIO, canceledAfter: bool)
    requires Enumerates(items, w.store)
    requires w'.store == w.store && w'.rev == w.rev && w'.backend == w.backend && w'.owners == w.owners
    ensures RunFrom(w', key, job, items, record, io, canceledAfter) ==
            RunFrom(w, key, job, items, record, io, canceledAfter)
  {}

  lemma PlannedIsSteps(w: World, key: ResourceKey, job: Job, items: seq<ResourceKey>,
                       record: Ack, io: nat -> PatchIO, canceledAfter: bool)
    returns (actions: seq<Action>, w': World)
    requires Enumerates(items, w.store) && key in w.runs && w.runs[key] == Planned(job)
    ensures var end := RunFrom(w, key, job, items, record, io, canceledAfter);
            && Steps(w, actions, w')
            && w'.store == end.store && w'.rev == end.rev && w'.backend == end.backend && w'.owners == w.owners
            && w'.runs == w.runs[key := Finishing(job.uid, end.completion)]
  {
    var m;
    actions, m := RecordIsSteps(w, key, job, record);
    w' := m;
    RecordedKeys(w.store, w.rev, key, job.uid, job.input.self, job.plan.managed, record);
    if m.runs[key].Writing? {
      var rest;
      rest, w' := PhaseIsSteps(m, key, items, job, io, canceledAfter);
      Joined(w, actions, m, rest, w');
      actions := actions + rest;
    }
  }

  lemma ResetRun(runs: map<ResourceKey, Run>, key: ResourceKey, a: Run, b: Run)
    ensures runs[key := a][key := b] == runs[key := b]
  {}

  /** The same, against the world before planning. */
  lemma RestIsSteps(w: World, m: World, key: ResourceKey, job: Job, items: seq<ResourceKey>,
                    record: Ack, io: nat -> PatchIO, canceledAfter: bool)
    returns (actions: seq<Action>, w': World)
    requires Enumerates(items, w.store) && m == w.(runs := w.runs[key := Planned(job)])
    ensures var end := RunFrom(w, key, job, items, record, io, canceledAfter);
            && Steps(m, actions, w')
            && w'.store == end.store && w'.rev == end.rev && w'.backend == end.backend && w'.owners == w.owners
            && w'.runs == w.runs[key := Finishing(job.uid, end.completion)]
  {
    actions, w' := PlannedIsSteps(m, key, job, items, record, io, canceledAfter);
    RunFromIgnoresRuns(w, m, key, job, items, record, io, canceledAfter);
    var end := RunFrom(w, key, job, items, record, io, canceledAfter);
    ResetRun(w.runs, key, Planned(job), Finishing(job.uid, end.completion));
  }

  /** Every undisturbed run, for every pattern of faults, is a sequence of
      protocol steps that leaves the same store, the same backend and the same
      completion. */
  lemma RunIsBehavior(w: World, key: ResourceKey, uid: nat, snap: Snapshot, items: seq<ResourceKey>,
                      record: Ack, io: nat -> PatchIO, canceledAfter: bool)
    returns (actions: seq<Action>, w': World)
    requires key !in w.runs && uid <= w.rev
    requires Enumerates(items, w.store) && ListingOf(snap.identities, w.backend)
    ensures var end := RunOf(w, key, uid, snap, items, record, io, canceledAfter);
            && Steps(w, actions, w')
            && w'.store == end.store && w'.rev == end.rev && w'.backend == end.backend && w'.owners == w.owners
            && w'.runs == w.runs[key := Finishing(uid, end.completion)]
  {
    var m;
    actions, m := PlanningIsSteps(w, key, uid, snap, items);
    var run := PlanStep(w, key, items, uid, snap);
    PlanStepCases(w, key, items, uid, snap, record, io, canceledAfter);
    w' := m;
    if run.Planned? {
      var rest;
      rest, w' := RestIsSteps(w, m, key, run.job, items, record, io, canceledAfter);
      Joined(w, actions, m, rest, w');
      actions := actions + rest;
    }
  }

  /** The final status write, as protocol steps: read, then write what was read
      with the completion's values, or nothing when the instance is gone. */
  lemma StatusWriteIsSteps(w: World, key: ResourceKey, uid: nat, completion: Option<Completion>, ack: Ack)
    returns (actions: seq<Action>, w': World)
    requires key in w.runs && w.runs[key] == Finishing(uid, completion)
    ensures var (store, rev, _) := StatusWritten(w.store, w.rev, key, uid, completion, ack);
            Steps(w, actions, w') && w' == w.(store := store, rev := rev, runs := w.runs - {key})
  {
    var read := Sync(key, ReadToPersist);
    OneStep(w, read);
    var m := Next(w, read);
    if !Live(w.store, key, uid) { return [read], m; }
    var write := Sync(key, Persist(ack));
    OneStep(m, write);
    w' := Next(m, write);
    Joined(w, [read], m, [write], w');
    actions := [read] + [write];
    ForgetRun(w.runs, key, m.runs[key]);
  }

  lemma ForgetRun(runs: map<ResourceKey, Run>, key: ResourceKey, run: Run)
    ensures runs[key := run] - {key} == runs - {key}
    ensures key !in runs ==> runs - {key} == runs
  {}

  /** Every undisturbed reconcile, status write included, is a sequence of
      protocol steps that leaves the same store and backend and no run behind. */
  lemma ReconcileIsBehavior(w: World, t: Turn) returns (actions: seq<Action>, w': World)
    requires t.key !in w.runs && t.uid <= w.rev
    requires Enumerates(t.items, w.store) && ListingOf(t.snap.identities, w.backend)
    ensures Steps(w, actions, w') && w' == ReconcileOf(w, t).(placed := w'.placed)
  {
    var end := RunOfTurn(w, t);
    var m, more;
    actions, m := RunIsBehavior(w, t.key, t.uid, t.snap, t.items, t.record, t.io, t.canceledAfter);
    more, w' := StatusWriteIsSteps(m, t.key, t.uid, end.completion, t.persist);
    Joined(w, actions, m, more, w');
    actions := actions + more;
    ForgetRun(w.runs, t.key, Finishing(t.uid, end.completion));
  }

  /** Steps taken after a behaviour extend it, so all that holds of behaviours
      holds of the reconciler's runs. */
  lemma {:induction false} StepsExtendBehavior(ws: seq<World>, actions: seq<Action>, more: seq<Action>, w': World)
    returns (ws': seq<World>)
    requires Behavior(ws, actions) && Steps(ws[|ws| - 1], more, w')
    ensures Behavior(ws', actions + more) && ws' != [] && ws'[|ws'| - 1] == w'
    decreases |more|
  {
    if more == [] {
      ws' := ws;
      assert actions + more == actions;
    } else {
      var next := Next(ws[|ws| - 1], more[0]);
      ws' := StepsExtendBehavior(ws + [next], actions + [more[0]], more[1..], w');
      assert actions + [more[0]] + more[1..] == actions + more;
    }
  }
}
