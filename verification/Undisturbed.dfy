/** One run from start to end with nothing else going on: calls may fail, with
    or without effect, and the run may be canceled, but nobody else writes. */
module Undisturbed {
  import opened Text
  import opened SortedSets
  import opened Ownership
  import opened Directory
  import opened Planner
  import opened PlanProperties
  import opened Retirement
  import opened Writes
  import opened Store
  import opened Protocol
  import opened ProtocolShape

  /** How the calls made for one patch turn out. */
  datatype PatchIO = PatchIO(
    canceledBefore: bool, readFault: Option<Fault>, ownershipFault: Option<Fault>,
    canceled: bool, patchFault: Option<Fault>, applied: bool)

  function Lookup(b: Backend, id: Str): Option<Identity> {
    if id in b then Some(b[id]) else None
  }

  function WithAttrs(b: Backend, id: Str, attrs: seq<Str>): Backend {
    if id in b then b[id := b[id].(attrs := attrs)] else b
  }

  /** applyRolePatch: its outcome and the backend it leaves. */
  ghost function ApplyOne(b: Backend, plan: Plan, patch: IdentityPatch, view: Option<View>,
                          io: PatchIO): (IdentityOutcome, Backend) {
    if io.readFault.Some? then (FailedOutcome(patch.id, [], io.readFault.value), b)
    else
      var found := Lookup(b, patch.id);
      var attrs := if found.Some? then found.value.attrs else [];
      if io.ownershipFault.Some? then (FailedOutcome(patch.id, attrs, io.ownershipFault.value), b)
      else if view.None? then (FailedOutcome(patch.id, attrs, Failure), b)
      else
        match Decide(plan, patch, found, view.value)
        case Report(o) => (o, b)
        case Send(next) =>
          if io.canceled then (FailedOutcome(patch.id, attrs, Canceled), b)
          else if io.patchFault.Some? then
            (FailedOutcome(patch.id, attrs, io.patchFault.value),
             if io.applied then WithAttrs(b, patch.id, next) else b)
          else (PatchedOutcome(patch, next), WithAttrs(b, patch.id, next))
  }

  datatype Progress = Progress(outcomes: seq<IdentityOutcome>, backend: Backend, stopped: bool)

  /** One turn of writeRolePlan's loop, unless an earlier one stopped it. */
  ghost function WriteOne(p: Progress, plan: Plan, patch: IdentityPatch, view: Option<View>, io: PatchIO): Progress {
    if p.stopped then p
    else if io.canceledBefore then Progress(p.outcomes + [FailedOutcome(patch.id, [], Canceled)], p.backend, true)
    else
      var (o, b') := ApplyOne(p.backend, plan, patch, view, io);
      Progress(p.outcomes + [o], b', StopsWrites(o))
  }

  /** writeRolePlan after the first `n` patches. */
  ghost function WriteUpTo(b: Backend, plan: Plan, view: Option<View>, io: nat -> PatchIO, n: nat): Progress
    requires n <= |plan.patches|
  {
    if n == 0 then Progress([], b, false)
    else WriteOne(WriteUpTo(b, plan, view, io, n - 1), plan, plan.patches[n - 1], view, io(n - 1))
  }

  ghost function WritePhase(b: Backend, plan: Plan, view: Option<View>, io: nat -> PatchIO,
                            canceledAfter: bool): Progress {
    var p := WriteUpTo(b, plan, view, io, |plan.patches|);
    if !p.stopped && canceledAfter then p.(outcomes := p.outcomes + [FailedOutcome(EMPTY, [], Canceled)]) else p
  }

  // ---- What a write phase leaves alone ----

  /** `b'` differs from `b` in managed values of attribute lists at most. */
  ghost predicate OnlyManaged(b: Backend, b': Backend, managed: set<Str>) {
    && b'.Keys == b.Keys
    && forall id | id in b ::
         b'[id] == b[id].(attrs := b'[id].attrs) && Drop(b'[id].attrs, managed) == Drop(b[id].attrs, managed)
  }

  ghost predicate GrantsAreManaged(plan: Plan) {
    forall k | 0 <= k < |plan.patches| :: Elems(plan.patches[k].granted) <= Elems(plan.managed)
  }

  lemma PlansGrantManaged(input: PlanInput, cap: nat)
    ensures GrantsAreManaged(PlanOf(input, cap))
  {
    forall k | 0 <= k < |PlanOf(input, cap).patches|
      ensures Elems(PlanOf(input, cap).patches[k].granted) <= Elems(PlanOf(input, cap).managed)
    {
      var i := PlannedGrants(input, cap, k);
    }
  }

  /** One patch either leaves the backend alone or merges into one identity. */
  lemma ApplyOneCases(b: Backend, plan: Plan, patch: IdentityPatch, view: Option<View>, io: PatchIO)
    ensures var b' := ApplyOne(b, plan, patch, view, io).1;
            || b' == b
            || (&& patch.id in b
                && b' == WithAttrs(b, patch.id, Merge(b[patch.id].attrs, Elems(plan.managed), Elems(patch.granted))))
  {}

  lemma ApplyOneFrame(b: Backend, plan: Plan, patch: IdentityPatch, view: Option<View>, io: PatchIO)
    requires Elems(patch.granted) <= Elems(plan.managed)
    ensures var b' := ApplyOne(b, plan, patch, view, io).1;
            && OnlyManaged(b, b', Elems(plan.managed))
            && forall id | id in b && id != patch.id :: b'[id] == b[id]
  {
    ApplyOneCases(b, plan, patch, view, io);
    if patch.id in b {
      MergeFrame(b[patch.id].attrs, Elems(plan.managed), Elems(patch.granted));
    }
  }

  lemma WriteOneFrame(b: Backend, p: Progress, plan: Plan, patch: IdentityPatch, view: Option<View>, io: PatchIO)
    requires Elems(patch.granted) <= Elems(plan.managed) && OnlyManaged(b, p.backend, Elems(plan.managed))
    ensures var b' := WriteOne(p, plan, patch, view, io).backend;
            && OnlyManaged(b, b', Elems(plan.managed))
            && forall id | id in b && id != patch.id :: b'[id] == p.backend[id]
  {
    ApplyOneFrame(p.backend, plan, patch, view, io);
  }

  /** The whole write phase, early stops and failures included, keeps every
      value outside C + P in order and multiplicity, and leaves every identity
      without a planned patch as it was. */
  lemma {:induction false} WriteFrame(b: Backend, plan: Plan, view: Option<View>, io: nat -> PatchIO, n: nat)
    requires n <= |plan.patches| && GrantsAreManaged(plan)
    ensures var b' := WriteUpTo(b, plan, view, io, n).backend;
            && OnlyManaged(b, b', Elems(plan.managed))
            && forall id | id in b && (forall k | 0 <= k < n :: plan.patches[k].id != id) :: b'[id] == b[id]
  {
    if n > 0 {
      WriteFrame(b, plan, view, io, n - 1);
      WriteOneFrame(b, WriteUpTo(b, plan, view, io, n - 1), plan, plan.patches[n - 1], view, io(n - 1));
    }
  }

  // ---- When a write phase stops ----

  lemma {:induction false} StoppedStays(b: Backend, plan: Plan, view: Option<View>, io: nat -> PatchIO, n: nat, m: nat)
    requires n <= m <= |plan.patches| && WriteUpTo(b, plan, view, io, n).stopped
    ensures WriteUpTo(b, plan, view, io, m) == WriteUpTo(b, plan, view, io, n)
  {
    if n < m { StoppedStays(b, plan, view, io, n, m - 1); }
  }

  /** The outcome ends the phase: a conflict, or a canceled run. */
  ghost predicate Halts(o: IdentityOutcome) {
    o.kind == Conflicted || o.fault == Some(Canceled)
  }

  ghost predicate GoesOn(outcomes: seq<IdentityOutcome>) {
    forall k | 0 <= k < |outcomes| :: !Halts(outcomes[k])
  }

  /** The phase goes through its patches one by one until an outcome halts it,
      and stops with that one. */
  lemma {:induction false} StopsExactly(b: Backend, plan: Plan, view: Option<View>, io: nat -> PatchIO, n: nat)
    requires n <= |plan.patches|
    ensures var p := WriteUpTo(b, plan, view, io, n);
            if p.stopped then
              p.outcomes != [] && Halts(p.outcomes[|p.outcomes| - 1]) && GoesOn(p.outcomes[..|p.outcomes| - 1])
            else |p.outcomes| == n && GoesOn(p.outcomes)
  {
    if n > 0 {
      StopsExactly(b, plan, view, io, n - 1);
      var p := WriteUpTo(b, plan, view, io, n - 1);
      if !p.stopped { TurnStops(p, plan, plan.patches[n - 1], view, io(n - 1)); }
    }
  }

  lemma TurnStops(p: Progress, plan: Plan, patch: IdentityPatch, view: Option<View>, io: PatchIO)
    requires !p.stopped && GoesOn(p.outcomes)
    ensures var p' := WriteOne(p, plan, patch, view, io);
            && |p'.outcomes| == |p.outcomes| + 1 && p'.outcomes[..|p.outcomes|] == p.outcomes
            && (p'.stopped <==> Halts(p'.outcomes[|p.outcomes|]))
            && (!p'.stopped ==> GoesOn(p'.outcomes))
  {
    var p' := WriteOne(p, plan, patch, view, io);
    assert p'.outcomes[..|p.outcomes|] == p.outcomes;
  }

  /** Nothing is written after an outcome that halts. */
  lemma NothingAfterHalt(b: Backend, plan: Plan, view: Option<View>, io: nat -> PatchIO, n: nat)
    requires n < |plan.patches|
    requires var p := WriteUpTo(b, plan, view, io, n + 1); p.outcomes != [] && Halts(p.outcomes[|p.outcomes| - 1])
    ensures var done := WriteUpTo(b, plan, view, io, |plan.patches|);
            done == WriteUpTo(b, plan, view, io, n + 1)
  {
    StopsExactly(b, plan, view, io, n + 1);
    StoppedStays(b, plan, view, io, n + 1, |plan.patches|);
  }

  lemma {:induction false} StopIsTrouble(b: Backend, plan: Plan, view: Option<View>, io: nat -> PatchIO, n: nat)
    requires n <= |plan.patches| && WriteUpTo(b, plan, view, io, n).stopped
    ensures !NoTrouble(WriteUpTo(b, plan, view, io, n).outcomes)
  {
    if WriteUpTo(b, plan, view, io, n - 1).stopped {
      StopIsTrouble(b, plan, view, io, n - 1);
    } else {
      TurnTrouble(WriteUpTo(b, plan, view, io, n - 1), plan, plan.patches[n - 1], view, io(n - 1));
    }
  }

  lemma TurnTrouble(p: Progress, plan: Plan, patch: IdentityPatch, view: Option<View>, io: PatchIO)
    requires !p.stopped && WriteOne(p, plan, patch, view, io).stopped
    ensures !NoTrouble(WriteOne(p, plan, patch, view, io).outcomes)
  {
    var last := WriteOne(p, plan, patch, view, io).outcomes[|p.outcomes|];
    assert last.kind.Failed? || last.kind.Conflicted?;
  }

  /** A run that is canceled, before any of its patches or after the last, does
      not complete Ready. */
  lemma CanceledIsNotReady(b: Backend, plan: Plan, previous: seq<Str>, view: Option<View>, io: nat -> PatchIO,
                           canceledAfter: bool)
    requires canceledAfter || exists n: nat | n < |plan.patches| :: io(n).canceledBefore
    ensures var outcomes := WritePhase(b, plan, view, io, canceledAfter).outcomes;
            !CompletionOf(CompletionInput(plan, previous, outcomes, Unset, true)).ready
  {
    var n := |plan.patches|;
    var p, done := WriteUpTo(b, plan, view, io, n), WritePhase(b, plan, view, io, canceledAfter);
    if k: nat :| k < n && io(k).canceledBefore {
      StoppedStays(b, plan, view, io, k + 1, n);
    }
    if p.stopped {
      StopIsTrouble(b, plan, view, io, n);
    } else {
      FailureIsTrouble(p.outcomes, FailedOutcome(EMPTY, [], Canceled));
    }
    if CompletionOf(CompletionInput(plan, previous, done.outcomes, Unset, true)).ready {
      OutcomesOfReady(plan, previous, done.outcomes);
    }
  }

  // ---- The report cap ----

  lemma {:induction false} WritesIgnoreReport(b: Backend, p: Plan, q: Plan, view: Option<View>, io: nat -> PatchIO,
                                              n: nat)
    requires q == p.(unmatched := q.unmatched) && n <= |p.patches|
    ensures WriteUpTo(b, p, view, io, n) == WriteUpTo(b, q, view, io, n)
  {
    if n > 0 {
      WritesIgnoreReport(b, p, q, view, io, n - 1);
      TurnIgnoresReport(WriteUpTo(b, p, view, io, n - 1), p, q, p.patches[n - 1], view, io(n - 1));
    }
  }

  lemma TurnIgnoresReport(done: Progress, p: Plan, q: Plan, patch: IdentityPatch, view: Option<View>, io: PatchIO)
    requires q == p.(unmatched := q.unmatched)
    ensures WriteOne(done, p, patch, view, io) == WriteOne(done, q, patch, view, io)
  {
    var found := Lookup(done.backend, patch.id);
    assert view.Some? ==> Decide(p, patch, found, view.value) == Decide(q, patch, found, view.value);
  }

  /** The report cap interferes with nothing: under any two caps the plans agree
      apart from their reports, each a prefix of the full report and cut only by
      its cap, and the write phases and completions that follow are identical. */
  lemma CapIsNonInterfering(b: Backend, input: PlanInput, c: nat, d: nat, view: Option<View>, io: nat -> PatchIO,
                            canceledAfter: bool, reason: Reason, recorded: bool)
    ensures var p, q := PlanOf(input, c), PlanOf(input, d);
            && q == p.(unmatched := q.unmatched)
            && p.unmatched <= AllReports(input) && (|p.unmatched| == c || p.unmatched == AllReports(input))
            && |p.unmatched| <= c
            && WritePhase(b, p, view, io, canceledAfter) == WritePhase(b, q, view, io, canceledAfter)
            && var outcomes := WritePhase(b, p, view, io, canceledAfter).outcomes;
               CompletionOf(CompletionInput(p, input.self.managed, outcomes, reason, recorded)) ==
               CompletionOf(CompletionInput(q, input.self.managed, outcomes, reason, recorded))
  {
    var p := PlanOf(input, c);
    WritesIgnoreReport(b, p, PlanOf(input, d), view, io, |p.patches|);
  }

  // ---- Synced is sound ----

  ghost predicate NoTrouble(outcomes: seq<IdentityOutcome>) {
    forall k | 0 <= k < |outcomes| :: !outcomes[k].kind.Failed? && !outcomes[k].kind.Conflicted?
  }

  /** Within the managed values, the identity holds exactly the patch's grants. */
  ghost predicate Settled(b: Backend, plan: Plan, patch: IdentityPatch) {
    patch.id in b && Elems(b[patch.id].attrs) * Elems(plan.managed) == Elems(patch.granted)
  }

  lemma DecideOnPatchable(plan: Plan, patch: IdentityPatch, identity: Identity, view: View)
    requires MayPatch(identity, view.owners, patch)
    ensures var next := Merge(identity.attrs, Elems(plan.managed), Elems(patch.granted));
            match Decide(plan, patch, Some(identity), view)
            case Report(o) => o.kind.Conflicted? || (o.kind.Observed? && o.fault.None?
                                                     && Elems(identity.attrs) == Elems(next))
            case Send(sent) => sent == next
  {}

  lemma ApplyOneSettles(b: Backend, plan: Plan, patch: IdentityPatch, view: Option<View>, io: PatchIO)
    requires Elems(patch.granted) <= Elems(plan.managed)
    requires patch.id in b && (view.Some? ==> MayPatch(b[patch.id], view.value.owners, patch))
    requires !ApplyOne(b, plan, patch, view, io).0.kind.Failed?
             && !ApplyOne(b, plan, patch, view, io).0.kind.Conflicted?
    ensures Settled(ApplyOne(b, plan, patch, view, io).1, plan, patch)
    ensures !StopsWrites(ApplyOne(b, plan, patch, view, io).0)
  {
    MergeFrame(b[patch.id].attrs, Elems(plan.managed), Elems(patch.granted));
    if view.Some? {
      DecideOnPatchable(plan, patch, b[patch.id], view.value);
    }
  }

  /** Every patch's identity is there and may be patched. */
  ghost predicate Patchable(b: Backend, plan: Plan, view: Option<View>) {
    forall k | 0 <= k < |plan.patches| :: PatchableNow(b, plan.patches[k], view)
  }

  ghost predicate PatchableNow(b: Backend, patch: IdentityPatch, view: Option<View>) {
    patch.id in b && (view.Some? ==> MayPatch(b[patch.id], view.value.owners, patch))
  }

  ghost predicate SettledUpTo(p: Progress, plan: Plan, n: nat) {
    n <= |plan.patches| && !p.stopped && forall k | 0 <= k < n :: Settled(p.backend, plan, plan.patches[k])
  }

  ghost predicate DistinctPatches(plan: Plan) {
    forall j, k | 0 <= j < k < |plan.patches| :: plan.patches[j].id != plan.patches[k].id
  }

  /** Unless there was trouble, the first `n` patches have settled. */
  ghost predicate Fine(p: Progress, plan: Plan, n: nat) {
    NoTrouble(p.outcomes) ==> SettledUpTo(p, plan, n)
  }

  lemma {:induction false} WriteSettles(b: Backend, plan: Plan, view: Option<View>, io: nat -> PatchIO, n: nat)
    requires n <= |plan.patches| && GrantsAreManaged(plan) && DistinctPatches(plan) && Patchable(b, plan, view)
    ensures Fine(WriteUpTo(b, plan, view, io, n), plan, n)
  {
    if n > 0 {
      WriteSettles(b, plan, view, io, n - 1);
      StillAsListed(b, plan, view, io, n - 1);
      StaysFine(WriteUpTo(b, plan, view, io, n - 1), plan, view, io(n - 1), n - 1);
    }
  }

  lemma StaysFine(p: Progress, plan: Plan, view: Option<View>, io: PatchIO, n: nat)
    requires n < |plan.patches| && GrantsAreManaged(plan) && DistinctPatches(plan)
    requires Fine(p, plan, n) && PatchableNow(p.backend, plan.patches[n], view)
    ensures Fine(WriteOne(p, plan, plan.patches[n], view, io), plan, n + 1)
  {
    if NoTrouble(WriteOne(p, plan, plan.patches[n], view, io).outcomes) {
      TroubleStays(p, plan, plan.patches[n], view, io);
      SettlesOneMore(p, plan, view, io, n);
    }
  }

  lemma StillAsListed(b: Backend, plan: Plan, view: Option<View>, io: nat -> PatchIO, n: nat)
    requires n < |plan.patches| && GrantsAreManaged(plan) && DistinctPatches(plan) && Patchable(b, plan, view)
    ensures PatchableNow(WriteUpTo(b, plan, view, io, n).backend, plan.patches[n], view)
  {
    assert PatchableNow(b, plan.patches[n], view);
    WriteFrame(b, plan, view, io, n);
  }

  lemma TroubleStays(p: Progress, plan: Plan, patch: IdentityPatch, view: Option<View>, io: PatchIO)
    requires NoTrouble(WriteOne(p, plan, patch, view, io).outcomes)
    ensures NoTrouble(p.outcomes)
  {
    var p' := WriteOne(p, plan, patch, view, io);
    assert forall k | 0 <= k < |p.outcomes| :: p.outcomes[k] == p'.outcomes[k];
  }

  lemma SettlesOneMore(p: Progress, plan: Plan, view: Option<View>, io: PatchIO, n: nat)
    requires n < |plan.patches| && GrantsAreManaged(plan) && DistinctPatches(plan)
    requires SettledUpTo(p, plan, n) && PatchableNow(p.backend, plan.patches[n], view)
    requires NoTrouble(WriteOne(p, plan, plan.patches[n], view, io).outcomes)
    ensures SettledUpTo(WriteOne(p, plan, plan.patches[n], view, io), plan, n + 1)
  {
    var p' := WriteOne(p, plan, plan.patches[n], view, io);
    var (o, b') := ApplyOne(p.backend, plan, plan.patches[n], view, io);
    assert p'.outcomes[|p.outcomes|].kind.Failed? || p'.outcomes[|p.outcomes|] == o;
    ApplyOneSettles(p.backend, plan, plan.patches[n], view, io);
    ApplyOneFrame(p.backend, plan, plan.patches[n], view, io);
  }

  lemma WriteOneOutcome(p: Progress, plan: Plan, patch: IdentityPatch, view: Option<View>, io: PatchIO)
    ensures var p' := WriteOne(p, plan, patch, view, io);
            if p.stopped then p' == p
            else |p'.outcomes| == |p.outcomes| + 1 && p'.outcomes[..|p.outcomes|] == p.outcomes
                 && p'.outcomes[|p.outcomes|].id == patch.id
  {
    assert ApplyOne(p.backend, plan, patch, view, io).0.id == patch.id;
    var p' := WriteOne(p, plan, patch, view, io);
    assert p'.outcomes[..|p.outcomes|] == p.outcomes;
  }

  lemma {:induction false} OutcomeIds(b: Backend, plan: Plan, view: Option<View>, io: nat -> PatchIO, n: nat)
    requires n <= |plan.patches|
    ensures var p := WriteUpTo(b, plan, view, io, n);
            && |p.outcomes| <= n && (!p.stopped ==> |p.outcomes| == n)
            && forall k | 0 <= k < |p.outcomes| :: p.outcomes[k].id == plan.patches[k].id
  {
    if n > 0 {
      OutcomeIds(b, plan, view, io, n - 1);
      var p := WriteUpTo(b, plan, view, io, n - 1);
      WriteOneOutcome(p, plan, plan.patches[n - 1], view, io(n - 1));
      var p' := WriteUpTo(b, plan, view, io, n);
      assert forall k | 0 <= k < |p.outcomes| :: p'.outcomes[k] == p'.outcomes[..|p.outcomes|][k];
    }
  }

  lemma {:induction false} UncleanStays(holders: seq<RetirementHolder>, retired: set<Str>,
                                        outcomes: seq<IdentityOutcome>, n: nat, id: Str)
    requires n <= |outcomes| && id in HolderIds(holders)
    requires forall k | 0 <= k < |outcomes| :: outcomes[k].id != id
    ensures id in Unclean(holders, retired, outcomes, n)
  {
    if n > 0 { UncleanStays(holders, retired, outcomes, n - 1, id); }
  }

  /** A listed identity, after the run, is as Synced promises. */
  ghost predicate AsPromised(b: Backend, input: PlanInput, identity: Identity) {
    && identity.id in b
    && (Eligible(input, identity) ==> Elems(b[identity.id].attrs) * Managed(input) == GrantsTo(input, identity))
    && Elems(b[identity.id].attrs) * Retired(input) == {}
  }

  lemma FailureIsTrouble(outcomes: seq<IdentityOutcome>, o: IdentityOutcome)
    requires o.kind.Failed?
    ensures !NoTrouble(outcomes + [o])
  {
    assert (outcomes + [o])[|outcomes|] == o;
  }

  lemma OutcomesOfReady(plan: Plan, previous: seq<Str>, outcomes: seq<IdentityOutcome>)
    requires CompletionOf(CompletionInput(plan, previous, outcomes, Unset, true)).ready
    ensures NoTrouble(outcomes) && !Pending(plan, previous, outcomes)
    ensures Elems(CompletionOf(CompletionInput(plan, previous, outcomes, Unset, true)).managed) == Elems(plan.current)
  {
    TallyIff(Elems(plan.ownership.conflicts), outcomes, |outcomes|);
  }

  lemma PatchesArePatchable(b: Backend, input: PlanInput, cap: nat, view: Option<View>)
    requires ListingOf(input.identities, b)
    requires view.Some? ==> view.value.owners == input.owners
    ensures Patchable(b, PlanOf(input, cap), view) && DistinctPatches(PlanOf(input, cap))
  {
    PatchesHaveDistinctIds(input, |input.identities|);
    forall k | 0 <= k < |PlanOf(input, cap).patches|
      ensures PatchableNow(b, PlanOf(input, cap).patches[k], view)
    {
      var i := PlannedGrants(input, cap, k);
    }
  }

  /** Identities without a patch are as they were. */
  ghost predicate UnplannedKept(b: Backend, b': Backend, plan: Plan) {
    forall id | id in b && (forall k | 0 <= k < |plan.patches| :: plan.patches[k].id != id) ::
      id in b' && b'[id] == b[id]
  }

  /** An eligible listed identity ends settled: by its patch, or as it was. */
  lemma EligibleSettled(b: Backend, b': Backend, input: PlanInput, cap: nat, i: nat)
    requires ListingOf(input.identities, b) && i < |input.identities| && Eligible(input, input.identities[i])
    requires PlanOf(input, cap).ownership.conflicts == []
    requires forall k | 0 <= k < |PlanOf(input, cap).patches| ::
               Settled(b', PlanOf(input, cap), PlanOf(input, cap).patches[k])
    requires UnplannedKept(b, b', PlanOf(input, cap))
    ensures AsPromised(b', input, input.identities[i])
  {
    var identity, plan := input.identities[i], PlanOf(input, cap);
    assert identity.id in b && b[identity.id] == identity;
    if PatchFor(input, identity) != [] {
      var k := PatchIsPlanned(input, |input.identities|, i);
      assert Settled(b', plan, plan.patches[k]);
    } else {
      SettledIff(input, identity);
      UnpatchedId(input, cap, i);
    }
    assert Elems(b'[identity.id].attrs) * Managed(input) == GrantsTo(input, identity);
    assert Elems(b'[identity.id].attrs) * Retired(input) == GrantsTo(input, identity) * Retired(input);
  }

  /** No patch names a listed identity that got none. */
  lemma UnpatchedId(input: PlanInput, cap: nat, i: nat)
    requires DistinctIds(input.identities) && i < |input.identities| && PatchFor(input, input.identities[i]) == []
    ensures forall k | 0 <= k < |PlanOf(input, cap).patches| ::
              PlanOf(input, cap).patches[k].id != input.identities[i].id
  {
    forall k | 0 <= k < |PlanOf(input, cap).patches|
      ensures PlanOf(input, cap).patches[k].id != input.identities[i].id {
      var j := PlannedGrants(input, cap, k);
      assert j != i;
    }
  }

  /** An ineligible listed identity is left alone, and if it held a retired value
      the run would be pending. */
  lemma IneligibleClean(b: Backend, b': Backend, input: PlanInput, cap: nat, outcomes: seq<IdentityOutcome>, i: nat)
    requires ListingOf(input.identities, b) && i < |input.identities| && !Eligible(input, input.identities[i])
    requires |outcomes| <= |PlanOf(input, cap).patches|
    requires forall k | 0 <= k < |outcomes| :: outcomes[k].id == PlanOf(input, cap).patches[k].id
    requires !Pending(PlanOf(input, cap), input.self.managed, outcomes)
    requires UnplannedKept(b, b', PlanOf(input, cap))
    ensures AsPromised(b', input, input.identities[i])
  {
    var identity := input.identities[i];
    UnpatchedId(input, cap, i);
    if Elems(identity.attrs) * Retired(input) != {} {
      HoldersAreExact(input, |input.identities|, identity.id);
      UncleanStays(HoldersFor(input, |input.identities|), Retired(input), outcomes, |outcomes|, identity.id);
    }
  }

  /** Synced is sound end to end: when an undisturbed run completes Ready, every
      eligible listed identity holds exactly its grants within C + P, and no
      listed identity, skipped ones included, holds a retired value. */
  lemma SyncedIsSound(b: Backend, input: PlanInput, cap: nat, view: Option<View>, io: nat -> PatchIO,
                      canceledAfter: bool)
    requires ListingOf(input.identities, b)
    requires PlanOf(input, cap).ownership.conflicts == []
    requires view.Some? ==> view.value.owners == input.owners
    requires var p := WritePhase(b, PlanOf(input, cap), view, io, canceledAfter);
             CompletionOf(CompletionInput(PlanOf(input, cap), input.self.managed, p.outcomes, Unset, true)).ready
    ensures var b' := WritePhase(b, PlanOf(input, cap), view, io, canceledAfter).backend;
            && (forall i | 0 <= i < |input.identities| :: AsPromised(b', input, input.identities[i]))
            && OnlyManaged(b, b', Managed(input))
  {
    var plan := PlanOf(input, cap);
    var n := |plan.patches|;
    var p, done := WriteUpTo(b, plan, view, io, n), WritePhase(b, plan, view, io, canceledAfter);
    OutcomesOfReady(plan, input.self.managed, done.outcomes);
    FailureIsTrouble(p.outcomes, FailedOutcome(EMPTY, [], Canceled));
    PlansGrantManaged(input, cap);
    PatchesArePatchable(b, input, cap, view);
    WriteSettles(b, plan, view, io, n);
    WriteFrame(b, plan, view, io, n);
    OutcomeIds(b, plan, view, io, n);
    forall i | 0 <= i < |input.identities| ensures AsPromised(p.backend, input, input.identities[i]) {
      if Eligible(input, input.identities[i]) {
        EligibleSettled(b, p.backend, input, cap, i);
      } else {
        IneligibleClean(b, p.backend, input, cap, p.outcomes, i);
      }
    }
  }

  // ---- Two syncs on the same identities ----

  /** The same identities, listed again. */
  ghost function Relisted(ids: seq<Identity>, b: Backend): seq<Identity>
    requires forall i | 0 <= i < |ids| :: ids[i].id in b
  {
    seq(|ids|, i requires 0 <= i < |ids| => b[ids[i].id])
  }

  /** After a Synced run, the next plan from the same directory has no patch. */
  lemma SyncedThenQuiet(b: Backend, b': Backend, input: PlanInput, recorded: seq<Str>)
    requires ListingOf(input.identities, b) && OnlyManaged(b, b', Managed(input))
    requires forall i | 0 <= i < |input.identities| :: AsPromised(b', input, input.identities[i])
    requires Elems(recorded) == Elems(input.scope.current)
    ensures var again := input.(identities := Relisted(input.identities, b'), self := input.self.(managed := recorded));
            PatchesFor(again, |again.identities|) == []
  {
    var again := input.(identities := Relisted(input.identities, b'), self := input.self.(managed := recorded));
    forall i | 0 <= i < |again.identities| ensures PatchFor(again, again.identities[i]) == [] {
      assert b[input.identities[i].id] == input.identities[i];
      QuietOne(b', input, again, i);
    }
    AllSettled(again, |again.identities|);
  }

  lemma QuietOne(b': Backend, input: PlanInput, again: PlanInput, i: nat)
    requires i < |input.identities| && AsPromised(b', input, input.identities[i])
    requires SameLabels(input.identities, again.identities) && again.identities[i] == b'[input.identities[i].id]
    requires again == input.(identities := again.identities, self := again.self)
    requires Elems(again.self.managed) == Elems(input.scope.current)
    ensures PatchFor(again, again.identities[i]) == []
  {
    SameEligibility(input, again, i);
    if Eligible(again, again.identities[i]) {
      var attrs := again.identities[i].attrs;
      assert Managed(again) == Elems(input.scope.current);
      assert Elems(attrs) * Managed(again) == (Elems(attrs) * Managed(input)) * Managed(again);
      SettledIff(again, again.identities[i]);
    }
  }

  /** A sync with no patches left, whose claims are recorded, keeps having none
      after any run, failed or not, of another sync that passes the ownership
      check and whose own recorded claims are disjoint from it. */
  lemma SyncsDoNotFight(a: PlanInput, b: Backend, other: PlanInput, cap: nat, view: Option<View>, io: nat -> PatchIO,
                        canceledAfter: bool)
    requires ListingOf(a.identities, b) && PatchesFor(a, |a.identities|) == []
    requires Managed(a) <= Elems(a.self.managed)
    requires Foreign(other.self, other.others) && a.self in other.others
    requires Elems(a.self.managed) !! Elems(other.self.managed)
    requires PlanOf(other, cap).ownership.conflicts == []
    ensures var b' := WritePhase(b, PlanOf(other, cap), view, io, canceledAfter).backend;
            && b'.Keys == b.Keys
            && PatchesFor(a.(identities := Relisted(a.identities, b')), |a.identities|) == []
  {
    var plan := PlanOf(other, cap);
    var b' := WriteUpTo(b, plan, view, io, |plan.patches|).backend;
    PlansGrantManaged(other, cap);
    WriteFrame(b, plan, view, io, |plan.patches|);
    ClearOfClaim(other, a.self, cap);
    var ids' := Relisted(a.identities, b');
    forall i | 0 <= i < |ids'|
      ensures ids'[i] == a.identities[i].(attrs := ids'[i].attrs)
      ensures Elems(ids'[i].attrs) - Managed(other) == Elems(a.identities[i].attrs) - Managed(other)
    {
      assert b[a.identities[i].id] == a.identities[i];
      assert Elems(Drop(ids'[i].attrs, Managed(other))) == Elems(ids'[i].attrs) - Managed(other);
    }
    StaysSettled(a, ids', Managed(other));
  }
}
