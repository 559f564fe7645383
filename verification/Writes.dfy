/** The write phase: what each fresh read authorizes, and what the phase adds up to. */
module Writes {
  import opened Text
  import opened SortedSets
  import opened Ownership
  import opened Directory
  import opened Planner
  import opened PlanProperties
  import opened Retirement

  type Backend = map<Str, Identity>

  /** What readOwnership returns. */
  datatype View = View(self: SyncClaim, others: seq<SyncClaim>, owners: seq<IdentityOwner>)

  datatype Decision = Report(outcome: IdentityOutcome) | Send(next: seq<Str>)

  ghost predicate MayPatch(found: Identity, owners: seq<IdentityOwner>, patch: IdentityPatch) {
    !Owned(found, owners) && found.externalId != EMPTY && Fold(found.externalId) == Fold(patch.externalId)
  }

  ghost function Decide(plan: Plan, patch: IdentityPatch, found: Option<Identity>, view: View): Decision {
    var attrs := if found.Some? then found.value.attrs else [];
    var conflicts := ResolvedOwnership(view.self, plan.managed, view.others).conflicts;
    if conflicts != [] then Report(IdentityOutcome(patch.id, Conflicted, attrs, None, conflicts))
    else if found.None? then Report(IdentityOutcome(patch.id, Deleted, attrs, None, []))
    else if !MayPatch(found.value, view.owners, patch) then Report(IdentityOutcome(patch.id, Skipped, attrs, None, []))
    else
      var next := Merge(attrs, Elems(plan.managed), Elems(patch.granted));
      if Elems(attrs) == Elems(next) then Report(IdentityOutcome(patch.id, Observed, attrs, None, []))
      else Send(next)
  }

  function PatchedOutcome(patch: IdentityPatch, next: seq<Str>): IdentityOutcome {
    IdentityOutcome(patch.id, Patched, next, None, [])
  }

  /** `o` is a result that applying `patch` can give, for some freshly read identity
      and some ownership view, whatever happened around it. */
  ghost predicate Answers(plan: Plan, patch: IdentityPatch, o: IdentityOutcome) {
    o.id == patch.id &&
    (o.kind.Failed? || exists found, view :: DecidedBy(plan, patch, found, view, o))
  }

  ghost predicate DecidedBy(plan: Plan, patch: IdentityPatch, found: Option<Identity>, view: View, o: IdentityOutcome) {
    match Decide(plan, patch, found, view)
    case Report(r) => o == r
    case Send(next) => o == PatchedOutcome(patch, next)
  }

  /** Unless it failed, conflicted or skipped, an answer shows no retired value. */
  lemma CleanAnswer(plan: Plan, patch: IdentityPatch, o: IdentityOutcome, retired: set<Str>)
    requires Answers(plan, patch, o) && !o.kind.Failed? && !o.kind.Conflicted? && !o.kind.Skipped?
    requires Elems(patch.granted) <= Elems(plan.managed)
    requires retired <= Elems(plan.managed) && retired !! Elems(patch.granted)
    ensures Elems(o.attrs) * retired == {}
  {
    var found, view :| DecidedBy(plan, patch, found, view, o);
    if found.Some? {
      MergeFrame(found.value.attrs, Elems(plan.managed), Elems(patch.granted));
    }
  }

  // ---- When cleanup is pending ----

  lemma {:induction false} UncleanIff(holders: seq<RetirementHolder>, retired: set<Str>,
                                      outcomes: seq<IdentityOutcome>, n: nat, id: Str)
    requires n <= |outcomes|
    requires forall a, b | 0 <= a < b < |outcomes| :: outcomes[a].id != outcomes[b].id
    requires forall k | 0 <= k < |outcomes| :: !outcomes[k].kind.Failed? && !outcomes[k].kind.Conflicted?
    requires forall k | 0 <= k < |outcomes| && outcomes[k].kind.Deleted? :: Elems(outcomes[k].attrs) * retired == {}
    ensures id in Unclean(holders, retired, outcomes, n) <==>
            || (exists k | 0 <= k < n :: outcomes[k].id == id && Elems(outcomes[k].attrs) * retired != {})
            || (id in HolderIds(holders) && forall k | 0 <= k < n :: outcomes[k].id != id)
  {
    if n > 0 { UncleanIff(holders, retired, outcomes, n - 1, id); }
  }

  ghost predicate SkippedHolding(o: IdentityOutcome, retired: set<Str>) {
    o.kind.Skipped? && Elems(o.attrs) * retired != {}
  }

  ghost predicate IneligibleHolding(input: PlanInput, identity: Identity) {
    !Eligible(input, identity) && Elems(identity.attrs) * Retired(input) != {}
  }

  /** Every patch was answered, and none by a failure or a conflict. */
  ghost predicate CleanPhase(plan: Plan, outcomes: seq<IdentityOutcome>) {
    && |outcomes| == |plan.patches|
    && forall k | 0 <= k < |outcomes| ::
         Answers(plan, plan.patches[k], outcomes[k]) && !outcomes[k].kind.Failed? && !outcomes[k].kind.Conflicted?
  }

  lemma PlannedGrants(input: PlanInput, cap: nat, k: nat) returns (i: nat)
    requires k < |PlanOf(input, cap).patches|
    ensures i < |input.identities| && PatchFor(input, input.identities[i]) == [PlanOf(input, cap).patches[k]]
    ensures Eligible(input, input.identities[i])
    ensures Elems(PlanOf(input, cap).managed) == Managed(input)
    ensures Elems(PlanOf(input, cap).patches[k].granted) == GrantsTo(input, input.identities[i])
    ensures Elems(PlanOf(input, cap).patches[k].granted) <= Elems(input.scope.current)
  {
    i := PatchComesFrom(input, |input.identities|, k);
  }

  lemma OutcomeClean(input: PlanInput, cap: nat, outcomes: seq<IdentityOutcome>, k: nat)
    requires CleanPhase(PlanOf(input, cap), outcomes) && k < |outcomes|
    ensures !outcomes[k].kind.Skipped? ==> Elems(outcomes[k].attrs) * Retired(input) == {}
  {
    if !outcomes[k].kind.Skipped? {
      var plan := PlanOf(input, cap);
      var i := PlannedGrants(input, cap, k);
      CleanAnswer(plan, plan.patches[k], outcomes[k], Retired(input));
    }
  }

  /** Without failures or conflicts, a run ends CleanupPending exactly when an
      ineligible listed identity holds a retired value or a skipped fresh read
      still shows one. */
  lemma PendingExactly(input: PlanInput, cap: nat, outcomes: seq<IdentityOutcome>)
    requires DistinctIds(input.identities)
    requires PlanOf(input, cap).ownership.conflicts == []
    requires CleanPhase(PlanOf(input, cap), outcomes)
    ensures var done := CompletionInput(PlanOf(input, cap), input.self.managed, outcomes, Unset, true);
            CompletionOf(done).reason == CleanupPending <==>
            || (exists i | 0 <= i < |input.identities| :: IneligibleHolding(input, input.identities[i]))
            || (exists k | 0 <= k < |outcomes| :: SkippedHolding(outcomes[k], Retired(input)))
  {
    var plan := PlanOf(input, cap);
    TallyIff(Elems(plan.ownership.conflicts), outcomes, |outcomes|);
    PendingIff(input, cap, outcomes);
  }

  /** What the lemmas below need of a clean phase, stated on outcomes alone. */
  ghost predicate CleanOutcomes(input: PlanInput, outcomes: seq<IdentityOutcome>) {
    && |outcomes| == |PatchesFor(input, |input.identities|)|
    && forall k | 0 <= k < |outcomes| ::
         && outcomes[k].id == PatchesFor(input, |input.identities|)[k].id
         && !outcomes[k].kind.Failed? && !outcomes[k].kind.Conflicted?
         && (Elems(outcomes[k].attrs) * Retired(input) == {} || outcomes[k].kind.Skipped?)
  }

  lemma PendingIff(input: PlanInput, cap: nat, outcomes: seq<IdentityOutcome>)
    requires DistinctIds(input.identities)
    requires PlanOf(input, cap).ownership.conflicts == []
    requires CleanPhase(PlanOf(input, cap), outcomes)
    ensures Pending(PlanOf(input, cap), input.self.managed, outcomes) <==>
            || (exists i | 0 <= i < |input.identities| :: IneligibleHolding(input, input.identities[i]))
            || (exists k | 0 <= k < |outcomes| :: SkippedHolding(outcomes[k], Retired(input)))
  {
    forall k | 0 <= k < |outcomes|
      ensures Elems(outcomes[k].attrs) * Retired(input) == {} || outcomes[k].kind.Skipped?
    {
      OutcomeClean(input, cap, outcomes, k);
    }
    assert CleanOutcomes(input, outcomes);
    UncleanSomewhere(input, outcomes);
  }

  lemma UncleanSomewhere(input: PlanInput, outcomes: seq<IdentityOutcome>)
    requires DistinctIds(input.identities) && CleanOutcomes(input, outcomes)
    ensures Unclean(HoldersFor(input, |input.identities|), Retired(input), outcomes, |outcomes|) != {} <==>
            || (exists i | 0 <= i < |input.identities| :: IneligibleHolding(input, input.identities[i]))
            || (exists k | 0 <= k < |outcomes| :: SkippedHolding(outcomes[k], Retired(input)))
  {
    var unclean := Unclean(HoldersFor(input, |input.identities|), Retired(input), outcomes, |outcomes|);
    if i :| 0 <= i < |input.identities| && IneligibleHolding(input, input.identities[i]) {
      UncleanCases(input, outcomes, input.identities[i].id);
      assert input.identities[i].id in unclean;
    }
    if k :| 0 <= k < |outcomes| && SkippedHolding(outcomes[k], Retired(input)) {
      UncleanCases(input, outcomes, outcomes[k].id);
      assert outcomes[k].id in unclean;
    }
    if id :| id in unclean {
      UncleanCases(input, outcomes, id);
    }
  }

  lemma UncleanCases(input: PlanInput, outcomes: seq<IdentityOutcome>, id: Str)
    requires DistinctIds(input.identities) && CleanOutcomes(input, outcomes)
    ensures id in Unclean(HoldersFor(input, |input.identities|), Retired(input), outcomes, |outcomes|) <==>
            || (exists i | 0 <= i < |input.identities| ::
                input.identities[i].id == id && IneligibleHolding(input, input.identities[i]))
            || (exists k | 0 <= k < |outcomes| :: outcomes[k].id == id && SkippedHolding(outcomes[k], Retired(input)))
  {
    PatchesHaveDistinctIds(input, |input.identities|);
    UncleanIff(HoldersFor(input, |input.identities|), Retired(input), outcomes, |outcomes|, id);
    HoldersAreExact(input, |input.identities|, id);
    if i :| && 0 <= i < |input.identities| && input.identities[i].id == id
            && Elems(input.identities[i].attrs) * Retired(input) != {} {
      AnsweredIffEligible(input, outcomes, i);
    }
  }

  /** A listed identity with a retired value gets an outcome iff it is eligible. */
  lemma AnsweredIffEligible(input: PlanInput, outcomes: seq<IdentityOutcome>, i: nat)
    requires DistinctIds(input.identities) && i < |input.identities| && CleanOutcomes(input, outcomes)
    requires Elems(input.identities[i].attrs) * Retired(input) != {}
    ensures Eligible(input, input.identities[i]) <==> exists k | 0 <= k < |outcomes| ::
              outcomes[k].id == input.identities[i].id
  {
    if Eligible(input, input.identities[i]) {
      RetiredForcesPatch(input, input.identities[i]);
      var k := PatchIsPlanned(input, |input.identities|, i);
      assert outcomes[k].id == input.identities[i].id;
    }
    if k :| 0 <= k < |outcomes| && outcomes[k].id == input.identities[i].id {
      var j := PatchComesFrom(input, |input.identities|, k);
      assert input.identities[j].id == input.identities[i].id;
    }
  }
}
