/** Completing a run: what its outcomes say, and which claims it may forget. */
module Retirement {
  import opened Text
  import opened SortedSets
  import opened Ownership
  import opened Planner
  import opened PlanBuilder
  import opened PlanProperties

  datatype Fault = Canceled | Failure
  datatype OutcomeKind = Observed | Patched | Deleted | Skipped | Failed | Conflicted
  datatype IdentityOutcome = IdentityOutcome(
    id: Str, kind: OutcomeKind, attrs: seq<Str>, fault: Option<Fault>, conflicts: seq<Str>)

  /** Unset is the empty reason. */
  datatype Reason = Unset | Conflict | WouldRemoveAll | ZitiError | CleanupPending | Synced

  datatype CompletionInput = CompletionInput(
    plan: Plan, previous: seq<Str>, outcomes: seq<IdentityOutcome>, blockReason: Reason, claimRecorded: bool)
  datatype Completion = Completion(
    managed: seq<Str>, ready: bool, reason: Reason, advanceLastSyncTime: bool, updated: nat,
    fault: Option<Fault>, conflicts: seq<Str>)

  predicate StopsWrites(o: IdentityOutcome) {
    o.kind.Conflicted? || o.fault == Some(Canceled)
  }

  // ---- What the outcomes add up to ----

  datatype Tally = Tally(updated: nat, failed: bool, fault: Option<Fault>, conflicted: bool, conflicts: set<Str>)

  function Tallied(conflicts: set<Str>, outcomes: seq<IdentityOutcome>, n: nat): Tally
    requires n <= |outcomes|
  {
    if n == 0 then Tally(0, false, None, false, conflicts) else
      var t, o := Tallied(conflicts, outcomes, n - 1), outcomes[n - 1];
      match o.kind
      case Patched => t.(updated := t.updated + 1)
      case Failed => t.(failed := true, fault := if t.fault.None? then o.fault else t.fault)
      case Conflicted => t.(conflicted := true, conflicts := t.conflicts + Elems(o.conflicts))
      case _ => t
  }

  lemma {:induction false} TallyIff(conflicts: set<Str>, outcomes: seq<IdentityOutcome>, n: nat)
    requires n <= |outcomes|
    ensures Tallied(conflicts, outcomes, n).failed <==> exists k | 0 <= k < n :: outcomes[k].kind.Failed?
    ensures Tallied(conflicts, outcomes, n).conflicted <==> exists k | 0 <= k < n :: outcomes[k].kind.Conflicted?
  {
    if n > 0 { TallyIff(conflicts, outcomes, n - 1); }
  }

  /** Identities not known to be clear of retired values after `n` outcomes. */
  ghost function Unclean(holders: seq<RetirementHolder>, retired: set<Str>, outcomes: seq<IdentityOutcome>,
                         n: nat): set<Str>
    requires n <= |outcomes|
  {
    if n == 0 then HolderIds(holders) else
      var before, o := Unclean(holders, retired, outcomes, n - 1), outcomes[n - 1];
      match o.kind
      case Failed => before
      case Conflicted => before
      case Deleted => before - {o.id}
      case _ => if Elems(o.attrs) * retired == {} then before - {o.id} else before + {o.id}
  }

  ghost function RetiredBy(plan: Plan, previous: seq<Str>): set<Str> {
    Elems(previous) - Elems(plan.current)
  }

  ghost predicate Pending(plan: Plan, previous: seq<Str>, outcomes: seq<IdentityOutcome>) {
    Unclean(plan.holders, RetiredBy(plan, previous), outcomes, |outcomes|) != {}
  }

  ghost function CompletionOf(input: CompletionInput): Completion {
    var blocked := Elems(input.plan.ownership.conflicts);
    if !input.claimRecorded then
      Completion(Sorted(Elems(input.previous)), false, input.blockReason, false, 0, None, Sorted(blocked))
    else
      var t := Tallied(blocked, input.outcomes, |input.outcomes|);
      var reason := if t.failed then ZitiError else if t.conflicted then Conflict else input.blockReason;
      var kept := Sorted(Elems(input.plan.managed));
      if reason != Unset then
        Completion(kept, false, reason, false, t.updated, t.fault, Sorted(t.conflicts))
      else if Pending(input.plan, input.previous, input.outcomes) then
        Completion(kept, false, CleanupPending, false, t.updated, t.fault, Sorted(t.conflicts))
      else
        Completion(Sorted(Elems(input.plan.current)), true, Synced, true, t.updated, t.fault, Sorted(t.conflicts))
  }

  // ---- What a completion means, in terms of the outcomes alone ----

  function PatchedAt(outcomes: seq<IdentityOutcome>, n: nat): set<nat>
    requires n <= |outcomes|
  {
    set k: nat | k < n && outcomes[k].kind == Patched
  }

  lemma {:induction false} UpdatedCounts(conflicts: set<Str>, outcomes: seq<IdentityOutcome>, n: nat)
    requires n <= |outcomes|
    ensures Tallied(conflicts, outcomes, n).updated == |PatchedAt(outcomes, n)|
  {
    if n == 0 {
      assert PatchedAt(outcomes, 0) == {};
    } else {
      UpdatedCounts(conflicts, outcomes, n - 1);
      assert PatchedAt(outcomes, n) ==
        PatchedAt(outcomes, n - 1) + if outcomes[n - 1].kind == Patched then {n - 1} else {};
    }
  }

  /** The first failure that says why. */
  ghost predicate FirstFault(outcomes: seq<IdentityOutcome>, n: nat, k: nat)
    requires n <= |outcomes|
  {
    && k < n && outcomes[k].kind == Failed && outcomes[k].fault.Some?
    && forall j | 0 <= j < k :: !(outcomes[j].kind == Failed && outcomes[j].fault.Some?)
  }

  lemma {:induction false} FaultIsFirst(conflicts: set<Str>, outcomes: seq<IdentityOutcome>, n: nat)
    requires n <= |outcomes|
    ensures var fault := Tallied(conflicts, outcomes, n).fault;
            && (fault.None? <==> forall j | 0 <= j < n :: !(outcomes[j].kind == Failed && outcomes[j].fault.Some?))
            && forall k: nat | FirstFault(outcomes, n, k) :: fault == outcomes[k].fault
  {
    if n > 0 {
      FaultIsFirst(conflicts, outcomes, n - 1);
      forall k: nat | FirstFault(outcomes, n, k) && k < n - 1 ensures FirstFault(outcomes, n - 1, k) {}
    }
  }

  lemma {:induction false} ConflictsAddUp(conflicts: set<Str>, outcomes: seq<IdentityOutcome>, n: nat, v: Str)
    requires n <= |outcomes|
    ensures v in Tallied(conflicts, outcomes, n).conflicts <==>
            v in conflicts || exists k | 0 <= k < n :: outcomes[k].kind == Conflicted && v in outcomes[k].conflicts
  {
    if n > 0 { ConflictsAddUp(conflicts, outcomes, n - 1, v); }
  }

  ghost predicate AnyOf(outcomes: seq<IdentityOutcome>, kind: OutcomeKind) {
    exists k | 0 <= k < |outcomes| :: outcomes[k].kind == kind
  }

  /** Before claims are recorded nothing is forgotten or claimed and the run is
      not ready, whatever the outcomes. */
  lemma UnrecordedCompletion(input: CompletionInput)
    requires !input.claimRecorded
    ensures var c := CompletionOf(input);
            && !c.ready && !c.advanceLastSyncTime && c.reason == input.blockReason && c.updated == 0 && c.fault.None?
            && StrictlySorted(c.managed) && Elems(c.managed) == Elems(input.previous)
            && StrictlySorted(c.conflicts) && Elems(c.conflicts) == Elems(input.plan.ownership.conflicts)
  {}

  /** Once they are: a failure outranks a conflict and a conflict any other
      reason; all of C + P is kept unless the run is ready; patches are counted;
      the first fault is passed on; and the conflicts of the plan and of all
      outcomes are collected. */
  lemma CompletionMeans(input: CompletionInput)
    requires input.claimRecorded
    ensures var c, outcomes := CompletionOf(input), input.outcomes;
            && c.reason == (if AnyOf(outcomes, Failed) then ZitiError else if AnyOf(outcomes, Conflicted) then Conflict
                            else if input.blockReason != Unset then input.blockReason
                            else if Pending(input.plan, input.previous, outcomes) then CleanupPending else Synced)
            && (c.ready <==> !AnyOf(outcomes, Failed) && !AnyOf(outcomes, Conflicted) && input.blockReason == Unset
                             && !Pending(input.plan, input.previous, outcomes))
            && (c.advanceLastSyncTime <==> c.ready)
            && c.updated == |PatchedAt(outcomes, |outcomes|)|
            && StrictlySorted(c.managed)
            && Elems(c.managed) == Elems(if c.ready then input.plan.current else input.plan.managed)
  {
    TallyIff(Elems(input.plan.ownership.conflicts), input.outcomes, |input.outcomes|);
    UpdatedCounts(Elems(input.plan.ownership.conflicts), input.outcomes, |input.outcomes|);
  }

  lemma CompletionCollects(input: CompletionInput)
    requires input.claimRecorded
    ensures var c, outcomes := CompletionOf(input), input.outcomes;
            && (c.fault.None? <==>
                forall j | 0 <= j < |outcomes| :: !(outcomes[j].kind == Failed && outcomes[j].fault.Some?))
            && (forall k: nat | FirstFault(outcomes, |outcomes|, k) :: c.fault == outcomes[k].fault)
            && StrictlySorted(c.conflicts)
            && (forall v :: v in c.conflicts <==>
                  || v in input.plan.ownership.conflicts
                  || exists k | 0 <= k < |outcomes| :: outcomes[k].kind == Conflicted && v in outcomes[k].conflicts)
  {
    var blocked := Elems(input.plan.ownership.conflicts);
    var t := Tallied(blocked, input.outcomes, |input.outcomes|);
    FaultIsFirst(blocked, input.outcomes, |input.outcomes|);
    forall v ensures v in CompletionOf(input).conflicts <==>
                     || v in input.plan.ownership.conflicts
                     || exists k | 0 <= k < |input.outcomes| ::
                          input.outcomes[k].kind == Conflicted && v in input.outcomes[k].conflicts
    {
      ConflictsAddUp(blocked, input.outcomes, |input.outcomes|, v);
      assert v in CompletionOf(input).conflicts <==> v in Elems(Sorted(t.conflicts));
    }
  }

  /** The outcome settles what is known of its identity. */
  predicate Decisive(o: IdentityOutcome) {
    o.kind == Observed || o.kind == Patched || o.kind == Skipped || o.kind == Deleted
  }

  /** Outcome `k` is the last decisive one on `id`. */
  ghost predicate LastWord(outcomes: seq<IdentityOutcome>, n: nat, k: nat, id: Str)
    requires n <= |outcomes|
  {
    && k < n && outcomes[k].id == id && Decisive(outcomes[k])
    && forall j | k < j < n :: !(outcomes[j].id == id && Decisive(outcomes[j]))
  }

  /** An identity counts as unclean exactly when the last decisive outcome on it
      is not a deletion and shows a retired value, or there is none and the
      snapshot had it as a holder. */
  lemma {:induction false} UncleanExactly(holders: seq<RetirementHolder>, retired: set<Str>,
                                          outcomes: seq<IdentityOutcome>, n: nat, id: Str)
    requires n <= |outcomes|
    ensures id in Unclean(holders, retired, outcomes, n) <==>
            || (exists k: nat | LastWord(outcomes, n, k, id) ::
                  outcomes[k].kind != Deleted && Elems(outcomes[k].attrs) * retired != {})
            || (id in HolderIds(holders) && forall k | 0 <= k < n :: !(outcomes[k].id == id && Decisive(outcomes[k])))
  {
    if n > 0 {
      UncleanExactly(holders, retired, outcomes, n - 1, id);
      var o := outcomes[n - 1];
      if o.id == id && Decisive(o) {
        assert LastWord(outcomes, n, n - 1, id);
      } else {
        forall k: nat ensures LastWord(outcomes, n, k, id) <==> LastWord(outcomes, n - 1, k, id) {}
      }
    }
  }

  // ---- The loops ----

  method RetirementPending(input: CompletionInput) returns (pending: bool)
    ensures pending <==> Pending(input.plan, input.previous, input.outcomes)
  {
    var retired := RetiredValues(input.previous, input.plan.current);
    var holders := SeedHolders(input.plan.holders);
    for n := 0 to |input.outcomes|
      invariant holders.Keys == Unclean(input.plan.holders, Elems(retired), input.outcomes, n)
    {
      var o := input.outcomes[n];
      match o.kind {
        case Failed =>
        case Conflicted =>
        case Deleted =>
          holders := holders - {o.id};
        case _ =>
          var values := KeptValues(retired, o.attrs);
          if values == [] {
            holders := holders - {o.id};
          } else {
            var sorted := SortedSet(values);
            holders := holders[o.id := sorted];
          }
      }
    }
    pending := |holders.Keys| > 0;
  }

  method SeedHolders(list: seq<RetirementHolder>) returns (holders: map<Str, seq<Str>>)
    ensures holders.Keys == HolderIds(list)
  {
    holders := map[];
    for i := 0 to |list|
      invariant holders.Keys == set k | 0 <= k < i :: list[k].id
    {
      var had := if list[i].id in holders then holders[list[i].id] else [];
      var merged := SortedSet(had + list[i].values);
      holders := holders[list[i].id := merged];
    }
  }

  method KeptValues(retired: seq<Str>, attrs: seq<Str>) returns (values: seq<Str>)
    ensures values == [] <==> Elems(attrs) * Elems(retired) == {}
  {
    values := [];
    for i := 0 to |retired|
      invariant Elems(values) == Elems(attrs) * Elems(retired[..i])
    {
      ElemsTakeOne(retired, i);
      if retired[i] in attrs {
        ElemsAppend(values, [retired[i]]);
        values := values + [retired[i]];
      }
    }
    assert retired[..|retired|] == retired;
    NonEmptyElems(values);
  }

  method TallyOutcomes(conflicts: seq<Str>, outcomes: seq<IdentityOutcome>)
    returns (updated: nat, failed: bool, fault: Option<Fault>, conflicted: bool, all: seq<Str>)
    ensures Tally(updated, failed, fault, conflicted, Elems(all)) == Tallied(Elems(conflicts), outcomes, |outcomes|)
    ensures all == Sorted(Elems(all))
  {
    updated, failed, fault, conflicted := 0, false, None, false;
    all := SortedSet(conflicts);
    for n := 0 to |outcomes|
      invariant Tally(updated, failed, fault, conflicted, Elems(all)) == Tallied(Elems(conflicts), outcomes, n)
      invariant all == Sorted(Elems(all))
    {
      var o := outcomes[n];
      match o.kind {
        case Patched => updated := updated + 1;
        case Failed =>
          failed := true;
          if fault.None? { fault := o.fault; }
        case Conflicted =>
          conflicted := true;
          ElemsAppend(all, o.conflicts);
          var both := SortedSet(all + o.conflicts);
          assert Elems(both) == Elems(all) + Elems(o.conflicts);
          all := both;
        case _ =>
      }
    }
  }

  method Complete(input: CompletionInput) returns (r: Completion)
    ensures r == CompletionOf(input)
  {
    if !input.claimRecorded {
      var previous := SortedSet(input.previous);
      var conflicts := SortedSet(input.plan.ownership.conflicts);
      return Completion(previous, false, input.blockReason, false, 0, None, conflicts);
    }
    var updated, failed, fault, conflicted, conflicts := TallyOutcomes(input.plan.ownership.conflicts, input.outcomes);
    var reason := if failed then ZitiError else if conflicted then Conflict else input.blockReason;
    var kept := SortedSet(input.plan.managed);
    if reason != Unset {
      return Completion(kept, false, reason, false, updated, fault, conflicts);
    }
    var pending := RetirementPending(input);
    if pending {
      return Completion(kept, false, CleanupPending, false, updated, fault, conflicts);
    }
    var current := SortedSet(input.plan.current);
    return Completion(current, true, Synced, true, updated, fault, conflicts);
  }
}
