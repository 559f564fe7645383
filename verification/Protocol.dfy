/** The role sync protocol, step by step: any number of syncs run at once, each
    step talks to the API server or the backend once, a run can crash between
    any two steps, calls can fail with or without effect, and the environment
    edits identities and resources in between. */
module Protocol {
  import opened Text
  import opened SortedSets
  import opened Ownership
  import opened Directory
  import opened Planner
  import opened Retirement
  import opened Writes
  import opened Store

  /** What a run reads before it reads ownership. */
  datatype Snapshot = Snapshot(scope: RoleScope, members: Members, property: Str, identities: seq<Identity>)

  datatype Job = Job(uid: nat, input: PlanInput, plan: Plan)

  /** Where a run stands. */
  datatype Run =
    | Started(uid: nat)
    | Listed(uid: nat, snap: Snapshot)
    | Planned(job: Job)
    | Recording(job: Job, read: Stored)
    | Writing(job: Job, outcomes: seq<IdentityOutcome>)
    | Fetched(job: Job, outcomes: seq<IdentityOutcome>, found: Option<Identity>)
    | Sending(job: Job, outcomes: seq<IdentityOutcome>, target: Identity, view: View, next: seq<Str>)
    | Finishing(uid: nat, completion: Option<Completion>)
    | Persisting(uid: nat, completion: Option<Completion>, read: Stored)

  /** Sync `key`, as instance `uid`, granted `value` to identity `id` by a PATCH
      and the identity has held it ever since. */
  datatype Placement = Placement(key: ResourceKey, uid: nat, id: Str, value: Str)

  datatype World = World(
    store: Claims, rev: nat, backend: Backend, owners: seq<IdentityOwner>,
    runs: map<ResourceKey, Run>, placed: set<Placement>)

  /** How a write call ends: a lost reply leaves its effect behind. */
  datatype Ack = Acked | LostButApplied | NotApplied

  /** One step of a run that has begun. */
  datatype Step =
    | List(snap: Snapshot)
    | Abort
    | MakePlan(items: seq<ResourceKey>)
    | SkipRecord
    | ReadToRecord
    | Record(ack: Ack)
    | CancelWrites
    | Fetch(fault: Option<Fault>)
    | Authorize(items: seq<ResourceKey>, fault: Option<Fault>, canceled: bool)
    | Patch(ack: Ack, error: Fault)
    | EndWrites(canceled: bool)
    | ReadToPersist
    | Persist(ack: Ack)
    | Crash

  /** What happens outside the role sync controller. */
  datatype Event =
    | EditBackend(backend: Backend, owners: seq<IdentityOwner>)
    | CreateSync(key: ResourceKey, created: int)
    | DeleteSync(key: ResourceKey)
    | MarkDeleting(key: ResourceKey)
    | TouchSync(key: ResourceKey)
    | EditStatus(key: ResourceKey, managed: seq<Str>)

  datatype Action =
    | Begin(key: ResourceKey, uid: nat)
    | Sync(key: ResourceKey, step: Step)
    | Outside(event: Event)

  // ---- Pieces of the steps ----

  ghost predicate ValidBackend(b: Backend) {
    forall id | id in b :: b[id].id == id
  }

  /** One atomic listing of the backend, in some order. */
  ghost predicate ListingOf(ids: seq<Identity>, b: Backend) {
    && DistinctIds(ids)
    && (forall i | 0 <= i < |ids| :: ids[i].id in b && b[ids[i].id] == ids[i])
    && (forall id | id in b :: exists i | 0 <= i < |ids| :: ids[i].id == id)
  }

  ghost predicate Held(p: Placement, b: Backend) {
    p.id in b && p.value in b[p.id].attrs
  }

  ghost function Prune(placed: set<Placement>, b: Backend): set<Placement> {
    set p | p in placed && Held(p, b)
  }

  ghost function Completed(job: Job, outcomes: seq<IdentityOutcome>): Run {
    Finishing(job.uid, Some(CompletionOf(CompletionInput(job.plan, job.input.self.managed, outcomes, Unset, true))))
  }

  ghost function Blocked(job: Job, reason: Reason): Run {
    Finishing(job.uid, Some(CompletionOf(CompletionInput(job.plan, job.input.self.managed, [], reason, false))))
  }

  ghost function AfterOutcome(job: Job, outcomes: seq<IdentityOutcome>, o: IdentityOutcome): Run {
    if StopsWrites(o) then Completed(job, outcomes + [o]) else Writing(job, outcomes + [o])
  }

  function FailedOutcome(id: Str, attrs: seq<Str>, fault: Fault): IdentityOutcome {
    IdentityOutcome(id, Failed, attrs, Some(fault), [])
  }

  ghost function InputFor(w: World, key: ResourceKey, items: seq<ResourceKey>, snap: Snapshot): PlanInput
    requires key in w.store && Enumerates(items, w.store)
  {
    PlanInput(snap.scope, snap.members, snap.identities, w.owners, ClaimOf(key, w.store[key]),
              Others(w.store, items, key), snap.property)
  }

  /** Reading ownership, planning, and the two stops before any write. */
  ghost function PlanStep(w: World, key: ResourceKey, items: seq<ResourceKey>, uid: nat, snap: Snapshot): Run
    requires Enumerates(items, w.store)
  {
    if !Live(w.store, key, uid) || snap.scope.current == [] then Finishing(uid, None)
    else
      var input := InputFor(w, key, items, snap);
      var job := Job(uid, input, PlanOf(input, REPORT_CAP));
      if job.plan.ownership.conflicts != [] then Blocked(job, Conflict)
      else if job.plan.wouldRemoveAll then Blocked(job, WouldRemoveAll)
      else Planned(job)
  }

  ghost function NextPatch(job: Job, outcomes: seq<IdentityOutcome>): IdentityPatch
    requires |outcomes| < |job.plan.patches|
  {
    job.plan.patches[|outcomes|]
  }

  /** What readOwnership returns at `w`. */
  ghost function ViewOf(w: World, key: ResourceKey, items: seq<ResourceKey>): View
    requires key in w.store && Enumerates(items, w.store)
  {
    View(ClaimOf(key, w.store[key]), Others(w.store, items, key), w.owners)
  }

  ghost function AuthorizeStep(w: World, key: ResourceKey, items: seq<ResourceKey>, fault: Option<Fault>,
                               canceled: bool, job: Job, outcomes: seq<IdentityOutcome>, found: Option<Identity>): Run
    requires Enumerates(items, w.store) && |outcomes| < |job.plan.patches|
  {
    var patch := NextPatch(job, outcomes);
    var attrs := if found.Some? then found.value.attrs else [];
    if fault.Some? then AfterOutcome(job, outcomes, FailedOutcome(patch.id, attrs, fault.value))
    else if !Live(w.store, key, job.uid) then AfterOutcome(job, outcomes, FailedOutcome(patch.id, attrs, Failure))
    else
      var view := ViewOf(w, key, items);
      match Decide(job.plan, patch, found, view)
      case Report(o) => AfterOutcome(job, outcomes, o)
      case Send(next) =>
        if canceled then AfterOutcome(job, outcomes, FailedOutcome(patch.id, attrs, Canceled))
        else Sending(job, outcomes, found.value, view, next)
  }

  ghost function Granting(key: ResourceKey, job: Job, patch: IdentityPatch): set<Placement> {
    set v | v in patch.granted :: Placement(key, job.uid, patch.id, v)
  }

  // ---- Steps ----

  /** The API server applies a status update only to the version it was read from. */
  ghost predicate Accepted(w: World, key: ResourceKey, read: Stored, ack: Ack) {
    ack.NotApplied? || (key in w.store && w.store[key].rv == read.rv)
  }

  ghost predicate PatchesLeft(run: Run)
    requires run.Writing? || run.Fetched? || run.Sending?
  {
    |run.outcomes| < |run.job.plan.patches|
  }

  ghost predicate StepEnabled(w: World, key: ResourceKey, run: Run, step: Step) {
    match step
    case List(snap) => run.Started? && ListingOf(snap.identities, w.backend)
    case Abort => run.Started? || run.Listed? || run.Planned? || run.Recording?
    case MakePlan(items) => run.Listed? && Enumerates(items, w.store)
    case SkipRecord => run.Planned? && Elems(run.job.input.self.managed) == Elems(run.job.plan.managed)
    case ReadToRecord => run.Planned? && Elems(run.job.input.self.managed) != Elems(run.job.plan.managed)
    case Record(ack) => run.Recording? && Accepted(w, key, run.read, ack)
    case CancelWrites => run.Writing? && PatchesLeft(run)
    case Fetch(_) => run.Writing? && PatchesLeft(run)
    case Authorize(items, _, _) => run.Fetched? && PatchesLeft(run) && Enumerates(items, w.store)
    case Patch(ack, _) => run.Sending? && PatchesLeft(run) &&
      (ack.NotApplied? || NextPatch(run.job, run.outcomes).id in w.backend)
    case EndWrites(_) => run.Writing? && !PatchesLeft(run)
    case ReadToPersist => run.Finishing?
    case Persist(ack) => run.Persisting? && Accepted(w, key, run.read, ack)
    case Crash => true
  }

  /** Where the run stands after a step; None when it is over. */
  ghost function NextRun(w: World, key: ResourceKey, run: Run, step: Step): Option<Run>
    requires StepEnabled(w, key, run, step)
  {
    match step
    case List(snap) => Some(Listed(run.uid, snap))
    case Abort => Some(Finishing(UidOf(run), None))
    case MakePlan(items) => Some(PlanStep(w, key, items, run.uid, run.snap))
    case SkipRecord => Some(Writing(run.job, []))
    case ReadToRecord =>
      if Live(w.store, key, run.job.uid) && Elems(w.store[key].managed) == Elems(run.job.input.self.managed)
      then Some(Recording(run.job, w.store[key]))
      else Some(Finishing(run.job.uid, None))
    case Record(ack) => Some(if ack.Acked? then Writing(run.job, []) else Finishing(run.job.uid, None))
    case CancelWrites =>
      Some(Completed(run.job, run.outcomes + [FailedOutcome(NextPatch(run.job, run.outcomes).id, [], Canceled)]))
    case Fetch(fault) =>
      var id := NextPatch(run.job, run.outcomes).id;
      if fault.Some? then Some(AfterOutcome(run.job, run.outcomes, FailedOutcome(id, [], fault.value)))
      else Some(Fetched(run.job, run.outcomes, if id in w.backend then Some(w.backend[id]) else None))
    case Authorize(items, fault, canceled) =>
      Some(AuthorizeStep(w, key, items, fault, canceled, run.job, run.outcomes, run.found))
    case Patch(ack, error) =>
      var patch := NextPatch(run.job, run.outcomes);
      Some(AfterOutcome(run.job, run.outcomes,
                        if ack.Acked? then PatchedOutcome(patch, run.next)
                          else FailedOutcome(patch.id, run.target.attrs, error)))
    case EndWrites(canceled) =>
      Some(Completed(run.job, if canceled then run.outcomes + [FailedOutcome(EMPTY, [], Canceled)] else run.outcomes))
    case ReadToPersist =>
      if Live(w.store, key, run.uid) then Some(Persisting(run.uid, run.completion, w.store[key])) else None
    case Persist(_) => None
    case Crash => None
  }

  ghost function SetStored(w: World, key: ResourceKey, s: Stored): World {
    w.(store := w.store[key := s.(rv := w.rev + 1)], rev := w.rev + 1)
  }

  ghost function SetBackend(w: World, b: Backend, granted: set<Placement>): World {
    w.(backend := b, placed := Prune(w.placed, b) + granted)
  }

  /** What a step changes outside the run: three kinds of step write. */
  ghost function Effect(w: World, key: ResourceKey, run: Run, step: Step): World
    requires StepEnabled(w, key, run, step)
  {
    if step.Record? && !step.ack.NotApplied? then
      SetStored(w, key, run.read.(managed := run.job.plan.managed))
    else if step.Persist? && !step.ack.NotApplied? then
      SetStored(w, key, if run.completion.Some? then run.read.(managed := run.completion.value.managed) else run.read)
    else if step.Patch? && !step.ack.NotApplied? then
      var patch := NextPatch(run.job, run.outcomes);
      SetBackend(w, w.backend[patch.id := w.backend[patch.id].(attrs := run.next)], Granting(key, run.job, patch))
    else w
  }

  ghost predicate EventEnabled(w: World, e: Event) {
    match e
    case EditBackend(backend, owners) => ValidBackend(backend)
    case CreateSync(key, created) => key !in w.store
    case DeleteSync(key) => key in w.store
    case MarkDeleting(key) => key in w.store
    case TouchSync(key) => key in w.store
    case EditStatus(key, managed) => key in w.store
  }

  ghost function AfterEvent(w: World, e: Event): World
    requires EventEnabled(w, e)
  {
    match e
    case EditBackend(backend, owners) => SetBackend(w, backend, {}).(owners := owners)
    case CreateSync(key, created) => SetStored(w, key, Stored(w.rev + 1, w.rev + 1, created, false, []))
    case DeleteSync(key) => w.(store := w.store - {key})
    case MarkDeleting(key) => SetStored(w, key, w.store[key].(deleting := true))
    case TouchSync(key) => SetStored(w, key, w.store[key])
    case EditStatus(key, managed) => SetStored(w, key, w.store[key].(managed := managed))
  }

  ghost predicate Enabled(w: World, a: Action) {
    match a
    case Begin(key, uid) => key !in w.runs && uid <= w.rev
    case Sync(key, step) => key in w.runs && StepEnabled(w, key, w.runs[key], step)
    case Outside(event) => EventEnabled(w, event)
  }

  ghost function Next(w: World, a: Action): World
    requires Enabled(w, a)
  {
    match a
    case Begin(key, uid) => w.(runs := w.runs[key := Started(uid)])
    case Sync(key, step) =>
      var run := NextRun(w, key, w.runs[key], step);
      Effect(w, key, w.runs[key], step).(runs := if run.Some? then w.runs[key := run.value] else w.runs - {key})
    case Outside(event) => AfterEvent(w, event)
  }

  function UidOf(run: Run): nat {
    match run
    case Started(uid) => uid
    case Listed(uid, _) => uid
    case Planned(job) => job.uid
    case Recording(job, _) => job.uid
    case Writing(job, _) => job.uid
    case Fetched(job, _, _) => job.uid
    case Sending(job, _, _, _, _) => job.uid
    case Finishing(uid, _) => uid
    case Persisting(uid, _, _) => uid
  }
}
