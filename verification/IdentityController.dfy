/** The ZitiIdentity controller's writes, for the division of labour: it writes
    only identities that the role sync recognizes as owned and leaves alone. */
module IdentityController {
  import opened Text
  import opened SortedSets
  import opened Ownership
  import opened Directory
  import opened Planner
  import Retirement
  import opened Writes
  import opened Protocol
  import opened ProtocolShape
  import opened ProtocolHistory

  /** A ZitiIdentity resource: its declared name and attributes, and the backend
      ID in its status, empty until it has one. */
  datatype ZitiIdentity = ZitiIdentity(resource: ResourceKey, name: Str, attrs: seq<Str>, statusId: Str)

  function OwnerFor(z: ZitiIdentity): IdentityOwner {
    IdentityOwner(z.resource, z.statusId, z.name)
  }

  /** The write set of reconcileIdentity: `id` is an identity that it may write
      for `z` on backend `b`, where `newId` is the ID a create would give. It is
      the recorded identity; or, when the backend no longer knows that one, the
      recreated one; without a record any identity with the declared name, or
      when there is none the created one. */
  ghost predicate WritesTo(z: ZitiIdentity, b: Backend, newId: Str, id: Str) {
    if z.statusId != EMPTY then id == if z.statusId in b then z.statusId else newId
    else if exists i :: i in b && b[i].name == z.name then id in b && b[id].name == z.name
    else id == newId
  }

  class ZitiIdentityReconciler {
    var identities: Backend

    method FindByName(name: Str) returns (id: Option<Str>)
      requires ValidBackend(identities)
      ensures id.Some? ==> id.value in identities && identities[id.value].name == name
      ensures id.None? ==> forall i | i in identities :: identities[i].name != name
    {
      var pending := identities.Keys;
      while pending != {}
        invariant pending <= identities.Keys
        invariant forall i | i in identities && i !in pending :: identities[i].name != name
        decreases pending
      {
        var i :| i in pending;
        if identities[i].name == name { return Some(i); }
        pending := pending - {i};
      }
      return None;
    }

    /** The client's update: a PUT of name and attributes, or a create when the
        backend no longer knows the ID. */
    method Update(id: Str, z: ZitiIdentity, newId: Str) returns (written: Str)
      requires ValidBackend(identities) && newId !in identities
      modifies this
      ensures written == if id in old(identities) then id else newId
      ensures identities == old(identities)[written := Identity(written, z.name,
                              if id in old(identities) then old(identities)[id].externalId else EMPTY, z.attrs)]
    {
      if id in identities {
        written := id;
        identities := identities[id := identities[id].(name := z.name, attrs := z.attrs)];
      } else {
        written := Create(z, newId);
      }
    }

    method Create(z: ZitiIdentity, newId: Str) returns (written: Str)
      requires newId !in identities
      modifies this
      ensures written == newId
      ensures identities == old(identities)[newId := Identity(newId, z.name, EMPTY, z.attrs)]
    {
      written := newId;
      identities := identities[newId := Identity(newId, z.name, EMPTY, z.attrs)];
    }

    /** Updates the recorded identity, or adopts the one with the declared name,
        or creates one. It writes one identity, which the resource owns by ID or
        by name both as it was and as it becomes. */
    method ReconcileIdentity(z: ZitiIdentity, newId: Str) returns (written: Str)
      requires ValidBackend(identities) && z.name != EMPTY && newId !in identities
      modifies this
      ensures ValidBackend(identities)
      ensures written in identities && identities[written].name == z.name && identities[written].attrs == z.attrs
      ensures identities == old(identities)[written := identities[written]]
      ensures WritesTo(z, old(identities), newId, written)
      ensures z.statusId != Str("") ==> written == if z.statusId in old(identities) then z.statusId else newId
      ensures z.statusId == Str("") ==>
                if exists i :: i in old(identities) && old(identities)[i].name == z.name
                then written in old(identities) && old(identities)[written].name == z.name
                else written == newId
      ensures written in old(identities) ==> identities[written].externalId == old(identities)[written].externalId
      ensures OwnedBy(identities[written], OwnerFor(z))
      ensures written in old(identities) ==> OwnedBy(old(identities)[written], OwnerFor(z))
    {
      if z.statusId != EMPTY {
        written := Update(z.statusId, z, newId);
        return;
      }
      var existing := FindByName(z.name);
      if existing.Some? {
        written := Update(existing.value, z, newId);
      } else {
        written := Create(z, newId);
      }
    }
  }

  /** An identity that `z` may write, and that is there, is owned by `z`. */
  lemma WriteSetIsOwned(z: ZitiIdentity, b: Backend, newId: Str, identity: Identity)
    requires identity.id in b && b[identity.id].name == identity.name && newId !in b && z.name != EMPTY
    requires WritesTo(z, b, newId, identity.id)
    ensures OwnedBy(identity, OwnerFor(z))
  {}

  /** No plan names an identity in the write set, on the listed backend, of a
      ZitiIdentity resource that the plan was made with. */
  lemma PlansAvoidWriteSets(input: PlanInput, cap: nat, b: Backend, z: ZitiIdentity, newId: Str, k: nat)
    requires ListingOf(input.identities, b) && OwnerFor(z) in input.owners
    requires z.name != EMPTY && newId !in b && k < |PlanOf(input, cap).patches|
    ensures !WritesTo(z, b, newId, PlanOf(input, cap).patches[k].id)
  {
    var i := PlannedGrants(input, cap, k);
    if WritesTo(z, b, newId, PlanOf(input, cap).patches[k].id) {
      WriteSetIsOwned(z, b, newId, input.identities[i]);
    }
  }

  /** The write sets of the two controllers are disjoint. In every behaviour,
      every PATCH that takes effect changes one identity, which its own run read
      at `m` and was authorized to patch at `n`; no ZitiIdentity resource that
      existed at `n` has that identity in its write set, neither on the backend
      as it was read nor on any where the identity still has its name. */
  lemma WriteSetsAreDisjoint(ws: seq<World>, actions: seq<Action>, i: nat, key: ResourceKey, ack: Ack,
                             error: Retirement.Fault)
    returns (m: nat, n: nat)
    requires Behavior(ws, actions) && i < |actions|
    requires actions[i] == Sync(key, Patch(ack, error)) && !ack.NotApplied?
    ensures var run := ws[i].runs[key]; var id := NextPatch(run.job, run.outcomes).id;
            && m < n < i && ReadAt(ws, actions, m, key, id, run.target) && AuthorizedAt(ws, actions, n, key, run)
            && OnPatchSince(ws, m, i, key, run.job, run.outcomes)
            && id in ws[i].backend && ws[i + 1].backend == ws[i].backend[id := ws[i].backend[id].(attrs := run.next)]
            && forall z, b: Backend, newId | OwnerFor(z) in ws[n].owners && z.name != EMPTY && newId !in b
                                    && id in b && b[id].name == ws[m].backend[id].name ::
                 !WritesTo(z, b, newId, id)
  {
    var run := ws[i].runs[key];
    var id := NextPatch(run.job, run.outcomes).id;
    PatchFrame(ws, actions, i, key, ack, error);
    m, n := TargetWasRead(ws, actions, i, key, run);
    forall z, b: Backend, newId | OwnerFor(z) in ws[n].owners && z.name != EMPTY && newId !in b
                                  && id in b && b[id].name == ws[m].backend[id].name
      ensures !WritesTo(z, b, newId, id)
    {
      if WritesTo(z, b, newId, id) {
        WriteSetIsOwned(z, b, newId, run.target);
      }
    }
  }
}
