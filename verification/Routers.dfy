/** Resolving a service's router declaration into its two router policies. */
module Routers {
  import opened Text
  import opened SortedSets
  import opened Ownership

  // ---- Trimming ----

  predicate IsSpace(c: char) {
    c == ' ' || '\t' <= c <= '\r'
  }

  /** The first position from `i` on that is not space. */
  function SkipLeft(s: string, i: nat): (r: nat)
    requires i <= |s|
    ensures i <= r <= |s| && (r < |s| ==> !IsSpace(s[r]))
    decreases |s| - i
  {
    if i < |s| && IsSpace(s[i]) then SkipLeft(s, i + 1) else i
  }

  /** The end, down from `j`, of what is left when trailing space is cut. */
  function SkipRight(s: string, i: nat, j: nat): (r: nat)
    requires i <= j <= |s|
    ensures i <= r <= j && (i < r ==> !IsSpace(s[r - 1]))
  {
    if i < j && IsSpace(s[j - 1]) then SkipRight(s, i, j - 1) else j
  }

  function Trim(s: Str): Str {
    var i := SkipLeft(s.chars, 0);
    Str(s.chars[i..SkipRight(s.chars, i, |s.chars|)])
  }

  /** A space, tab, line feed, vertical tab, form feed or carriage return. */
  predicate Blank(c: char) {
    c as int in {9, 10, 11, 12, 13, 32}
  }

  /** Trimming cuts blanks off both ends, all of them and nothing else. */
  lemma TrimMeans(s: Str) returns (i: nat, j: nat)
    ensures i <= j <= |s.chars| && Trim(s).chars == s.chars[i..j]
    ensures forall k | 0 <= k < |s.chars| && (k < i || j <= k) :: Blank(s.chars[k])
    ensures i < j ==> !Blank(s.chars[i]) && !Blank(s.chars[j - 1])
  {
    i := SkipLeft(s.chars, 0);
    j := SkipRight(s.chars, i, |s.chars|);
    SkipsBlanks(s.chars, 0);
    SkipsBlanksBack(s.chars, i, |s.chars|);
  }

  lemma {:induction false} SkipsBlanks(s: string, i: nat)
    requires i <= |s|
    ensures forall k | i <= k < SkipLeft(s, i) :: Blank(s[k])
    ensures SkipLeft(s, i) < |s| ==> !Blank(s[SkipLeft(s, i)])
    decreases |s| - i
  {
    if i < |s| && IsSpace(s[i]) { SkipsBlanks(s, i + 1); }
  }

  lemma {:induction false} SkipsBlanksBack(s: string, i: nat, j: nat)
    requires i <= j <= |s|
    ensures forall k | SkipRight(s, i, j) <= k < j :: Blank(s[k])
    ensures i < SkipRight(s, i, j) ==> !Blank(s[SkipRight(s, i, j) - 1])
  {
    if i < j && IsSpace(s[j - 1]) { SkipsBlanksBack(s, i, j - 1); }
  }

  /** Trimming again changes nothing. */
  lemma TrimIdempotent(s: Str)
    ensures Trim(Trim(s)) == Trim(s)
  {
    var t := Trim(s).chars;
    if t != [] {
      assert !IsSpace(t[0]) && !IsSpace(t[|t| - 1]);
    }
    assert t[0..|t|] == t;
  }

  // ---- What is to be resolved ----

  /** A service's name and, if it declares one, its router. */
  datatype ServiceSpec = ServiceSpec(name: Str, router: Option<RouterSpec>)
  datatype RouterSpec = RouterSpec(name: Str, additional: seq<Str>)

  datatype RouterIdentity = RouterIdentity(id: Str, kind: Str)

  /** What the backend finds by name; a lookup that fails finds nothing. */
  datatype Fabric = Fabric(identities: map<Str, RouterIdentity>, routers: map<Str, Str>)

  datatype RouterPolicySet = RouterPolicySet(
    bindName: Str, bindIdentityRoles: seq<Str>, edgeName: Str, edgeRouterRoles: seq<Str>, serviceRoles: seq<Str>)

  const ROUTER := Str("Router")

  function Role(id: Str): Str {
    Str("@" + Trim(id).chars)
  }

  predicate RouterResolves(f: Fabric, name: Str) {
    name in f.routers && Trim(f.routers[name]) != EMPTY
  }

  predicate HostResolves(f: Fabric, name: Str) {
    && name != EMPTY && name in f.identities
    && Trim(f.identities[name].id) != EMPTY && Fold(Trim(f.identities[name].kind)) == Fold(ROUTER)
    && RouterResolves(f, name)
  }

  /** Every name in the declaration resolves. */
  ghost predicate Resolvable(spec: ServiceSpec, f: Fabric) {
    && spec.router.Some? && HostResolves(f, Trim(spec.router.value.name))
    && AllResolve(f, Trimmed(spec.router.value.additional, |spec.router.value.additional|))
  }

  ghost predicate AllResolve(f: Fabric, names: set<Str>) {
    forall n | n in names :: n != EMPTY && RouterResolves(f, n)
  }

  /** The trimmed forms of the first `n` names. */
  function Trimmed(names: seq<Str>, n: nat): set<Str>
    requires n <= |names|
  {
    if n == 0 then {} else Trimmed(names, n - 1) + {Trim(names[n - 1])}
  }

  lemma {:induction false} TrimmedIff(names: seq<Str>, n: nat, name: Str)
    requires n <= |names|
    ensures name in Trimmed(names, n) <==> exists k | 0 <= k < n :: Trim(names[k]) == name
  {
    if n > 0 { TrimmedIff(names, n - 1, name); }
  }

  function Names(spec: RouterSpec): set<Str> {
    {Trim(spec.name)} + Trimmed(spec.additional, |spec.additional|)
  }

  function Roles(ids: seq<Str>): set<Str> {
    set id | id in ids :: Role(id)
  }

  ghost function RolesOf(f: Fabric, names: set<Str>): set<Str> {
    set n | n in names && n in f.routers :: Role(f.routers[n])
  }

  ghost function PoliciesOf(spec: ServiceSpec, f: Fabric, serviceId: Str): RouterPolicySet
    requires Resolvable(spec, f)
  {
    RouterPolicySet(Str(spec.name.chars + "-bind-policy"), [Role(f.identities[Trim(spec.router.value.name)].id)],
                    Str(spec.name.chars + "-only"), Sorted(RolesOf(f, Names(spec.router.value))), [Role(serviceId)])
  }

  /** What resolves: a host that is a Router identity with an ID and a router with
      an ID, and no additional name that is blank or is not a router with an ID. */
  lemma ResolvableIff(spec: ServiceSpec, f: Fabric)
    ensures Resolvable(spec, f) <==>
            && spec.router.Some?
            && (var host := Trim(spec.router.value.name);
                && host != Str("") && host in f.identities && Trim(f.identities[host].id) != Str("")
                && EqualFold(Trim(f.identities[host].kind), Str("Router"))
                && host in f.routers && Trim(f.routers[host]) != Str(""))
            && (var names := spec.router.value.additional;
                forall k | 0 <= k < |names| ::
                  && Trim(names[k]) != Str("") && Trim(names[k]) in f.routers
                  && Trim(f.routers[Trim(names[k])]) != Str(""))
  {
    if spec.router.Some? {
      var host, names := Trim(spec.router.value.name), spec.router.value.additional;
      if host in f.identities { FoldIff(Trim(f.identities[host].kind), Str("Router")); }
      AllResolveIff(f, names);
    }
  }

  lemma AllResolveIff(f: Fabric, names: seq<Str>)
    ensures AllResolve(f, Trimmed(names, |names|)) <==>
            forall k | 0 <= k < |names| ::
              Trim(names[k]) != Str("") && Trim(names[k]) in f.routers && Trim(f.routers[Trim(names[k])]) != Str("")
  {
    forall k | 0 <= k < |names| ensures Trim(names[k]) in Trimmed(names, |names|) {
      TrimmedIff(names, |names|, Trim(names[k]));
    }
    forall name | name in Trimmed(names, |names|) ensures exists k | 0 <= k < |names| :: Trim(names[k]) == name {
      TrimmedIff(names, |names|, name);
    }
  }

  /** The router's role is among those of the policy: `name` is the host or an
      additional name, and `role` its ID behind an at sign. */
  ghost predicate Allows(spec: RouterSpec, f: Fabric, name: Str, role: Str) {
    && (name == Trim(spec.name) || exists k | 0 <= k < |spec.additional| :: name == Trim(spec.additional[k]))
    && name in f.routers && role == Str("@" + Trim(f.routers[name]).chars)
  }

  /** The policies bind the Router identity alone, allow exactly the host's and
      the additional routers, each once and in order, and are for this service. */
  lemma PoliciesMean(spec: ServiceSpec, f: Fabric, serviceId: Str)
    requires Resolvable(spec, f)
    ensures var p := PoliciesOf(spec, f, serviceId); var host := Trim(spec.router.value.name);
            && p.bindName.chars == spec.name.chars + "-bind-policy" && p.edgeName.chars == spec.name.chars + "-only"
            && p.bindIdentityRoles == [Str("@" + Trim(f.identities[host].id).chars)]
            && p.serviceRoles == [Str("@" + Trim(serviceId).chars)]
            && StrictlySorted(p.edgeRouterRoles)
            && forall role :: role in p.edgeRouterRoles <==> exists name :: Allows(spec.router.value, f, name, role)
  {
    var p := PoliciesOf(spec, f, serviceId);
    var router := spec.router.value;
    forall role ensures role in p.edgeRouterRoles <==> exists name :: Allows(router, f, name, role) {
      assert role in p.edgeRouterRoles <==> role in Elems(p.edgeRouterRoles);
      if role in RolesOf(f, Names(router)) {
        var name :| name in Names(router) && name in f.routers && Role(f.routers[name]) == role;
        TrimmedIff(router.additional, |router.additional|, name);
        assert Allows(router, f, name, role);
      }
      if name :| Allows(router, f, name, role) {
        TrimmedIff(router.additional, |router.additional|, name);
        assert name in Names(router);
      }
    }
  }

  // ---- The loops ----

  method ResolveEdgeRouterId(f: Fabric, name: Str) returns (id: Option<Str>)
    ensures id.Some? <==> RouterResolves(f, name)
    ensures id.Some? ==> id.value == Trim(f.routers[name])
  {
    if name !in f.routers || Trim(f.routers[name]) == EMPTY { return None; }
    return Some(Trim(f.routers[name]));
  }

  method RouterPolicies(spec: ServiceSpec, serviceId: Str, identityId: Str, hostId: Str, additionalIds: seq<Str>)
    returns (r: RouterPolicySet)
    ensures r == RouterPolicySet(Str(spec.name.chars + "-bind-policy"), [Role(identityId)],
                                 Str(spec.name.chars + "-only"),
                                 Sorted({Role(hostId)} + Roles(additionalIds)), [Role(serviceId)])
  {
    var roles := [Role(hostId)];
    for i := 0 to |additionalIds|
      invariant Elems(roles) == {Role(hostId)} + set k | 0 <= k < i :: Role(additionalIds[k])
    {
      ElemsAppend(roles, [Role(additionalIds[i])]);
      roles := roles + [Role(additionalIds[i])];
    }
    assert Elems(roles) == {Role(hostId)} + Roles(additionalIds);
    roles := SortedSet(roles);
    r := RouterPolicySet(Str(spec.name.chars + "-bind-policy"), [Role(identityId)], Str(spec.name.chars + "-only"),
                         roles, [Role(serviceId)]);
  }

  lemma RoleOfTrimmed(id: Str)
    ensures Role(Trim(id)) == Role(id)
  {
    TrimIdempotent(id);
  }

  /** `ids` are the trimmed router IDs of `names`, one for one. */
  ghost predicate IdsOf(f: Fabric, names: seq<Str>, ids: seq<Str>) {
    |ids| == |names| && forall k | 0 <= k < |names| :: names[k] in f.routers && ids[k] == Trim(f.routers[names[k]])
  }

  lemma RolesOfIds(f: Fabric, host: Str, names: seq<Str>, ids: seq<Str>)
    requires host in f.routers && IdsOf(f, names, ids)
    ensures {Role(f.routers[host])} + Roles(ids) == RolesOf(f, {host} + Elems(names))
  {
    forall k | 0 <= k < |names| ensures Role(ids[k]) == Role(f.routers[names[k]]) {
      RoleOfTrimmed(f.routers[names[k]]);
    }
    forall r | r in Roles(ids) ensures r in RolesOf(f, Elems(names)) {
      var k :| 0 <= k < |ids| && Role(ids[k]) == r;
      assert names[k] in Elems(names);
    }
    forall r | r in RolesOf(f, Elems(names)) ensures r in Roles(ids) {
      var k :| 0 <= k < |names| && Role(f.routers[names[k]]) == r;
      assert ids[k] in ids;
    }
    assert RolesOf(f, {host} + Elems(names)) == {Role(f.routers[host])} + RolesOf(f, Elems(names));
  }

  /** The first `n` names resolve; `found` are the IDs of `resolved`, which with
      the host are the names seen. */
  ghost predicate ResolvedSoFar(f: Fabric, host: Str, names: seq<Str>, n: nat,
                                seen: set<Str>, resolved: seq<Str>, found: seq<Str>) {
    && n <= |names| && AllResolve(f, Trimmed(names, n))
    && seen == {host} + Trimmed(names, n) == {host} + Elems(resolved)
    && IdsOf(f, resolved, found)
  }

  lemma NameSeenAgain(f: Fabric, host: Str, names: seq<Str>, n: nat, seen: set<Str>, resolved: seq<Str>,
                      found: seq<Str>)
    requires n < |names| && ResolvedSoFar(f, host, names, n, seen, resolved, found)
    requires RouterResolves(f, host) && Trim(names[n]) != EMPTY && Trim(names[n]) in seen
    ensures ResolvedSoFar(f, host, names, n + 1, seen, resolved, found)
  {}

  lemma NameResolved(f: Fabric, host: Str, names: seq<Str>, n: nat, seen: set<Str>, resolved: seq<Str>, found: seq<Str>)
    requires n < |names| && ResolvedSoFar(f, host, names, n, seen, resolved, found)
    requires Trim(names[n]) != EMPTY && RouterResolves(f, Trim(names[n]))
    ensures var name := Trim(names[n]);
            ResolvedSoFar(f, host, names, n + 1, seen + {name}, resolved + [name], found + [Trim(f.routers[name])])
  {
    var name := Trim(names[n]);
    ElemsAppend(resolved, [name]);
    assert IdsOf(f, resolved + [name], found + [Trim(f.routers[name])]);
  }

  lemma NameFails(f: Fabric, names: seq<Str>, n: nat)
    requires n < |names| && !(Trim(names[n]) != EMPTY && RouterResolves(f, Trim(names[n])))
    ensures !AllResolve(f, Trimmed(names, |names|))
  {
    TrimmedIff(names, |names|, Trim(names[n]));
  }

  /** The IDs of the additional routers, each name resolved once, or nothing. */
  method ResolveAdditional(f: Fabric, host: Str, names: seq<Str>)
    returns (ids: Option<seq<Str>>, ghost resolved: seq<Str>)
    requires RouterResolves(f, host)
    ensures ids.Some? <==> AllResolve(f, Trimmed(names, |names|))
    ensures ids.Some? ==> IdsOf(f, resolved, ids.value) && {host} + Elems(resolved) == {host} + Trimmed(names, |names|)
  {
    var seen, found: seq<Str> := {host}, [];
    resolved := [];
    for i := 0 to |names|
      invariant ResolvedSoFar(f, host, names, i, seen, resolved, found)
    {
      var name := Trim(names[i]);
      if name == EMPTY {
        NameFails(f, names, i);
        return None, resolved;
      }
      if name in seen {
        NameSeenAgain(f, host, names, i, seen, resolved, found);
        continue;
      }
      var id := ResolveEdgeRouterId(f, name);
      if id.None? {
        NameFails(f, names, i);
        return None, resolved;
      }
      NameResolved(f, host, names, i, seen, resolved, found);
      seen, found, resolved := seen + {name}, found + [id.value], resolved + [name];
    }
    ids := Some(found);
  }

  /** Succeeds exactly when every name resolves, and then with the one sorted
      list of the host's and the named routers' roles. */
  method DesiredRouterPolicies(spec: ServiceSpec, f: Fabric, serviceId: Str) returns (r: Option<RouterPolicySet>)
    ensures r.Some? <==> Resolvable(spec, f)
    ensures r.Some? ==> r.value == PoliciesOf(spec, f, serviceId)
  {
    if spec.router.None? || Trim(spec.router.value.name) == EMPTY { return None; }
    var host := Trim(spec.router.value.name);
    if host !in f.identities { return None; }
    var identity := f.identities[host];
    if Trim(identity.id) == EMPTY || Fold(Trim(identity.kind)) != Fold(ROUTER) { return None; }
    var hostId := ResolveEdgeRouterId(f, host);
    if hostId.None? { return None; }
    var ids, resolved := ResolveAdditional(f, host, spec.router.value.additional);
    if ids.None? { return None; }
    RoleOfTrimmed(f.routers[host]);
    RolesOfIds(f, host, resolved, ids.value);
    var policies := RouterPolicies(spec, serviceId, identity.id, hostId.value, ids.value);
    r := Some(policies);
  }

  /** The policies depend on the set of trimmed names only: order, repetition and
      surrounding space do not matter. */
  lemma NamesAreASet(spec: ServiceSpec, spec': ServiceSpec, f: Fabric, serviceId: Str)
    requires spec.router.Some? && spec'.router.Some? && spec.name == spec'.name
    requires Trim(spec.router.value.name) == Trim(spec'.router.value.name)
    requires Names(spec.router.value) == Names(spec'.router.value)
    ensures Resolvable(spec, f) <==> Resolvable(spec', f)
    ensures Resolvable(spec, f) ==> PoliciesOf(spec, f, serviceId) == PoliciesOf(spec', f, serviceId)
  {
    var host := Trim(spec.router.value.name);
    var a, b := Trimmed(spec.router.value.additional, |spec.router.value.additional|),
                Trimmed(spec'.router.value.additional, |spec'.router.value.additional|);
    assert forall n | n in a :: n == host || n in b;
    assert forall n | n in b :: n == host || n in a;
  }

  /** The two router policies a service has in the backend, and whether its
      status records them. */
  class ServiceRouterPolicies {
    var bind: Option<RouterPolicySet>
    var edge: Option<RouterPolicySet>
    var bindRecorded: bool
    var edgeRecorded: bool

    /** With a router declared: writes the bind policy, then the edge router
        policy, and records both once both are written; a declaration that does
        not resolve leaves everything as it was. Without one: deletes what the
        status records, the edge router policy first. */
    method Reconcile(spec: ServiceSpec, f: Fabric, serviceId: Str, bindFails: bool, edgeFails: bool) returns (ok: bool)
      modifies this
      ensures spec.router.Some? && !Resolvable(spec, f) ==>
                !ok && bind == old(bind) && edge == old(edge)
                && bindRecorded == old(bindRecorded) && edgeRecorded == old(edgeRecorded)
      ensures Resolvable(spec, f) ==> ok == (!bindFails && !edgeFails)
      ensures Resolvable(spec, f) && ok ==>
                bind == edge == Some(PoliciesOf(spec, f, serviceId)) && bindRecorded && edgeRecorded
      ensures Resolvable(spec, f) && !ok ==>
                && edge == old(edge) && bindRecorded == old(bindRecorded) && edgeRecorded == old(edgeRecorded)
                && bind == if bindFails then old(bind) else Some(PoliciesOf(spec, f, serviceId))
      ensures spec.router.None? && ok ==>
                && !bindRecorded && !edgeRecorded
                && bind == (if old(bindRecorded) then None else old(bind))
                && edge == (if old(edgeRecorded) then None else old(edge))
      ensures spec.router.None? ==> (ok <==> !(old(edgeRecorded) && edgeFails) && !(old(bindRecorded) && bindFails))
      ensures spec.router.None? && !ok ==>
                bind == old(bind) && bindRecorded == old(bindRecorded)
                && (edgeFails ==> edge == old(edge) && edgeRecorded == old(edgeRecorded))
    {
      if spec.router.None? {
        ok := DeleteRouterPolicies(bindFails, edgeFails);
        return;
      }
      var desired := DesiredRouterPolicies(spec, f, serviceId);
      if desired.None? || bindFails { return false; }
      bind := desired;
      if edgeFails { return false; }
      edge := desired;
      bindRecorded, edgeRecorded := true, true;
      ok := true;
    }

    method DeleteRouterPolicies(bindFails: bool, edgeFails: bool) returns (ok: bool)
      modifies this
      ensures ok <==> !(old(edgeRecorded) && edgeFails) && !(old(bindRecorded) && bindFails)
      ensures edgeRecorded == (old(edgeRecorded) && edgeFails)
      ensures edge == if old(edgeRecorded) && !edgeFails then None else old(edge)
      ensures bindRecorded == (old(bindRecorded) && !ok)
      ensures bind == if old(bindRecorded) && ok then None else old(bind)
    {
      if edgeRecorded {
        if edgeFails { return false; }
        edge, edgeRecorded := None, false;
      }
      if bindRecorded {
        if bindFails { return false; }
        bind, bindRecorded := None, false;
      }
      ok := true;
    }

    /** Removing the router from a service, when the call succeeds, leaves no
        router policy behind exactly when the status had recorded the policies
        that were there. */
    method RemoveRouter(name: Str, f: Fabric, serviceId: Str, bindFails: bool, edgeFails: bool) returns (ok: bool)
      modifies this
      ensures ok ==> (bind.None? && edge.None? <==>
                      (old(bind).Some? ==> old(bindRecorded)) && (old(edge).Some? ==> old(edgeRecorded)))
    {
      ok := Reconcile(ServiceSpec(name, None), f, serviceId, bindFails, edgeFails);
    }

    /** A bind policy that was written before its edge router policy failed is not
        recorded, so removing the router right after leaves it in place. */
    method BindPolicyOutlivesRouter(spec: ServiceSpec, f: Fabric, serviceId: Str) returns (ok: bool)
      requires Resolvable(spec, f) && !bindRecorded && !edgeRecorded
      modifies this
      ensures ok && bind == Some(PoliciesOf(spec, f, serviceId)) && edge == old(edge)
    {
      var written := Reconcile(spec, f, serviceId, false, true);
      ok := Reconcile(ServiceSpec(spec.name, None), f, serviceId, false, false);
    }
  }
}
