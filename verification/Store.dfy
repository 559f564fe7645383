/** The recorded claims, as the API server keeps them. */
module Store {
  import opened Text
  import opened SortedSets
  import opened Ownership
  import opened Planner

  /** One role sync resource: its instance, its resource version, and the
      managed values in its status. */
  datatype Stored = Stored(uid: nat, rv: nat, created: int, deleting: bool, managed: seq<Str>)
  type Claims = map<ResourceKey, Stored>

  function ClaimOf(key: ResourceKey, s: Stored): SyncClaim {
    SyncClaim(key, s.created, s.managed)
  }

  /** The instance that readRoleSync accepts. */
  predicate Live(store: Claims, key: ResourceKey, uid: nat) {
    key in store && store[key].uid == uid && !store[key].deleting
  }

  /** `items` lists every resource once, in some order. */
  ghost predicate Enumerates(items: seq<ResourceKey>, store: Claims) {
    (forall k :: k in items <==> k in store) && forall i, j | 0 <= i < j < |items| :: items[i] != items[j]
  }

  function OthersIn(store: Claims, items: seq<ResourceKey>, n: nat, key: ResourceKey): seq<SyncClaim>
    requires n <= |items| && forall k | k in items :: k in store
  {
    if n == 0 then []
    else if items[n - 1] == key then OthersIn(store, items, n - 1, key)
    else OthersIn(store, items, n - 1, key) + [ClaimOf(items[n - 1], store[items[n - 1]])]
  }

  function Others(store: Claims, items: seq<ResourceKey>, key: ResourceKey): seq<SyncClaim>
    requires forall k | k in items :: k in store
  {
    OthersIn(store, items, |items|, key)
  }

  lemma {:induction false} OthersInIff(store: Claims, items: seq<ResourceKey>, n: nat, key: ResourceKey, c: SyncClaim)
    requires n <= |items| && forall k | k in items :: k in store
    ensures c in OthersIn(store, items, n, key) <==>
            exists i | 0 <= i < n :: items[i] != key && c == ClaimOf(items[i], store[items[i]])
  {
    if n > 0 { OthersInIff(store, items, n - 1, key, c); }
  }

  lemma OthersIff(store: Claims, items: seq<ResourceKey>, key: ResourceKey, c: SyncClaim)
    requires Enumerates(items, store)
    ensures c in Others(store, items, key) <==>
              c.resource in store && c.resource != key && c == ClaimOf(c.resource, store[c.resource])
  {
    OthersInIff(store, items, |items|, key, c);
    if c.resource in store && c.resource != key && c == ClaimOf(c.resource, store[c.resource]) {
      var i :| 0 <= i < |items| && items[i] == c.resource;
    }
  }

  lemma OthersAreForeign(store: Claims, items: seq<ResourceKey>, key: ResourceKey)
    requires Enumerates(items, store) && key in store
    ensures Foreign(ClaimOf(key, store[key]), Others(store, items, key))
  {
    forall o | o in Others(store, items, key) ensures o.resource != key {
      OthersIff(store, items, key, o);
    }
  }

  /** Nobody in the store stands before `key` on any of `values`. */
  ghost predicate Passes(store: Claims, key: ResourceKey, values: set<Str>)
    requires key in store
  {
    forall j, v | j in store && j != key && v in values && v in store[j].managed ::
      v in store[key].managed && ClaimBefore(ClaimOf(key, store[key]), ClaimOf(j, store[j]))
  }

  /** No other sync has recorded any of `values`, except values that `key` has
      recorded too, under the older creation time or, at the same one, the name
      that comes first. */
  ghost predicate Unchallenged(store: Claims, key: ResourceKey, values: set<Str>)
    requires key in store
  {
    forall j, v | j in store && j != key && v in values && v in store[j].managed ::
      && v in store[key].managed
      && (|| store[key].created < store[j].created
          || (&& store[key].created == store[j].created
              && (Precedes(key.ns, j.ns) || (key.ns == j.ns && Precedes(key.name, j.name)))))
  }

  lemma PassesMeans(store: Claims, key: ResourceKey, values: set<Str>)
    requires key in store
    ensures Passes(store, key, values) <==> Unchallenged(store, key, values)
  {
    forall j | j in store
      ensures ClaimBefore(ClaimOf(key, store[key]), ClaimOf(j, store[j])) <==>
              Older(ClaimOf(key, store[key]), ClaimOf(j, store[j]))
    {
      ClaimBeforeIff(ClaimOf(key, store[key]), ClaimOf(j, store[j]));
    }
  }

  /** The ownership check, in terms of the store and of no list order. */
  lemma PassesIff(store: Claims, items: seq<ResourceKey>, key: ResourceKey, candidates: seq<Str>)
    requires Enumerates(items, store) && key in store
    ensures ResolvedOwnership(ClaimOf(key, store[key]), candidates, Others(store, items, key)).conflicts == [] <==>
            Passes(store, key, Elems(candidates))
  {
    var self, others := ClaimOf(key, store[key]), Others(store, items, key);
    OthersAreForeign(store, items, key);
    NoConflictsIff(self, others, candidates);
    if Passes(store, key, Elems(candidates)) {
      forall v | v in Elems(candidates) ensures Clear(self, others, v) {
        forall o | o in others && v in o.managed ensures v in self.managed && ClaimBefore(self, o) {
          OthersIff(store, items, key, o);
        }
      }
    }
    if forall v | v in Elems(candidates) :: Clear(self, others, v) {
      forall j, v | j in store && j != key && v in Elems(candidates) && v in store[j].managed
        ensures v in store[key].managed && ClaimBefore(self, ClaimOf(j, store[j]))
      {
        OthersIff(store, items, key, ClaimOf(j, store[j]));
        assert Clear(self, others, v);
      }
    }
  }

  /** At one store, two syncs that recorded a value cannot both pass on it. */
  lemma AtMostOnePasses(store: Claims, j: ResourceKey, k: ResourceKey, vj: set<Str>, vk: set<Str>)
    requires j in store && k in store && j != k
    requires vj <= Elems(store[j].managed) && vk <= Elems(store[k].managed)
    requires Passes(store, j, vj) && Passes(store, k, vk)
    ensures vj !! vk
  {
    ClaimBeforeIsStrictTotal(ClaimOf(j, store[j]), ClaimOf(k, store[k]), ClaimOf(j, store[j]));
  }

  ghost predicate Disjoint(store: Claims) {
    forall j, k | j in store && k in store && j != k :: Elems(store[j].managed) !! Elems(store[k].managed)
  }
}
