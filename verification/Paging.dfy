/** Following `@odata.nextLink` through a paged collection. */
module Paging {
  import opened Text
  import opened Ownership

  /** A page without a value array is malformed. */
  datatype Page<T> = Page(value: Option<seq<T>>, next: Str)

  /** The endpoints that answer; a request to any other one fails. */
  type PageGraph<T> = map<Str, Page<T>>

  /** `path` is the chain of pages from `endpoint` to a page without a link. */
  predicate Chain<T>(graph: PageGraph<T>, endpoint: Str, path: seq<Str>)
    decreases |path|
  {
    if endpoint == EMPTY then path == []
    else
      && path != [] && path[0] == endpoint
      && endpoint in graph && graph[endpoint].value.Some?
      && Chain(graph, graph[endpoint].next, path[1..])
  }

  /** Place `k` of the path is a page that answers with a value array and links
      to the next place, the last one nowhere. */
  ghost predicate LinkAt<T>(graph: PageGraph<T>, path: seq<Str>, k: nat)
    requires k < |path|
  {
    && path[k] != Str("") && path[k] in graph && graph[path[k]].value.Some?
    && graph[path[k]].next == if k + 1 < |path| then path[k + 1] else Str("")
  }

  lemma LinkFurther<T>(graph: PageGraph<T>, path: seq<Str>, k: nat)
    requires k + 1 < |path|
    ensures LinkAt(graph, path, k + 1) <==> LinkAt(graph, path[1..], k)
  {}

  /** A chain, place by place: it starts at the endpoint and every place links. */
  lemma {:induction false} ChainIff<T>(graph: PageGraph<T>, endpoint: Str, path: seq<Str>)
    ensures Chain(graph, endpoint, path) <==>
            && (path == [] <==> endpoint == Str("")) && (path != [] ==> path[0] == endpoint)
            && forall k | 0 <= k < |path| :: LinkAt(graph, path, k)
    decreases |path|
  {
    if path != [] && endpoint in graph {
      var rest := path[1..];
      ChainIff(graph, graph[endpoint].next, rest);
      forall k | 0 < k < |path| ensures LinkAt(graph, path, k) <==> LinkAt(graph, rest, k - 1) {
        LinkFurther(graph, path, k - 1);
      }
      if forall k | 0 <= k < |path| :: LinkAt(graph, path, k) {
        assert LinkAt(graph, path, 0) && (rest != [] ==> LinkAt(graph, path, 1));
        forall k | 0 <= k < |rest| ensures LinkAt(graph, rest, k) { LinkFurther(graph, path, k); }
      }
    } else if path != [] {
      assert path[0] == endpoint ==> !LinkAt(graph, path, 0);
    }
  }

  function Items<T>(graph: PageGraph<T>, path: seq<Str>): seq<T> {
    if path == [] then []
    else
      (if path[0] in graph && graph[path[0]].value.Some? then graph[path[0]].value.value else [])
      + Items(graph, path[1..])
  }

  lemma {:induction false} ChainUnique<T>(graph: PageGraph<T>, endpoint: Str, p: seq<Str>, q: seq<Str>)
    requires Chain(graph, endpoint, p) && Chain(graph, endpoint, q)
    ensures p == q
    decreases |p|
  {
    if endpoint != EMPTY {
      ChainUnique(graph, graph[endpoint].next, p[1..], q[1..]);
      assert p == [p[0]] + p[1..] && q == [q[0]] + q[1..];
    }
  }

  /** `path` leads from `start`, page by page, to the unread `endpoint`. */
  ghost predicate Leads<T>(graph: PageGraph<T>, start: Str, path: seq<Str>, endpoint: Str)
    decreases |path|
  {
    if path == [] then start == endpoint
    else
      && start == path[0] && start != EMPTY && start in graph && graph[start].value.Some?
      && Leads(graph, graph[start].next, path[1..], endpoint)
  }

  lemma {:induction false} LeadsOneMore<T>(graph: PageGraph<T>, start: Str, path: seq<Str>, endpoint: Str)
    requires Leads(graph, start, path, endpoint)
    requires endpoint != EMPTY && endpoint in graph && graph[endpoint].value.Some?
    ensures Leads(graph, start, path + [endpoint], graph[endpoint].next)
    ensures Items(graph, path + [endpoint]) == Items(graph, path) + graph[endpoint].value.value
    decreases |path|
  {
    if path == [] {
      assert path + [endpoint] == [endpoint] && [endpoint][1..] == [];
    } else {
      LeadsOneMore(graph, graph[start].next, path[1..], endpoint);
      assert (path + [endpoint])[1..] == path[1..] + [endpoint];
    }
  }

  /** Any whole chain starts with the pages read so far. */
  lemma {:induction false} ChainContinues<T>(graph: PageGraph<T>, start: Str, path: seq<Str>, endpoint: Str,
                                             whole: seq<Str>)
    requires Leads(graph, start, path, endpoint) && Chain(graph, start, whole)
    ensures |path| <= |whole| && whole[..|path|] == path && Chain(graph, endpoint, whole[|path|..])
    decreases |path|
  {
    if path != [] {
      ChainContinues(graph, graph[start].next, path[1..], endpoint, whole[1..]);
      assert whole == [whole[0]] + whole[1..] && path == [path[0]] + path[1..];
      assert whole[|path|..] == whole[1..][|path| - 1..];
    }
  }

  lemma {:induction false} LeadsThrough<T>(graph: PageGraph<T>, start: Str, path: seq<Str>, endpoint: Str, k: nat)
    requires Leads(graph, start, path, endpoint) && k < |path|
    ensures Leads(graph, start, path[..k], path[k])
    decreases k
  {
    if k > 0 {
      LeadsThrough(graph, graph[start].next, path[1..], endpoint, k - 1);
      assert path[..k][1..] == path[1..][..k - 1];
    }
  }

  /** Coming back to a page already read means there is no whole chain. */
  lemma NoChainThroughCycle<T>(graph: PageGraph<T>, start: Str, path: seq<Str>, endpoint: Str, whole: seq<Str>)
    requires Leads(graph, start, path, endpoint) && endpoint in path
    ensures !Chain(graph, start, whole)
  {
    if Chain(graph, start, whole) {
      var k :| 0 <= k < |path| && path[k] == endpoint;
      ChainContinues(graph, start, path, endpoint, whole);
      LeadsThrough(graph, start, path, endpoint, k);
      ChainContinues(graph, start, path[..k], endpoint, whole);
      ChainUnique(graph, endpoint, whole[|path|..], whole[k..]);
      assert false;
    }
  }

  /** Reads each endpoint at most once, and returns the items of the whole chain,
      if there is one, and nothing otherwise. */
  method ReadPages<T>(graph: PageGraph<T>, start: Str) returns (items: Option<seq<T>>, ghost fetched: seq<Str>)
    ensures items.None? ==> forall path :: !Chain(graph, start, path)
    ensures items.Some? ==> Chain(graph, start, fetched) && items.value == Items(graph, fetched)
    ensures forall i, j | 0 <= i < j < |fetched| :: fetched[i] != fetched[j]
  {
    var result: seq<T>, endpoint, seen: set<Str> := [], start, {};
    fetched := [];
    while endpoint != EMPTY
      invariant Leads(graph, start, fetched, endpoint)
      invariant result == Items(graph, fetched)
      invariant forall i, j | 0 <= i < j < |fetched| :: fetched[i] != fetched[j]
      invariant forall e :: e in seen <==> e in fetched
      decreases graph.Keys - seen
    {
      ghost var soFar := fetched;
      if endpoint in seen {
        forall whole ensures !Chain(graph, start, whole) {
          NoChainThroughCycle(graph, start, soFar, endpoint, whole);
        }
        return None, fetched;
      }
      seen, fetched := seen + {endpoint}, fetched + [endpoint];
      if whole :| Chain(graph, start, whole) {
        ChainContinues(graph, start, soFar, endpoint, whole);
      }
      if endpoint !in graph || graph[endpoint].value.None? {
        return None, fetched;
      }
      LeadsOneMore(graph, start, soFar, endpoint);
      result := result + graph[endpoint].value.value;
      endpoint := graph[endpoint].next;
    }
    LeadsToEnd(graph, start, fetched);
    assert Chain(graph, start, fetched);
    items := Some(result);
  }

  lemma {:induction false} LeadsToEnd<T>(graph: PageGraph<T>, start: Str, path: seq<Str>)
    requires Leads(graph, start, path, EMPTY)
    ensures Chain(graph, start, path)
    decreases |path|
  {
    if path != [] { LeadsToEnd(graph, graph[start].next, path[1..]); }
  }
}
