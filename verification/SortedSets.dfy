/** Value lists seen as sets, and the one strictly sorted list of each set. */
module SortedSets {
  import opened Text

  function Elems(s: seq<Str>): (r: set<Str>) {
    set x | x in s
  }

  lemma TakeOne<T>(s: seq<T>, k: nat)
    requires k < |s|
    ensures s[..k + 1] == s[..k] + [s[k]]
    ensures s[..k + 1][..k] == s[..k]
  {}

  lemma ElemsTakeOne(s: seq<Str>, k: nat)
    requires k < |s|
    ensures Elems(s[..k + 1]) == Elems(s[..k]) + {s[k]}
  {
    TakeOne(s, k);
  }

  lemma ElemsAppend(a: seq<Str>, b: seq<Str>)
    ensures Elems(a + b) == Elems(a) + Elems(b)
  {
    assert forall x :: x in a + b <==> x in a || x in b;
  }

  lemma NonEmptyElems(a: seq<Str>)
    ensures a == [] <==> Elems(a) == {}
  {
    if a != [] { assert a[0] in Elems(a); }
  }

  ghost predicate StrictlySorted(s: seq<Str>) {
    forall i, j | 0 <= i < j < |s| :: Less(s[i], s[j])
  }

  function Insert(s: seq<Str>, x: Str): (r: seq<Str>)
    requires StrictlySorted(s)
    ensures StrictlySorted(r)
    ensures Elems(r) == Elems(s) + {x}
  {
    if s == [] then [x]
    else if x == s[0] then s
    else if Less(x, s[0]) then
      assert forall i | 0 < i < |s| :: Less(x, s[i]) by {
        forall i | 0 < i < |s| ensures Less(x, s[i]) { LessTransitive(x, s[0], s[i]); }
      }
      [x] + s
    else
      assert Less(s[0], x) by { LessTotal(s[0], x); }
      var t := Insert(s[1..], x);
      assert forall v | v in t :: Less(s[0], v) by {
        forall v | v in t ensures Less(s[0], v) {
          assert v in Elems(t);
          assert v in Elems(s[1..]) || v == x;
        }
      }
      assert Elems(s) == {s[0]} + Elems(s[1..]) by { assert s == [s[0]] + s[1..]; }
      assert Elems([s[0]] + t) == {s[0]} + Elems(t) by { ElemsAppend([s[0]], t); }
      [s[0]] + t
  }

  /** The strictly sorted list of a set: what sortedSet returns whatever order
      the runtime iterates its map in. */
  ghost function Sorted(values: set<Str>): (r: seq<Str>)
    ensures StrictlySorted(r)
    ensures Elems(r) == values
  {
    SortedExists(values);
    var r :| StrictlySorted(r) && Elems(r) == values;
    r
  }

  lemma {:induction false} SortedExists(values: set<Str>)
    ensures exists r :: StrictlySorted(r) && Elems(r) == values
  {
    if values == {} {
      assert StrictlySorted([]) && Elems([]) == values;
    } else {
      var x :| x in values;
      SortedExists(values - {x});
      var r :| StrictlySorted(r) && Elems(r) == values - {x};
      assert Elems(Insert(r, x)) == values;
    }
  }

  lemma {:induction false} SortedUnique(a: seq<Str>, b: seq<Str>)
    requires StrictlySorted(a) && StrictlySorted(b)
    requires Elems(a) == Elems(b)
    ensures a == b
  {
    if a == [] || b == [] {
      NonEmptyElems(a);
      NonEmptyElems(b);
    } else {
      assert a[0] in Elems(b) && b[0] in Elems(a);
      var i :| 0 <= i < |b| && b[i] == a[0];
      var j :| 0 <= j < |a| && a[j] == b[0];
      if i > 0 && j > 0 {
        LessTransitive(a[0], b[0], a[0]);
        LessIrreflexive(a[0]);
      }
      assert a[0] == b[0];
      TailElems(a);
      TailElems(b);
      SortedUnique(a[1..], b[1..]);
      assert a == [a[0]] + a[1..] && b == [b[0]] + b[1..];
    }
  }

  lemma TailElems(a: seq<Str>)
    requires StrictlySorted(a) && a != []
    ensures StrictlySorted(a[1..])
    ensures Elems(a[1..]) == Elems(a) - {a[0]}
  {
    LessIrreflexive(a[0]);
    assert a == [a[0]] + a[1..];
  }

  /** Sorts the members of a set, met in an arbitrary order. */
  method SortMembers(values: set<Str>) returns (r: seq<Str>)
    ensures r == Sorted(values)
  {
    r := [];
    var pending := values;
    while pending != {}
      invariant StrictlySorted(r)
      invariant pending <= values && Elems(r) == values - pending
      decreases pending
    {
      var x :| x in pending;
      pending := pending - {x};
      r := Insert(r, x);
    }
    SortedUnique(r, Sorted(values));
  }

  method SortedSet(values: seq<Str>) returns (r: seq<Str>)
    ensures r == Sorted(Elems(values))
  {
    var present: set<Str> := {};
    for i := 0 to |values|
      invariant present == Elems(values[..i])
    {
      ElemsTakeOne(values, i);
      present := present + {values[i]};
    }
    assert values[..|values|] == values;
    r := SortMembers(present);
  }

  /** Compares two lists after sorting and compacting copies of them. */
  method SameRoleSet(a: seq<Str>, b: seq<Str>) returns (same: bool)
    ensures same <==> Elems(a) == Elems(b)
  {
    var x := SortedSet(a);
    var y := SortedSet(b);
    same := x == y;
  }

  // ---- Filtering ----

  function Drop(s: seq<Str>, out: set<Str>): (r: seq<Str>)
    ensures Elems(r) == Elems(s) - out
  {
    if s == [] then [] else
      var n := |s| - 1;
      assert Elems(s) == Elems(s[..n]) + {s[n]} by { assert s == s[..n] + [s[n]]; }
      var kept := Drop(s[..n], out);
      ElemsAppend(kept, [s[n]]);
      if s[n] in out then kept else kept + [s[n]]
  }

  lemma DropTakeOne(s: seq<Str>, out: set<Str>, k: nat)
    requires k < |s|
    ensures Drop(s[..k + 1], out) == Drop(s[..k], out) + if s[k] in out then [] else [s[k]]
  {
    TakeOne(s, k);
  }

  lemma {:induction false} DropAppend(a: seq<Str>, b: seq<Str>, out: set<Str>)
    ensures Drop(a + b, out) == Drop(a, out) + Drop(b, out)
  {
    if b == [] {
      assert a + b == a;
    } else {
      var n := |b| - 1;
      assert (a + b)[..|a| + n] == a + b[..n];
      DropAppend(a, b[..n], out);
    }
  }

  lemma {:induction false} DropNothing(s: seq<Str>, out: set<Str>)
    requires Elems(s) !! out
    ensures Drop(s, out) == s
  {
    if s != [] {
      var n := |s| - 1;
      assert s == s[..n] + [s[n]];
      assert s[n] in Elems(s);
      DropNothing(s[..n], out);
    }
  }

  lemma {:induction false} DropKeepsOrder(s: seq<Str>, out: set<Str>)
    requires StrictlySorted(s)
    ensures StrictlySorted(Drop(s, out))
  {
    if s != [] {
      var n := |s| - 1;
      DropKeepsOrder(s[..n], out);
      var kept := Drop(s[..n], out);
      forall i | 0 <= i < |kept| ensures Less(kept[i], s[n]) {
        assert kept[i] in Elems(kept);
      }
    }
  }

  lemma DropEverything(s: seq<Str>, out: set<Str>)
    requires Elems(s) <= out
    ensures Drop(s, out) == []
  {
    NonEmptyElems(Drop(s, out));
  }
}
