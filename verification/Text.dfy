/** Strings as the operator compares them: lexical order for sorting and tie
    breaking, and case folding for matching external IDs. */
module Text {

  /** A string as an atom: identifiers, names and role values are compared and
      collected whole, and only the order and folding below look inside. */
  datatype Str = Str(chars: string)

  const EMPTY := Str("")

  /** Lexical order. Dafny's own `<` on sequences is the prefix relation. */
  predicate Less(a: Str, b: Str) {
    LessFrom(a.chars, b.chars, 0)
  }

  predicate LessFrom(a: string, b: string, i: nat)
    requires i <= |a| && i <= |b|
    decreases |a| - i
  {
    i < |b| && (i == |a| || a[i] < b[i] || (a[i] == b[i] && LessFrom(a, b, i + 1)))
  }

  /** `a` comes before `b`: at the first place where they differ it has the
      smaller character, or it ends there. */
  ghost predicate Precedes(a: Str, b: Str) {
    exists n: nat | n <= |a.chars| && n < |b.chars| ::
      a.chars[..n] == b.chars[..n] && (n == |a.chars| || a.chars[n] < b.chars[n])
  }

  lemma LessIff(a: Str, b: Str)
    ensures Less(a, b) <==> Precedes(a, b)
  {
    if Less(a, b) { FirstDifference(a, b, 0); }
    if Precedes(a, b) {
      var n: nat :| n <= |a.chars| && n < |b.chars|
                    && a.chars[..n] == b.chars[..n] && (n == |a.chars| || a.chars[n] < b.chars[n]);
      LessUpTo(a.chars, b.chars, 0, n);
    }
  }

  lemma {:induction false} FirstDifference(a: Str, b: Str, i: nat)
    requires i <= |a.chars| && i <= |b.chars| && a.chars[..i] == b.chars[..i] && LessFrom(a.chars, b.chars, i)
    ensures Precedes(a, b)
    decreases |a.chars| - i
  {
    if i < |a.chars| && a.chars[i] == b.chars[i] {
      assert a.chars[..i + 1] == a.chars[..i] + [a.chars[i]] && b.chars[..i + 1] == b.chars[..i] + [b.chars[i]];
      FirstDifference(a, b, i + 1);
    } else {
      assert a.chars[..i] == b.chars[..i];
    }
  }

  lemma {:induction false} LessUpTo(a: string, b: string, i: nat, n: nat)
    requires i <= n <= |a| && n < |b| && a[..n] == b[..n] && (n == |a| || a[n] < b[n])
    ensures LessFrom(a, b, i)
    decreases n - i
  {
    if i < n {
      assert a[..n][i] == b[..n][i];
      LessUpTo(a, b, i + 1, n);
    }
  }

  lemma LessIrreflexive(a: Str)
    ensures !Less(a, a)
  {
    IrreflexiveFrom(a.chars, 0);
  }

  lemma {:induction false} IrreflexiveFrom(a: string, i: nat)
    requires i <= |a|
    ensures !LessFrom(a, a, i)
    decreases |a| - i
  {
    if i < |a| { IrreflexiveFrom(a, i + 1); }
  }

  lemma LessTransitive(a: Str, b: Str, c: Str)
    requires Less(a, b) && Less(b, c)
    ensures Less(a, c)
  {
    TransitiveFrom(a.chars, b.chars, c.chars, 0);
  }

  lemma {:induction false} TransitiveFrom(a: string, b: string, c: string, i: nat)
    requires i <= |a| && i <= |b| && i <= |c|
    requires LessFrom(a, b, i) && LessFrom(b, c, i)
    ensures LessFrom(a, c, i)
    decreases |a| - i
  {
    if i < |a| && a[i] == b[i] == c[i] { TransitiveFrom(a, b, c, i + 1); }
  }

  lemma LessTotal(a: Str, b: Str)
    ensures a == b || Less(a, b) || Less(b, a)
  {
    TotalFrom(a.chars, b.chars, 0);
  }

  lemma {:induction false} TotalFrom(a: string, b: string, i: nat)
    requires i <= |a| && i <= |b|
    requires a[..i] == b[..i]
    ensures a == b || LessFrom(a, b, i) || LessFrom(b, a, i)
    decreases |a| - i
  {
    if i < |a| && i < |b| && a[i] == b[i] {
      assert a[..i + 1] == b[..i + 1];
      TotalFrom(a, b, i + 1);
    } else if i == |a| == |b| {
      assert a == a[..i] && b == b[..i];
    }
  }

  function FoldChar(c: char): char {
    if 'A' <= c <= 'Z' then c - 'A' + 'a' else c
  }

  /** Case folding, on ASCII letters. */
  function Fold(s: Str): (r: Str)
    ensures r == EMPTY <==> s == EMPTY
  {
    Str(seq(|s.chars|, i requires 0 <= i < |s.chars| => FoldChar(s.chars[i])))
  }

  /** The same character, or the two cases of one ASCII letter. */
  predicate SameButCase(c: char, d: char) {
    || c == d
    || ('A' <= c <= 'Z' && d as int == c as int + 32)
    || ('A' <= d <= 'Z' && c as int == d as int + 32)
  }

  /** Equal up to case, character by character. */
  ghost predicate EqualFold(a: Str, b: Str) {
    |a.chars| == |b.chars| && forall i | 0 <= i < |a.chars| :: SameButCase(a.chars[i], b.chars[i])
  }

  /** Folding identifies exactly the strings that are equal up to case, and
      leaves no upper case letter. */
  lemma FoldIff(a: Str, b: Str)
    ensures Fold(a) == Fold(b) <==> EqualFold(a, b)
    ensures EqualFold(Fold(a), a) && forall c | c in Fold(a).chars :: !('A' <= c <= 'Z')
  {
    var x, y := Fold(a).chars, Fold(b).chars;
    if Fold(a) == Fold(b) {
      forall i | 0 <= i < |a.chars| ensures SameButCase(a.chars[i], b.chars[i]) {
        assert x[i] == y[i];
      }
    }
    if EqualFold(a, b) {
      forall i | 0 <= i < |x| ensures x[i] == y[i] {
        assert SameButCase(a.chars[i], b.chars[i]);
      }
      assert x == y;
    }
  }
}
