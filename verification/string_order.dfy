/** The order Python's `sorted` uses on `str`: lexicographic by code point,
    a proper prefix coming first. */
module StringOrder {

  /** `a < b` on Python strings. No string is below itself, and a proper
      prefix is below every longer string it starts. */
  predicate Below(a: string, b: string): (r: bool)
    ensures r ==> a != b
    ensures a < b ==> r
    decreases |a|
  {
    if |a| == 0 then |b| > 0
    else if |b| == 0 then false
    else a[0] < b[0] || (a[0] == b[0] && Below(a[1..], b[1..]))
  }

  lemma {:induction false} BelowIrreflexive(a: string)
    ensures !Below(a, a)
    decreases |a|
  {
    if |a| > 0 {
      BelowIrreflexive(a[1..]);
    }
  }

  lemma {:induction false} BelowTransitive(a: string, b: string, c: string)
    requires Below(a, b) && Below(b, c)
    ensures Below(a, c)
    decreases |a|
  {
    if |a| > 0 && a[0] == b[0] == c[0] {
      BelowTransitive(a[1..], b[1..], c[1..]);
    }
  }

  /** Any two different strings are ordered one way or the other. */
  lemma {:induction false} BelowTotal(a: string, b: string)
    requires a != b
    ensures Below(a, b) || Below(b, a)
    decreases |a|
  {
    if |a| > 0 && |b| > 0 && a[0] == b[0] {
      assert a == [a[0]] + a[1..] && b == [b[0]] + b[1..];
      BelowTotal(a[1..], b[1..]);
    }
  }

  lemma BelowAsymmetric(a: string, b: string)
    requires Below(a, b)
    ensures !Below(b, a)
  {
    if Below(b, a) {
      BelowTransitive(a, b, a);
      BelowIrreflexive(a);
    }
  }

  /** Strictly increasing, hence free of duplicates. */
  predicate StrictlySorted(xs: seq<string>) {
    forall i, j | 0 <= i < j < |xs| :: Below(xs[i], xs[j])
  }

  predicate NoDuplicates<T(==)>(xs: seq<T>) {
    forall i, j | 0 <= i < j < |xs| :: xs[i] != xs[j]
  }

  /** Appending an element not yet present keeps a list free of duplicates. */
  lemma AppendFresh<T>(xs: seq<T>, x: T)
    requires NoDuplicates(xs) && x !in xs
    ensures NoDuplicates(xs + [x])
  {
    var ys := xs + [x];
    forall i, j | 0 <= i < j < |ys| ensures ys[i] != ys[j] {
      if j == |xs| {
        assert ys[i] == xs[i];
      } else {
        assert ys[i] == xs[i] && ys[j] == xs[j];
      }
    }
  }

  lemma SortedHasNoDuplicates(xs: seq<string>)
    requires StrictlySorted(xs)
    ensures NoDuplicates(xs)
  {
    forall i, j | 0 <= i < j < |xs| ensures xs[i] != xs[j] {
      BelowIrreflexive(xs[i]);
    }
  }

  /** The sorted, duplicate-free arrangement of a collection is unique: two
      strictly sorted sequences with the same elements are equal. */
  lemma {:induction false} SortedUnique(a: seq<string>, b: seq<string>)
    requires StrictlySorted(a) && StrictlySorted(b)
    requires forall y :: y in a <==> y in b
    ensures a == b
    decreases |a|
  {
    if |a| == 0 {
      EmptyWhenNoMember(b);
    } else {
      assert a[0] in b;
      assert |b| > 0;
      if a[0] != b[0] {
        var k :| 0 <= k < |b| && b[k] == a[0];
        assert b[0] in a;
        var m :| 0 <= m < |a| && a[m] == b[0];
        assert k > 0 && m > 0;
        assert Below(b[0], a[0]);
        assert Below(a[0], b[0]);
        BelowAsymmetric(a[0], b[0]);
        assert false;
      }
      forall y ensures y in a[1..] <==> y in b[1..] {
        MemberOfTail(a, y);
        MemberOfTail(b, y);
      }
      SortedUnique(a[1..], b[1..]);
    }
  }

  lemma EmptyWhenNoMember(b: seq<string>)
    ensures (forall y :: y !in b) ==> b == []
  {
    if b != [] {
      assert b[0] in b;
    }
  }

  /** In a strictly sorted sequence the tail holds everything but the head. */
  lemma MemberOfTail(xs: seq<string>, y: string)
    requires StrictlySorted(xs) && |xs| > 0
    ensures y in xs[1..] <==> y in xs && y != xs[0]
  {
    if y in xs[1..] {
      var i :| 1 <= i < |xs| && xs[i] == y;
      BelowIrreflexive(xs[0]);
    }
    if y in xs && y != xs[0] {
      var i :| 0 <= i < |xs| && xs[i] == y;
      assert xs[1..][i - 1] == y;
    }
  }
}
