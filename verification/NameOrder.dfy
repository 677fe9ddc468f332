/** The order of names, and sorting and deduplicating lists of them as Rust's `sort` and `dedup` do. */
module NameOrder {
  import opened Lexicographic

  function Codes(s: string): seq<nat> {
    seq(|s|, i requires 0 <= i < |s| => s[i] as nat)
  }

  predicate Less(a: string, b: string) {
    LexLess(Codes(a), Codes(b))
  }

  lemma CodesInjective(a: string, b: string)
    requires Codes(a) == Codes(b)
    ensures a == b
  {
    assert |a| == |Codes(a)| == |b|;
    forall i | 0 <= i < |a|
      ensures a[i] == b[i]
    {
      assert Codes(a)[i] == Codes(b)[i];
    }
  }

  lemma LessIsStrictOrder(a: string, b: string, c: string)
    ensures !Less(a, a)
    ensures Less(a, b) && Less(b, c) ==> Less(a, c)
    ensures Less(a, b) || a == b || Less(b, a)
  {
    LexIrreflexive(Codes(a));
    if Less(a, b) && Less(b, c) {
      LexTransitive(Codes(a), Codes(b), Codes(c));
    }
    LexTotal(Codes(a), Codes(b));
    if Codes(a) == Codes(b) {
      CodesInjective(a, b);
    }
  }

  predicate Sorted(s: seq<string>) {
    forall i, j :: 0 <= i < j < |s| ==> !Less(s[j], s[i])
  }

  predicate Ascending(s: seq<string>) {
    forall i, j :: 0 <= i < j < |s| ==> Less(s[i], s[j])
  }

  predicate Distinct(s: seq<string>) {
    forall i, j :: 0 <= i < j < |s| ==> s[i] != s[j]
  }

  /** An ascending list is determined by what is in it. */
  lemma {:induction false} AscendingIsUnique(a: seq<string>, b: seq<string>)
    requires Ascending(a) && Ascending(b) && forall x :: x in a <==> x in b
    ensures a == b
  {
    if a == [] {
      EmptyOrNot(b);
    } else {
      assert a[0] in b && b != [];
      FirstIsLeast(a, b);
      FirstIsLeast(b, a);
      LessIsStrictOrder(a[0], b[0], a[0]);
      RestIsSame(a, b);
      RestIsSame(b, a);
      AscendingIsUnique(a[1..], b[1..]);
      assert a == [a[0]] + a[1..] && b == [b[0]] + b[1..];
    }
  }

  lemma EmptyOrNot(b: seq<string>)
    ensures b == [] || exists x :: x in b
  {
    assert b == [] || b[0] in b;
  }

  lemma FirstIsLeast(a: seq<string>, b: seq<string>)
    requires a != [] && b != [] && Ascending(b) && a[0] in b
    ensures a[0] == b[0] || Less(b[0], a[0])
  {
    var i :| 0 <= i < |b| && b[i] == a[0];
  }

  lemma RestIsSame(a: seq<string>, b: seq<string>)
    requires a != [] && b != [] && a[0] == b[0] && Ascending(a) && forall x :: x in a ==> x in b
    ensures forall x :: x in a[1..] ==> x in b[1..]
  {
    forall x | x in a[1..]
      ensures x in b[1..]
    {
      var i :| 0 <= i < |a[1..]| && a[1..][i] == x;
      assert x == a[i + 1] && Less(a[0], a[i + 1]);
      assert x in b;
      LessIsStrictOrder(a[0], a[0], a[0]);
      assert b == [b[0]] + b[1..];
    }
  }

  /** Insertion sort. */
  method Sort(list: seq<string>) returns (s: seq<string>)
    ensures Sorted(s) && multiset(s) == multiset(list)
  {
    s := [];
    var i := 0;
    while i < |list|
      invariant 0 <= i <= |list| && Sorted(s) && multiset(s) == multiset(list[..i])
    {
      assert list[..i + 1] == list[..i] + [list[i]];
      s := InsertSorted(s, list[i]);
      i := i + 1;
    }
    assert list[..i] == list;
  }

  method InsertSorted(s: seq<string>, x: string) returns (r: seq<string>)
    requires Sorted(s)
    ensures Sorted(r) && multiset(r) == multiset(s) + multiset{x}
  {
    var k := |s|;
    while k > 0 && Less(x, s[k - 1])
      invariant 0 <= k <= |s|
      invariant forall j :: k <= j < |s| ==> Less(x, s[j])
    {
      k := k - 1;
    }
    r := s[..k] + [x] + s[k..];
    assert s == s[..k] + s[k..];
    InsertedIsSorted(s, x, k);
  }

  lemma InsertedIsSorted(s: seq<string>, x: string, k: nat)
    requires Sorted(s) && k <= |s| && (k > 0 ==> !Less(x, s[k - 1])) && forall j :: k <= j < |s| ==> Less(x, s[j])
    ensures Sorted(s[..k] + [x] + s[k..])
  {
    var r := s[..k] + [x] + s[k..];
    forall i, j | 0 <= i < j < |r|
      ensures !Less(r[j], r[i])
    {
      if j == k {
        assert r[i] == s[i];
        LessIsStrictOrder(x, s[i], s[k - 1]);
        LessIsStrictOrder(s[k - 1], s[i], x);
        LessIsStrictOrder(s[i], s[k - 1], x);
      } else if i == k {
        LessIsStrictOrder(x, s[j - 1], x);
        LessIsStrictOrder(s[j - 1], x, s[j - 1]);
      }
    }
  }

  /** Drops repeats that stand next to each other. */
  method Dedup(s: seq<string>) returns (r: seq<string>)
    requires Sorted(s)
    ensures Ascending(r) && forall x :: x in r <==> x in s
  {
    r := [];
    var i := 0;
    while i < |s|
      invariant 0 <= i <= |s| && Ascending(r)
      invariant forall x :: x in r <==> x in s[..i]
      invariant r == [] <==> i == 0
      invariant i > 0 ==> r[|r| - 1] == s[i - 1]
    {
      assert s[..i + 1] == s[..i] + [s[i]];
      if i == 0 || s[i] != s[i - 1] {
        AppendAscends(r, s, i);
        r := r + [s[i]];
      }
      i := i + 1;
    }
    assert s[..i] == s;
  }

  lemma AppendAscends(r: seq<string>, s: seq<string>, i: nat)
    requires i < |s| && Sorted(s) && Ascending(r) && (r == [] <==> i == 0)
    requires i > 0 ==> r[|r| - 1] == s[i - 1] && s[i] != s[i - 1]
    ensures Ascending(r + [s[i]])
  {
    if i > 0 {
      LessIsStrictOrder(s[i - 1], s[i], s[i]);
      forall k | 0 <= k < |r|
        ensures Less(r[k], s[i])
      {
        if k < |r| - 1 {
          LessIsStrictOrder(r[k], r[|r| - 1], s[i]);
        }
      }
    }
  }

  lemma SortedDistinctAscends(s: seq<string>)
    requires Sorted(s) && Distinct(s)
    ensures Ascending(s)
  {
    forall i, j | 0 <= i < j < |s|
      ensures Less(s[i], s[j])
    {
      LessIsStrictOrder(s[i], s[j], s[i]);
    }
  }

  // Permutations

  function Mapped(f: string -> string, s: seq<string>): seq<string> {
    seq(|s|, i requires 0 <= i < |s| => f(s[i]))
  }

  lemma MappedAround(f: string -> string, a: seq<string>, x: string, b: seq<string>)
    ensures multiset(Mapped(f, a + [x] + b)) == multiset(Mapped(f, a + b)) + multiset{f(x)}
  {
    assert Mapped(f, a + [x] + b) == Mapped(f, a) + [f(x)] + Mapped(f, b);
    assert Mapped(f, a + b) == Mapped(f, a) + Mapped(f, b);
  }

  lemma MappedLast(f: string -> string, a: seq<string>, x: string)
    ensures Mapped(f, a + [x]) == Mapped(f, a) + [f(x)]
  {
  }

  lemma RemoveOne(init: seq<string>, x: string, a: seq<string>, b: seq<string>)
    requires multiset(init + [x]) == multiset(a + [x] + b)
    ensures multiset(init) == multiset(a + b)
  {
    assert multiset(init) == multiset(init + [x]) - multiset{x};
    assert multiset(a + b) == multiset(a + [x] + b) - multiset{x};
  }

  lemma SameElements(a: seq<string>, b: seq<string>)
    requires multiset(a) == multiset(b)
    ensures forall x :: x in a <==> x in b
  {
    forall x
      ensures x in a <==> x in b
    {
      assert x in a <==> x in multiset(a);
      assert x in b <==> x in multiset(b);
    }
  }

  /** Splitting a list at an occurrence of `x`. */
  lemma Split(s: seq<string>, x: string) returns (a: seq<string>, b: seq<string>)
    requires x in s
    ensures s == a + [x] + b
  {
    var i :| 0 <= i < |s| && s[i] == x;
    a, b := s[..i], s[i + 1..];
  }

  lemma {:induction false} MappedPermutation(f: string -> string, s: seq<string>, t: seq<string>)
    requires multiset(s) == multiset(t)
    ensures multiset(Mapped(f, s)) == multiset(Mapped(f, t))
  {
    if s == [] {
      assert |t| == |multiset(t)| == 0;
    } else {
      var n := |s| - 1;
      var x, init := s[n], s[..n];
      assert s == init + [x];
      SameElements(s, t);
      var a, b := Split(t, x);
      RemoveOne(init, x, a, b);
      MappedPermutation(f, init, a + b);
      MappedAround(f, a, x, b);
      MappedLast(f, init, x);
    }
  }

  lemma {:induction false} DistinctIffSingle(s: seq<string>)
    ensures Distinct(s) <==> forall x :: multiset(s)[x] <= 1
  {
    if s != [] {
      var n := |s| - 1;
      var init := s[..n];
      assert s == init + [s[n]];
      DistinctIffSingle(init);
      assert multiset(s) == multiset(init) + multiset{s[n]};
      if Distinct(s) {
        assert s[n] !in init;
        assert multiset(init)[s[n]] == 0;
      } else if Distinct(init) {
        assert s[n] in init;
        assert multiset(s)[s[n]] > 1;
      } else {
        var x :| multiset(init)[x] > 1;
        assert multiset(s)[x] > 1;
      }
    }
  }

  lemma SameDistinctness(a: seq<string>, b: seq<string>)
    requires multiset(a) == multiset(b)
    ensures Distinct(a) <==> Distinct(b)
  {
    DistinctIffSingle(a);
    DistinctIffSingle(b);
  }

  /** Two lists of the same elements, each once, are permutations of each other. */
  lemma SameSetDistinct(a: seq<string>, b: seq<string>)
    requires Distinct(a) && Distinct(b) && forall x :: x in a <==> x in b
    ensures multiset(a) == multiset(b)
  {
    DistinctIffSingle(a);
    DistinctIffSingle(b);
    forall x
      ensures multiset(a)[x] == multiset(b)[x]
    {
      assert x in a <==> x in multiset(a);
      assert x in b <==> x in multiset(b);
    }
  }
}
