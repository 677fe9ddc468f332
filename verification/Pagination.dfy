/**
 * Cursor pagination over a sorted list, and walks that follow the cursors
 * while the list may change between requests
 * (wacp-console/crates/console-api/src/pagination.rs).
 */
module Pagination {
  import opened Options
  import opened Lexicographic
  import opened Cursors

  const DEFAULT_LIMIT: nat := 50
  const MAX_LIMIT: nat := 200

  datatype Params = Params(limit: Option<nat>, cursor: Option<Text>)

  datatype Page<T> = Page(items: seq<T>, cursor: Option<Text>, hasMore: bool)

  /** The limit, 50 if absent, clamped to [1, 200]. */
  function EffectiveLimit(p: Params): nat {
    var n := if p.limit.None? then DEFAULT_LIMIT else p.limit.value;
    if n < 1 then 1 else if n > MAX_LIMIT then MAX_LIMIT else n
  }

  /** The items whose key is past the cursor. */
  function Past<T>(items: seq<T>, key: T -> Text, cursor: Option<Text>): seq<T> {
    if items == [] then []
    else if cursor.None? || LexLess(cursor.value, key(items[0])) then [items[0]] + Past(items[1..], key, cursor)
    else Past(items[1..], key, cursor)
  }

  function Paginate<T>(items: seq<T>, params: Params, key: T -> Text): Page<T> {
    var limit := EffectiveLimit(params);
    var filtered := Past(items, key, DecodeCursor(params.cursor));
    var hasMore := |filtered| > limit;
    var page := if hasMore then filtered[..limit] else filtered;
    var next := if hasMore then Some(EncodeCursor(key(page[|page| - 1]))) else None;
    Page(page, next, hasMore)
  }

  /** A page is as long as asked, within 1 and 200 and 50 by default, unless the list ends first. */
  lemma PageSize<T>(items: seq<T>, limit: Option<nat>, cursor: Option<Text>, key: T -> Text)
    ensures var p := Paginate(items, Params(limit, cursor), key);
      var rest := Past(items, key, DecodeCursor(cursor));
      && p.items <= rest
      && (p.hasMore <==> p.items != rest) && (p.hasMore <==> p.cursor.Some?)
      && (p.hasMore ==>
            && (limit == None ==> |p.items| == 50)
            && (limit.Some? && 1 <= limit.value <= 200 ==> |p.items| == limit.value)
            && (limit.Some? && limit.value > 200 ==> |p.items| == 200)
            && (limit == Some(0) ==> |p.items| == 1))
      && |p.items| <= 200
  {
  }

  /** Strictly ascending by key. */
  predicate Sorted<T>(items: seq<T>, key: T -> Text) {
    forall i, j :: 0 <= i < j < |items| ==> LexLess(key(items[i]), key(items[j]))
  }

  lemma {:induction false} PastNothing<T>(items: seq<T>, key: T -> Text)
    ensures Past(items, key, None) == items
  {
    if items != [] {
      PastNothing(items[1..], key);
    }
  }

  predicate Passes<T>(x: T, key: T -> Text, cursor: Option<Text>) {
    cursor.None? || LexLess(cursor.value, key(x))
  }

  /** On a sorted list the filter drops a prefix and keeps the rest. */
  lemma {:induction false} PastIsSuffix<T>(items: seq<T>, key: T -> Text, cursor: Option<Text>) returns (j: nat)
    requires Sorted(items, key)
    ensures j <= |items| && Past(items, key, cursor) == items[j..]
    ensures forall i :: 0 <= i < j ==> !Passes(items[i], key, cursor)
    ensures forall i :: j <= i < |items| ==> Passes(items[i], key, cursor)
  {
    if items == [] {
      j := 0;
    } else {
      var rest := PastIsSuffix(items[1..], key, cursor);
      if Passes(items[0], key, cursor) {
        forall i | 0 <= i < |items|
          ensures Passes(items[i], key, cursor)
        {
          if i > 0 && cursor.Some? {
            LexTransitive(cursor.value, key(items[0]), key(items[i]));
          }
        }
        j := 0;
        assert forall i :: 0 <= i < |items| - 1 ==> items[1..][i] == items[i + 1];
        assert rest == 0;
        assert items == [items[0]] + items[1..];
      } else {
        j := rest + 1;
        assert items[j..] == items[1..][rest..];
        forall i | 0 <= i < |items|
          ensures i < j ==> !Passes(items[i], key, cursor)
          ensures j <= i ==> Passes(items[i], key, cursor)
        {
          assert i > 0 ==> items[i] == items[1..][i - 1];
        }
      }
    }
  }

  // Walks

  /** One request of a client: the list it met, the limit it asked for, the page it got. */
  datatype Request<T> = Request(list: seq<T>, limit: Option<nat>, page: Page<T>)

  /** Request `k` follows the cursor of the page before it, which announced more. */
  predicate Follows<T(==)>(walk: seq<Request<T>>, key: T -> Text, k: nat)
    requires k < |walk|
  {
    && Sorted(walk[k].list, key)
    && (k > 0 ==> walk[k - 1].page.hasMore)
    && walk[k].page == Paginate(walk[k].list, Params(walk[k].limit, CursorFor(walk, k)), key)
  }

  function CursorFor<T>(walk: seq<Request<T>>, k: nat): Option<Text>
    requires k <= |walk|
  {
    if k == 0 then None else walk[k - 1].page.cursor
  }

  /** A walk follows cursors through strictly sorted lists that may change between requests. */
  predicate IsWalk<T(==)>(walk: seq<Request<T>>, key: T -> Text) {
    forall k :: 0 <= k < |walk| ==> Follows(walk, key, k)
  }

  /** All items of the first `n` pages. */
  function Collected<T>(walk: seq<Request<T>>, n: nat): seq<T>
    requires n <= |walk|
  {
    if n == 0 then [] else Collected(walk, n - 1) + walk[n - 1].page.items
  }

  /** The key that request `k` starts after. */
  function StartKey<T>(walk: seq<Request<T>>, k: nat): Option<Text>
    requires k <= |walk|
  {
    DecodeCursor(CursorFor(walk, k))
  }

  /** A page of a sorted list is the slice that starts where its cursor says. */
  lemma PageIsSlice<T>(list: seq<T>, params: Params, key: T -> Text) returns (j: nat)
    requires Sorted(list, key)
    ensures var p := Paginate(list, params, key);
      && j + |p.items| <= |list| && p.items == list[j..j + |p.items|]
      && (p.hasMore <==> j + |p.items| < |list|)
      && (p.hasMore ==> p.items != [] && DecodeCursor(p.cursor) == Some(key(list[j + |p.items| - 1])))
    ensures forall i :: 0 <= i < j ==> !Passes(list[i], key, DecodeCursor(params.cursor))
    ensures forall i :: j <= i < |list| ==> Passes(list[i], key, DecodeCursor(params.cursor))
  {
    var p := Paginate(list, params, key);
    j := PastIsSuffix(list, key, DecodeCursor(params.cursor));
    assert p.items == list[j..][..|p.items|];
    if p.hasMore {
      CursorRoundTrip(key(p.items[|p.items| - 1]));
    }
  }

  /** What a slice that starts where `start` says holds, and what lies past its last key. */
  lemma SliceHolds<T>(list: seq<T>, key: T -> Text, start: Option<Text>, j: nat, n: nat)
    requires Sorted(list, key) && j + n <= |list|
    requires forall i :: 0 <= i < j ==> !Passes(list[i], key, start)
    requires forall i :: j <= i < |list| ==> Passes(list[i], key, start)
    ensures Sorted(list[j..j + n], key)
    ensures forall x :: x in list[j..j + n] ==> Passes(x, key, start)
    ensures forall x :: x in list && Passes(x, key, start) ==>
      x in list[j..j + n] || (j + n < |list| && (n > 0 ==> Passes(x, key, Some(key(list[j + n - 1])))))
  {
    forall x | x in list && Passes(x, key, start)
      ensures x in list[j..j + n] || (j + n < |list| && (n > 0 ==> Passes(x, key, Some(key(list[j + n - 1])))))
    {
      var i :| 0 <= i < |list| && list[i] == x;
      if i < j + n {
        assert list[j..j + n][i - j] == x;
      }
    }
  }

  /** What a page of a sorted list holds. */
  lemma PageHolds<T>(list: seq<T>, params: Params, key: T -> Text)
    requires Sorted(list, key)
    ensures var p := Paginate(list, params, key);
      var start := DecodeCursor(params.cursor);
      var next := DecodeCursor(p.cursor);
      && Sorted(p.items, key)
      && (forall x :: x in p.items ==> Passes(x, key, start))
      && (p.hasMore ==> p.items != [] && next == Some(key(p.items[|p.items| - 1])))
      && (forall x :: x in list && Passes(x, key, start) ==> x in p.items || (p.hasMore && Passes(x, key, next)))
  {
    var j := PageIsSlice(list, params, key);
    var n := |Paginate(list, params, key).items|;
    SliceHolds(list, key, DecodeCursor(params.cursor), j, n);
    assert n > 0 ==> list[j..j + n][n - 1] == list[j + n - 1];
  }

  /** Everything in `items` lies at or before `bound`. */
  ghost predicate UpTo<T>(items: seq<T>, key: T -> Text, bound: Option<Text>) {
    forall x :: x in items ==> bound.Some? && (key(x) == bound.value || LexLess(key(x), bound.value))
  }

  lemma AllBelow<T>(before: seq<T>, page: seq<T>, key: T -> Text, start: Option<Text>)
    requires UpTo(before, key, start) && forall x :: x in page ==> Passes(x, key, start)
    ensures forall x, y :: x in before && y in page ==> LexLess(key(x), key(y))
  {
    forall x, y | x in before && y in page
      ensures LexLess(key(x), key(y))
    {
      if LexLess(key(x), start.value) {
        LexTransitive(key(x), start.value, key(y));
      }
    }
  }

  lemma AppendAscends<T>(a: seq<T>, b: seq<T>, key: T -> Text)
    requires Sorted(a, key) && Sorted(b, key)
    requires forall x, y :: x in a && y in b ==> LexLess(key(x), key(y))
    ensures Sorted(a + b, key)
    ensures b != [] ==> UpTo(a + b, key, Some(key(b[|b| - 1])))
  {
    forall i, j | 0 <= i < j < |a + b|
      ensures LexLess(key((a + b)[i]), key((a + b)[j]))
    {
      if i < |a| <= j {
        assert a[i] in a && b[j - |a|] in b;
      }
    }
    if b != [] {
      var last := (a + b)[|a + b| - 1];
      forall x | x in a + b
        ensures key(x) == key(last) || LexLess(key(x), key(last))
      {
        var i :| 0 <= i < |a + b| && (a + b)[i] == x;
      }
    }
  }

  /** The collected keys ascend strictly, whatever happens to the list between requests. */
  lemma {:induction false} WalkAscends<T>(walk: seq<Request<T>>, key: T -> Text, n: nat)
    requires IsWalk(walk, key) && n <= |walk|
    ensures Sorted(Collected(walk, n), key)
    ensures n == 0 || walk[n - 1].page.hasMore ==> UpTo(Collected(walk, n), key, StartKey(walk, n))
  {
    if n > 0 {
      WalkAscends(walk, key, n - 1);
      assert Follows(walk, key, n - 1);
      PageHolds(walk[n - 1].list, Params(walk[n - 1].limit, CursorFor(walk, n - 1)), key);
      AllBelow(Collected(walk, n - 1), walk[n - 1].page.items, key, StartKey(walk, n - 1));
      AppendAscends(Collected(walk, n - 1), walk[n - 1].page.items, key);
    }
  }

  /** An item present at every request is collected, or still lies ahead of the cursor. */
  lemma {:induction false} WalkMissesNothing<T>(walk: seq<Request<T>>, key: T -> Text, n: nat, x: T)
    requires IsWalk(walk, key) && 0 < n <= |walk|
    requires forall k :: 0 <= k < n ==> x in walk[k].list
    ensures x in Collected(walk, n) || (walk[n - 1].page.hasMore && Passes(x, key, StartKey(walk, n)))
  {
    if n > 1 {
      WalkMissesNothing(walk, key, n - 1, x);
    }
    assert Follows(walk, key, n - 1);
    assert x in walk[n - 1].list;
    PageHolds(walk[n - 1].list, Params(walk[n - 1].limit, CursorFor(walk, n - 1)), key);
  }

  /** A walk that ended has returned every item that was there throughout, exactly once, in strictly ascending order. */
  lemma EndedWalkIsComplete<T>(walk: seq<Request<T>>, key: T -> Text, x: T)
    requires IsWalk(walk, key) && walk != [] && !walk[|walk| - 1].page.hasMore
    requires forall k :: 0 <= k < |walk| ==> x in walk[k].list
    ensures var all := Collected(walk, |walk|);
      && Sorted(all, key) && x in all
      && forall i, j :: 0 <= i < j < |all| ==> !(all[i] == x && all[j] == x)
  {
    WalkAscends(walk, key, |walk|);
    WalkMissesNothing(walk, key, |walk|, x);
    LexIrreflexive(key(x));
  }

  // Unchanged data

  /** The items past the key at position m - 1 are those from position m on. */
  lemma PastFrom<T>(list: seq<T>, key: T -> Text, m: nat)
    requires Sorted(list, key) && 0 < m <= |list|
    ensures Past(list, key, Some(key(list[m - 1]))) == list[m..]
  {
    var cursor := Some(key(list[m - 1]));
    var j := PastIsSuffix(list, key, cursor);
    LexIrreflexive(key(list[m - 1]));
    assert !Passes(list[m - 1], key, cursor);
    assert m < |list| ==> Passes(list[m], key, cursor);
    assert j == m;
  }

  /** What was returned so far is a prefix of the list; the page says whether and where it goes on. */
  ghost predicate UpToHere<T>(got: seq<T>, page: Page<T>, list: seq<T>, key: T -> Text) {
    && got <= list
    && (page.hasMore <==> got != list)
    && (page.hasMore ==> got != [] && DecodeCursor(page.cursor) == Some(key(got[|got| - 1])))
  }

  /** A page that starts where the returned prefix ends extends that prefix. */
  lemma PageExtends<T>(got: seq<T>, list: seq<T>, params: Params, key: T -> Text)
    requires got <= list && Past(list, key, DecodeCursor(params.cursor)) == list[|got|..]
    ensures var p := Paginate(list, params, key);
      UpToHere(got + p.items, p, list, key) && (p.hasMore ==> p.items != [])
  {
    var p := Paginate(list, params, key);
    assert got + list[|got|..] == list;
    assert p.items <= list[|got|..];
    assert p.hasMore <==> |got + p.items| < |list|;
    if p.hasMore {
      CursorRoundTrip(key(p.items[|p.items| - 1]));
    }
  }

  /** The page after a returned prefix of a sorted list starts where that prefix ends. */
  lemma NextStart<T>(got: seq<T>, page: Page<T>, list: seq<T>, key: T -> Text)
    requires Sorted(list, key) && UpToHere(got, page, list, key) && page.hasMore
    ensures Past(list, key, DecodeCursor(page.cursor)) == list[|got|..]
  {
    PastFrom(list, key, |got|);
  }

  ghost predicate Steady<T>(walk: seq<Request<T>>, list: seq<T>) {
    forall k :: 0 <= k < |walk| ==> walk[k].list == list
  }

  /**
   * On an unchanged list the pages are consecutive slices of it: after any number of
   * requests a prefix has been returned, and it is the whole list exactly when the
   * last page announces no more.
   */
  lemma {:induction false} SteadyWalk<T>(walk: seq<Request<T>>, list: seq<T>, key: T -> Text, n: nat)
    requires IsWalk(walk, key) && Steady(walk, list) && 0 < n <= |walk|
    ensures UpToHere(Collected(walk, n), walk[n - 1].page, list, key)
    ensures walk[n - 1].page.hasMore ==> |Collected(walk, n)| >= n
  {
    assert Follows(walk, key, n - 1);
    var before := Collected(walk, n - 1);
    if n == 1 {
      PastNothing(list, key);
    } else {
      SteadyWalk(walk, list, key, n - 1);
      NextStart(before, walk[n - 2].page, list, key);
    }
    PageExtends(before, list, Params(walk[n - 1].limit, CursorFor(walk, n - 1)), key);
  }

  /** Every page that announces more is non-empty, so a walk over an unchanged list is finite. */
  lemma SteadyWalkEnds<T>(walk: seq<Request<T>>, list: seq<T>, key: T -> Text)
    requires IsWalk(walk, key) && Steady(walk, list)
    ensures |walk| <= |list| + 1
  {
    var n := |walk|;
    if n > 1 {
      SteadyWalk(walk, list, key, n - 1);
      assert Follows(walk, key, n - 1);
    }
  }
}
