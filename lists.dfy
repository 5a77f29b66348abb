/** List helpers the forecast engine uses the way JavaScript arrays are used:
    `slice(0, n)`, `indexOf` / `find` for the first match, `filter` on a
    timestamp, and the insertion order of a `Set` built by repeated `add`. */
module Lists {

  /** `xs.slice(0, n)`: the first n entries, or all of them when there are fewer. */
  function Take<T>(xs: seq<T>, n: nat): (r: seq<T>)
    ensures |r| == if |xs| <= n then |xs| else n
    ensures r == xs[..|r|]
  {
    if |xs| <= n then xs else xs[..n]
  }

  /** The position of the first occurrence of `x` in `s`. */
  function FirstIndex<T(==)>(s: seq<T>, x: T): (k: nat)
    requires x in s
    ensures k < |s| && s[k] == x
    ensures forall j :: 0 <= j < k ==> s[j] != x
  {
    if s[0] == x then 0 else 1 + FirstIndex(s[1..], x)
  }

  /** `xs.filter(x => at(x) >= cutoff)`: the entries stamped at or after the
      cutoff, each as often as in `xs`. */
  function Since<T(!new)>(xs: seq<T>, at: T -> int, cutoff: int): (r: seq<T>)
    ensures |r| <= |xs|
    ensures forall x :: x in r <==> x in xs && at(x) >= cutoff
    ensures |xs| == 1 ==> r == if at(xs[0]) >= cutoff then xs else []
  {
    if xs == [] then []
    else
      var init, last := xs[..|xs| - 1], xs[|xs| - 1];
      assert xs == init + [last];
      var rest := Since(init, at, cutoff);
      if at(last) >= cutoff then rest + [last] else rest
  }

  /** Every entry stamped at or after the cutoff is kept as often as it
      occurs, and no other entry is kept. */
  lemma {:induction false} SinceCounts<T(!new)>(xs: seq<T>, at: T -> int, cutoff: int)
    ensures forall x :: multiset(Since(xs, at, cutoff))[x] == if at(x) >= cutoff then multiset(xs)[x] else 0
  {
    if xs != [] {
      var init, last := xs[..|xs| - 1], xs[|xs| - 1];
      assert xs == init + [last];
      SinceCounts(init, at, cutoff);
    }
  }

  /** The filter works entry by entry, so it keeps the order of the input:
      filtering a concatenation concatenates the filtered parts. */
  lemma {:induction false} SinceAppend<T(!new)>(a: seq<T>, b: seq<T>, at: T -> int, cutoff: int)
    ensures Since(a + b, at, cutoff) == Since(a, at, cutoff) + Since(b, at, cutoff)
  {
    if b == [] {
      assert a + b == a;
    } else {
      var init, last := b[..|b| - 1], b[|b| - 1];
      var tail := if at(last) >= cutoff then [last] else [];
      assert (a + b)[..|a + b| - 1] == a + init && (a + b)[|a + b| - 1] == last;
      assert Since(a + b, at, cutoff) == Since(a + init, at, cutoff) + tail;
      assert Since(b, at, cutoff) == Since(init, at, cutoff) + tail;
      SinceAppend(a, init, at, cutoff);
    }
  }

  /** No value occurs twice. */
  predicate Distinct<T(==)>(s: seq<T>) {
    forall i, j :: 0 <= i < j < |s| ==> s[i] != s[j]
  }

  /** The contents of a `Set` after adding the entries of `s` one by one, in
      the Set's iteration order: a value is kept where it was first added. */
  function Dedup<T(==, !new)>(s: seq<T>): (r: seq<T>)
    ensures Distinct(r)
    ensures forall x :: x in r <==> x in s
    ensures |r| <= |s|
  {
    if s == [] then []
    else
      var d := Dedup(s[..|s| - 1]);
      if s[|s| - 1] in d then d else d + [s[|s| - 1]]
  }

  /** Dedup keeps the order in which values first appear in the input. */
  lemma {:induction false} DedupKeepsFirstAppearanceOrder<T(!new)>(s: seq<T>)
    ensures forall i, j :: 0 <= i < j < |Dedup(s)| ==> FirstIndex(s, Dedup(s)[i]) < FirstIndex(s, Dedup(s)[j])
  {
    if s != [] {
      var init, x := s[..|s| - 1], s[|s| - 1];
      assert s == init + [x];
      DedupKeepsFirstAppearanceOrder(init);
      var d := Dedup(init);
      forall y | y in init
        ensures FirstIndex(s, y) == FirstIndex(init, y)
      {
        FirstIndexOfPrefix(init, x, y);
      }
      if x !in d {
        assert x !in init;
        FirstIndexOfNew(init, x);
      }
    }
  }

  lemma FirstIndexOfPrefix<T>(init: seq<T>, x: T, y: T)
    requires y in init
    ensures FirstIndex(init + [x], y) == FirstIndex(init, y)
  {
    var k := FirstIndex(init, y);
    var s := init + [x];
    assert s[k] == y;
    var k' := FirstIndex(s, y);
    assert k' <= k;
    assert init[k'] == s[k'];
  }

  lemma FirstIndexOfNew<T>(init: seq<T>, x: T)
    requires x !in init
    ensures FirstIndex(init + [x], x) == |init|
  {
  }
}
