/** How aggregateWindow merges the top factors of several forecasts: one entry
    per factor name, keeping the first entry's fields and the largest
    strength seen under that name, in order of first appearance; then a
    stable sort by strength, strongest first, cut to five entries. */
module Factors {
  import opened Shapes
  import opened Numeric
  import opened Lists

  const MaxTopFactors: nat := 5

  /** `fs.find(f => f.name === name)`, as a position: |fs| when there is none. */
  function IndexOfName(fs: seq<TopFactor>, name: string): (k: nat)
    ensures k <= |fs|
    ensures k < |fs| ==> fs[k].name == name
    ensures forall j :: 0 <= j < k ==> fs[j].name != name
  {
    if fs == [] then 0
    else if fs[0].name == name then 0
    else
      var k := 1 + IndexOfName(fs[1..], name);
      assert forall j :: 1 <= j < |fs| ==> fs[j] == fs[1..][j - 1];
      k
  }

  /** Some factor in `fs` is called `name`. */
  predicate Named(fs: seq<TopFactor>, name: string) {
    IndexOfName(fs, name) < |fs|
  }

  predicate DistinctNames(fs: seq<TopFactor>) {
    forall i, j :: 0 <= i < j < |fs| ==> fs[i].name != fs[j].name
  }

  /** The largest strength among the factors called `name`. */
  function BestStrength(fs: seq<TopFactor>, name: string): (r: real)
    requires Named(fs, name)
    ensures forall i :: 0 <= i < |fs| && fs[i].name == name ==> fs[i].strength <= r
  {
    var init, last := fs[..|fs| - 1], fs[|fs| - 1];
    assert forall i :: 0 <= i < |init| ==> init[i] == fs[i];
    if last.name != name then
      assert init[IndexOfName(fs, name)] == fs[IndexOfName(fs, name)];
      BestStrength(init, name)
    else if Named(init, name) then
      Max(BestStrength(init, name), last.strength)
    else
      last.strength
  }

  /** Folds one factor into the merged list: an entry of the same name gets
      the larger of the two strengths, otherwise a copy is appended. */
  function MergeFactor(acc: seq<TopFactor>, f: TopFactor): seq<TopFactor> {
    var k := IndexOfName(acc, f.name);
    if k < |acc| then acc[k := acc[k].(strength := Max(acc[k].strength, f.strength))]
    else acc + [f]
  }

  function MergeByName(fs: seq<TopFactor>): seq<TopFactor> {
    if fs == [] then [] else MergeFactor(MergeByName(fs[..|fs| - 1]), fs[|fs| - 1])
  }

  /** Merging one more factor is one more step of the fold. */
  lemma MergeByNameSnoc(fs: seq<TopFactor>, f: TopFactor)
    ensures MergeByName(fs + [f]) == MergeFactor(MergeByName(fs), f)
  {
    assert (fs + [f])[..|fs|] == fs;
  }

  /** The top factors of every forecast, forecast by forecast. */
  function AllFactors(ws: seq<WindowPrediction>): seq<TopFactor> {
    if ws == [] then [] else AllFactors(ws[..|ws| - 1]) + ws[|ws| - 1].topFactors
  }

  /** The entry merging keeps for `name`: the first factor of that name,
      carrying the best strength seen under it. */
  function MergedEntry(fs: seq<TopFactor>, name: string): TopFactor
    requires Named(fs, name)
  {
    fs[IndexOfName(fs, name)].(strength := BestStrength(fs, name))
  }

  /** Every name of `fs` has an entry in `r`. */
  predicate CoversNames(r: seq<TopFactor>, fs: seq<TopFactor>) {
    forall i :: 0 <= i < |fs| ==> Named(r, fs[i].name)
  }

  /** Every entry of `r` is the merged entry of its name in `fs`. */
  predicate EntriesMerged(r: seq<TopFactor>, fs: seq<TopFactor>) {
    forall i :: 0 <= i < |r| ==> Named(fs, r[i].name) && r[i] == MergedEntry(fs, r[i].name)
  }

  /** The entries of `r` come in the order their names first appear in `fs`. */
  predicate FirstAppearanceOrder(r: seq<TopFactor>, fs: seq<TopFactor>) {
    forall i, j :: 0 <= i < j < |r| ==> IndexOfName(fs, r[i].name) < IndexOfName(fs, r[j].name)
  }

  /** `r` is `fs` merged by name. */
  predicate MergedFrom(r: seq<TopFactor>, fs: seq<TopFactor>) {
    CoversNames(r, fs) && EntriesMerged(r, fs) && FirstAppearanceOrder(r, fs)
  }

  /** Appending a factor changes nothing about the names already present. */
  lemma NamedInPrefix(init: seq<TopFactor>, f: TopFactor, name: string)
    requires Named(init, name)
    ensures Named(init + [f], name)
    ensures IndexOfName(init + [f], name) == IndexOfName(init, name)
    ensures name != f.name ==> MergedEntry(init + [f], name) == MergedEntry(init, name)
  {
    var fs := init + [f];
    assert fs[..|fs| - 1] == init;
    var k := IndexOfName(init, name);
    assert fs[k] == init[k];
    var k' := IndexOfName(fs, name);
    assert init[k'] == fs[k'];
  }

  lemma NamedAppended(init: seq<TopFactor>, f: TopFactor)
    requires !Named(init, f.name)
    ensures IndexOfName(init + [f], f.name) == |init|
    ensures MergedEntry(init + [f], f.name) == f
  {
    var fs := init + [f];
    assert fs[..|fs| - 1] == init;
    assert fs[|init|] == f;
  }

  lemma UpdateCovers(acc: seq<TopFactor>, init: seq<TopFactor>, f: TopFactor)
    requires CoversNames(acc, init)
    requires IndexOfName(acc, f.name) < |acc|
    ensures CoversNames(MergeFactor(acc, f), init + [f])
  {
    var fs := init + [f];
    var r := MergeFactor(acc, f);
    forall i | 0 <= i < |fs|
      ensures Named(r, fs[i].name)
    {
      var n := fs[i].name;
      var m := if i < |init| then IndexOfName(acc, init[i].name) else IndexOfName(acc, f.name);
      assert r[m].name == n;
    }
  }

  lemma UpdateEntries(acc: seq<TopFactor>, init: seq<TopFactor>, f: TopFactor)
    requires EntriesMerged(acc, init) && FirstAppearanceOrder(acc, init)
    requires IndexOfName(acc, f.name) < |acc|
    ensures EntriesMerged(MergeFactor(acc, f), init + [f])
  {
    var fs := init + [f];
    var k := IndexOfName(acc, f.name);
    var r := MergeFactor(acc, f);
    forall i | 0 <= i < |r|
      ensures Named(fs, r[i].name) && r[i] == MergedEntry(fs, r[i].name)
    {
      NamedInPrefix(init, f, acc[i].name);
      if i == k {
        assert fs[..|fs| - 1] == init;
        assert BestStrength(fs, f.name) == Max(BestStrength(init, f.name), f.strength);
      } else {
        assert acc[i].name != f.name;
      }
    }
  }

  lemma UpdateOrder(acc: seq<TopFactor>, init: seq<TopFactor>, f: TopFactor)
    requires EntriesMerged(acc, init) && FirstAppearanceOrder(acc, init)
    requires IndexOfName(acc, f.name) < |acc|
    ensures FirstAppearanceOrder(MergeFactor(acc, f), init + [f])
  {
    var fs := init + [f];
    var r := MergeFactor(acc, f);
    forall i, j | 0 <= i < j < |r|
      ensures IndexOfName(fs, r[i].name) < IndexOfName(fs, r[j].name)
    {
      NamedInPrefix(init, f, acc[i].name);
      NamedInPrefix(init, f, acc[j].name);
    }
  }

  /** A name with no entry in a covering merge does not occur in its input. */
  lemma NewNameNotInInput(acc: seq<TopFactor>, init: seq<TopFactor>, name: string)
    requires CoversNames(acc, init)
    requires !Named(acc, name)
    ensures !Named(init, name)
  {
    forall i | 0 <= i < |init|
      ensures init[i].name != name
    {
      assert Named(acc, init[i].name);
    }
  }

  lemma AppendCovers(acc: seq<TopFactor>, init: seq<TopFactor>, f: TopFactor)
    requires CoversNames(acc, init)
    ensures CoversNames(acc + [f], init + [f])
  {
    var fs := init + [f];
    var r := acc + [f];
    forall i | 0 <= i < |fs|
      ensures Named(r, fs[i].name)
    {
      var m := if i < |init| then IndexOfName(acc, init[i].name) else |acc|;
      assert r[m].name == fs[i].name;
    }
  }

  lemma AppendEntries(acc: seq<TopFactor>, init: seq<TopFactor>, f: TopFactor)
    requires EntriesMerged(acc, init)
    requires !Named(acc, f.name) && !Named(init, f.name)
    ensures EntriesMerged(acc + [f], init + [f])
  {
    var fs := init + [f];
    var r := acc + [f];
    NamedAppended(init, f);
    forall i | 0 <= i < |r|
      ensures Named(fs, r[i].name) && r[i] == MergedEntry(fs, r[i].name)
    {
      if i < |acc| {
        assert r[i] == acc[i];
        NamedInPrefix(init, f, acc[i].name);
      }
    }
  }

  lemma AppendOrder(acc: seq<TopFactor>, init: seq<TopFactor>, f: TopFactor)
    requires EntriesMerged(acc, init) && FirstAppearanceOrder(acc, init)
    requires !Named(init, f.name)
    ensures FirstAppearanceOrder(acc + [f], init + [f])
  {
    var fs := init + [f];
    var r := acc + [f];
    NamedAppended(init, f);
    forall i, j | 0 <= i < j < |r|
      ensures IndexOfName(fs, r[i].name) < IndexOfName(fs, r[j].name)
    {
      assert r[i] == acc[i];
      NamedInPrefix(init, f, acc[i].name);
      if j < |acc| {
        assert r[j] == acc[j];
        NamedInPrefix(init, f, acc[j].name);
      }
    }
  }

  /** A merged list names each name once, and only names of its input. */
  lemma MergedNames(r: seq<TopFactor>, fs: seq<TopFactor>)
    requires MergedFrom(r, fs)
    ensures DistinctNames(r)
    ensures forall name :: Named(r, name) <==> Named(fs, name)
  {
    forall name | Named(fs, name)
      ensures Named(r, name)
    {
      assert fs[IndexOfName(fs, name)].name == name;
    }
    forall name | Named(r, name)
      ensures Named(fs, name)
    {
      assert r[IndexOfName(r, name)].name == name;
    }
  }

  /** Merging by name, stated without the fold. */
  lemma {:induction false} MergeByNameSpec(fs: seq<TopFactor>)
    ensures MergedFrom(MergeByName(fs), fs)
  {
    if fs != [] {
      var init, f := fs[..|fs| - 1], fs[|fs| - 1];
      assert init + [f] == fs;
      MergeByNameSpec(init);
      var acc := MergeByName(init);
      assert MergeByName(fs) == MergeFactor(acc, f);
      if IndexOfName(acc, f.name) < |acc| {
        UpdateCovers(acc, init, f);
        UpdateEntries(acc, init, f);
        UpdateOrder(acc, init, f);
      } else {
        NewNameNotInInput(acc, init, f.name);
        AppendCovers(acc, init, f);
        AppendEntries(acc, init, f);
        AppendOrder(acc, init, f);
      }
    }
  }

  predicate SortedByStrength(fs: seq<TopFactor>) {
    forall i, j :: 0 <= i < j < |fs| ==> fs[i].strength >= fs[j].strength
  }

  /** Places `f` after every entry at least as strong and before every weaker
      one, as a stable descending sort does with the last element. */
  function InsertByStrength(sorted: seq<TopFactor>, f: TopFactor): seq<TopFactor> {
    if sorted == [] then [f]
    else
      var init, last := sorted[..|sorted| - 1], sorted[|sorted| - 1];
      if last.strength >= f.strength then sorted + [f]
      else InsertByStrength(init, f) + [last]
  }

  /** Insertion adds `f` and loses nothing. */
  lemma {:induction false} InsertPermutes(sorted: seq<TopFactor>, f: TopFactor)
    ensures multiset(InsertByStrength(sorted, f)) == multiset(sorted) + multiset{f}
  {
    if sorted != [] {
      var init, last := sorted[..|sorted| - 1], sorted[|sorted| - 1];
      assert sorted == init + [last];
      if last.strength < f.strength {
        InsertPermutes(init, f);
      }
    }
  }

  /** An insertion into a sorted list keeps it sorted. */
  lemma {:induction false} InsertKeepsSorted(sorted: seq<TopFactor>, f: TopFactor)
    requires SortedByStrength(sorted)
    ensures SortedByStrength(InsertByStrength(sorted, f))
  {
    if sorted != [] {
      var init, last := sorted[..|sorted| - 1], sorted[|sorted| - 1];
      if last.strength < f.strength {
        InsertKeepsSorted(init, f);
        var s := InsertByStrength(init, f);
        assert forall i :: 0 <= i < |init| ==> init[i] == sorted[i];
        InsertAtLeast(init, f, last.strength);
        var r := s + [last];
        forall i, j | 0 <= i < j < |r|
          ensures r[i].strength >= r[j].strength
        {
          if j == |s| {
            assert r[i] in s;
          }
        }
      }
    }
  }

  /** Inserting into a list whose entries are all at least `bound` strong,
      an entry at least that strong, gives such a list. */
  lemma InsertAtLeast(sorted: seq<TopFactor>, f: TopFactor, bound: real)
    requires forall i :: 0 <= i < |sorted| ==> sorted[i].strength >= bound
    requires f.strength >= bound
    ensures forall x :: x in InsertByStrength(sorted, f) ==> x.strength >= bound
  {
    InsertPermutes(sorted, f);
    var s := InsertByStrength(sorted, f);
    forall x | x in s
      ensures x.strength >= bound
    {
      assert x in multiset(s);
      if x != f {
        assert x in multiset(sorted);
      }
    }
  }

  /** Inserting a factor of a new name keeps the names distinct. */
  lemma {:induction false} InsertKeepsNamesDistinct(sorted: seq<TopFactor>, f: TopFactor)
    requires DistinctNames(sorted) && !Named(sorted, f.name)
    ensures DistinctNames(InsertByStrength(sorted, f))
  {
    if sorted != [] {
      var init, last := sorted[..|sorted| - 1], sorted[|sorted| - 1];
      if last.strength >= f.strength {
        assert forall i :: 0 <= i < |sorted| ==> sorted[i].name != f.name;
      } else {
        assert forall i :: 0 <= i < |init| ==> init[i] == sorted[i];
        InsertKeepsNamesDistinct(init, f);
        InsertPermutes(init, f);
        var s := InsertByStrength(init, f);
        forall x | x in s
          ensures x.name != last.name
        {
          assert x in multiset(s);
          if x != f {
            assert x in multiset(init);
            var i :| 0 <= i < |init| && init[i] == x;
            assert sorted[i] == x;
          }
        }
        var r := s + [last];
        forall i, j | 0 <= i < j < |r|
          ensures r[i].name != r[j].name
        {
          if j == |s| {
            assert r[i] in s;
          }
        }
      }
    }
  }

  /** `fs.sort((a, b) => b.strength - a.strength)`: a stable sort, strongest first. */
  function SortByStrength(fs: seq<TopFactor>): seq<TopFactor> {
    if fs == [] then [] else InsertByStrength(SortByStrength(fs[..|fs| - 1]), fs[|fs| - 1])
  }

  /** The sort returns a permutation of its input, strongest first. */
  lemma {:induction false} SortByStrengthSpec(fs: seq<TopFactor>)
    ensures multiset(SortByStrength(fs)) == multiset(fs)
    ensures SortedByStrength(SortByStrength(fs))
  {
    if fs != [] {
      var init, last := fs[..|fs| - 1], fs[|fs| - 1];
      assert fs == init + [last];
      SortByStrengthSpec(init);
      InsertKeepsSorted(SortByStrength(init), last);
      InsertPermutes(SortByStrength(init), last);
    }
  }

  /** The entries of strength exactly `v`, in their order in `fs`. */
  function OfStrength(fs: seq<TopFactor>, v: real): seq<TopFactor> {
    if fs == [] then []
    else OfStrength(fs[..|fs| - 1], v) + (if fs[|fs| - 1].strength == v then [fs[|fs| - 1]] else [])
  }

  lemma {:induction false} OfStrengthAppend(a: seq<TopFactor>, b: seq<TopFactor>, v: real)
    ensures OfStrength(a + b, v) == OfStrength(a, v) + OfStrength(b, v)
  {
    if b == [] {
      assert a + b == a;
    } else {
      var init, last := b[..|b| - 1], b[|b| - 1];
      assert (a + b)[..|a + b| - 1] == a + init && (a + b)[|a + b| - 1] == last;
      OfStrengthAppend(a, init, v);
    }
  }

  lemma OfStrengthSingle(x: TopFactor, v: real)
    ensures OfStrength([x], v) == if x.strength == v then [x] else []
  {
    assert [x][..0] == [];
  }

  lemma SwapAroundEmpty(x: seq<TopFactor>, y: seq<TopFactor>, z: seq<TopFactor>)
    requires y == [] || z == []
    ensures x + y + z == x + z + y
  {
  }

  /** Moving `f` in front of a weaker `last` does not reorder entries of any
      one strength, since at most one of the two has strength `v`. */
  lemma StableStep(s: seq<TopFactor>, init: seq<TopFactor>, last: TopFactor, f: TopFactor, v: real)
    requires last.strength < f.strength
    requires OfStrength(s, v) == OfStrength(init, v) + OfStrength([f], v)
    ensures OfStrength(s + [last], v) == OfStrength(init + [last], v) + OfStrength([f], v)
  {
    OfStrengthAppend(s, [last], v);
    OfStrengthAppend(init, [last], v);
    OfStrengthSingle(last, v);
    OfStrengthSingle(f, v);
    SwapAroundEmpty(OfStrength(init, v), OfStrength([f], v), OfStrength([last], v));
  }

  /** Inserting places `f` after every entry of its strength. */
  lemma {:induction false} InsertIsStable(sorted: seq<TopFactor>, f: TopFactor, v: real)
    ensures OfStrength(InsertByStrength(sorted, f), v) == OfStrength(sorted, v) + OfStrength([f], v)
  {
    OfStrengthSingle(f, v);
    if sorted == [] {
      assert InsertByStrength(sorted, f) == [f];
    } else {
      var init, last := sorted[..|sorted| - 1], sorted[|sorted| - 1];
      if last.strength >= f.strength {
        assert InsertByStrength(sorted, f) == sorted + [f];
        OfStrengthAppend(sorted, [f], v);
      } else {
        var s := InsertByStrength(init, f);
        assert InsertByStrength(sorted, f) == s + [last];
        InsertIsStable(init, f, v);
        assert sorted == init + [last];
        StableStep(s, init, last, f, v);
      }
    }
  }

  /** The step of the stability proof: sorting the prefix and inserting the
      last entry keeps the order of each strength. */
  lemma StableCompose(t: seq<TopFactor>, s: seq<TopFactor>, init: seq<TopFactor>, last: TopFactor, v: real)
    requires OfStrength(s, v) == OfStrength(init, v)
    requires OfStrength(t, v) == OfStrength(s, v) + OfStrength([last], v)
    ensures OfStrength(t, v) == OfStrength(init + [last], v)
  {
    OfStrengthAppend(init, [last], v);
  }

  /** The sort is stable: entries of equal strength keep their input order. */
  lemma {:induction false} SortIsStable(fs: seq<TopFactor>, v: real)
    ensures OfStrength(SortByStrength(fs), v) == OfStrength(fs, v)
  {
    if fs != [] {
      var init, last := fs[..|fs| - 1], fs[|fs| - 1];
      var s := SortByStrength(init);
      var t := InsertByStrength(s, last);
      assert SortByStrength(fs) == t;
      SortIsStable(init, v);
      InsertIsStable(s, last, v);
      StableCompose(t, s, init, last, v);
      assert fs == init + [last];
    }
  }

  /** Sorting keeps names distinct. */
  lemma {:induction false} SortKeepsNamesDistinct(fs: seq<TopFactor>)
    requires DistinctNames(fs)
    ensures DistinctNames(SortByStrength(fs))
  {
    if fs != [] {
      var init, last := fs[..|fs| - 1], fs[|fs| - 1];
      assert forall i :: 0 <= i < |init| ==> init[i] == fs[i];
      SortKeepsNamesDistinct(init);
      SortByStrengthSpec(init);
      var s := SortByStrength(init);
      forall i | 0 <= i < |s|
        ensures s[i].name != last.name
      {
        assert s[i] in multiset(init);
        var j :| 0 <= j < |init| && init[j] == s[i];
        assert fs[j] == init[j];
      }
      InsertKeepsNamesDistinct(s, last);
    }
  }

  /** The merged, sorted and cut list of top factors of a set of forecasts. */
  function TopFactors(ws: seq<WindowPrediction>): seq<TopFactor> {
    Take(SortByStrength(MergeByName(AllFactors(ws))), MaxTopFactors)
  }

  /** Every entry of the cut list is an entry of the merged list. */
  lemma TopFactorsFromMerged(ws: seq<WindowPrediction>)
    ensures forall i :: 0 <= i < |TopFactors(ws)| ==> TopFactors(ws)[i] in MergeByName(AllFactors(ws))
  {
    var merged := MergeByName(AllFactors(ws));
    SortByStrengthSpec(merged);
    var sorted := SortByStrength(merged);
    var r := TopFactors(ws);
    forall i | 0 <= i < |r|
      ensures r[i] in merged
    {
      assert r[i] == sorted[i];
      assert sorted[i] in multiset(merged);
    }
  }

  /** Cutting a sorted list leaves out nothing stronger than what it keeps. */
  lemma CutKeepsStrongest(sorted: seq<TopFactor>, n: nat, x: TopFactor)
    requires SortedByStrength(sorted)
    requires x in sorted && x !in Take(sorted, n)
    ensures forall i :: 0 <= i < |Take(sorted, n)| ==> x.strength <= Take(sorted, n)[i].strength
  {
    var r := Take(sorted, n);
    var j :| 0 <= j < |sorted| && sorted[j] == x;
    assert j >= |r|;
  }

  /** A name left out by the cut is no stronger than any name kept. */
  lemma TopFactorsDropWeakest(ws: seq<WindowPrediction>, name: string)
    requires Named(AllFactors(ws), name) && !Named(TopFactors(ws), name)
    ensures forall i :: 0 <= i < |TopFactors(ws)| ==> BestStrength(AllFactors(ws), name) <= TopFactors(ws)[i].strength
  {
    var all := AllFactors(ws);
    var merged := MergeByName(all);
    MergeByNameSpec(all);
    MergedNames(merged, all);
    SortByStrengthSpec(merged);
    var sorted := SortByStrength(merged);
    var r := TopFactors(ws);
    var x := merged[IndexOfName(merged, name)];
    assert x.strength == BestStrength(all, name);
    assert x in multiset(sorted);
    assert x !in r;
    CutKeepsStrongest(sorted, MaxTopFactors, x);
  }

  /** Sorting keeps every entry. */
  lemma SortKeepsMember(fs: seq<TopFactor>, x: TopFactor)
    requires x in fs
    ensures x in SortByStrength(fs)
  {
    SortByStrengthSpec(fs);
    assert x in multiset(fs);
  }

  /** Sorting and cutting a list of at most five entries keeps every name. */
  lemma ShortSortKeepsNames(merged: seq<TopFactor>, name: string)
    requires |merged| <= MaxTopFactors && Named(merged, name)
    ensures Named(Take(SortByStrength(merged), MaxTopFactors), name)
  {
    SortByStrengthSpec(merged);
    var sorted := SortByStrength(merged);
    assert |multiset(sorted)| == |multiset(merged)|;
    assert Take(sorted, MaxTopFactors) == sorted;
    var x := merged[IndexOfName(merged, name)];
    SortKeepsMember(merged, x);
    var j :| 0 <= j < |sorted| && sorted[j] == x;
  }

  /** With at most five distinct names the cut keeps every name. */
  lemma TopFactorsKeepAll(ws: seq<WindowPrediction>, name: string)
    requires |MergeByName(AllFactors(ws))| <= MaxTopFactors
    requires Named(AllFactors(ws), name)
    ensures Named(TopFactors(ws), name)
  {
    var all := AllFactors(ws);
    var merged := MergeByName(all);
    MergeByNameSpec(all);
    assert Named(merged, name) by {
      assert all[IndexOfName(all, name)].name == name;
    }
    ShortSortKeepsNames(merged, name);
  }

  /** At most five entries, one per name, strongest first. */
  lemma TopFactorsShape(ws: seq<WindowPrediction>)
    ensures |TopFactors(ws)| <= MaxTopFactors
    ensures DistinctNames(TopFactors(ws))
    ensures SortedByStrength(TopFactors(ws))
  {
    var merged := MergeByName(AllFactors(ws));
    MergeByNameSpec(AllFactors(ws));
    MergedNames(merged, AllFactors(ws));
    SortKeepsNamesDistinct(merged);
    SortByStrengthSpec(merged);
  }

  /** Each entry kept is the merged entry of its name. */
  lemma TopFactorsEntries(ws: seq<WindowPrediction>)
    ensures forall i :: 0 <= i < |TopFactors(ws)| ==>
      Named(AllFactors(ws), TopFactors(ws)[i].name) &&
      TopFactors(ws)[i] == MergedEntry(AllFactors(ws), TopFactors(ws)[i].name)
  {
    var all := AllFactors(ws);
    var merged := MergeByName(all);
    MergeByNameSpec(all);
    TopFactorsFromMerged(ws);
    var r := TopFactors(ws);
    forall i | 0 <= i < |r|
      ensures Named(all, r[i].name) && r[i] == MergedEntry(all, r[i].name)
    {
      var m :| 0 <= m < |merged| && merged[m] == r[i];
    }
  }

  /** What the aggregated top factors are: at most five, one per name, strongest
      first; each the first factor of its name carrying the best strength of
      that name; every name is kept when there are at most five, and a name
      left out is no stronger than any name kept. */
  lemma TopFactorsSpec(ws: seq<WindowPrediction>)
    ensures var r := TopFactors(ws); var all := AllFactors(ws);
      && |r| <= MaxTopFactors
      && DistinctNames(r)
      && SortedByStrength(r)
      && (forall i :: 0 <= i < |r| ==> Named(all, r[i].name) && r[i] == MergedEntry(all, r[i].name))
      && (|MergeByName(all)| <= MaxTopFactors ==> forall name :: Named(r, name) <==> Named(all, name))
      && (forall name :: Named(all, name) && !Named(r, name) ==>
            forall i :: 0 <= i < |r| ==> BestStrength(all, name) <= r[i].strength)
  {
    var all := AllFactors(ws);
    var r := TopFactors(ws);
    TopFactorsShape(ws);
    TopFactorsEntries(ws);
    forall name | Named(all, name) && !Named(r, name)
      ensures forall i :: 0 <= i < |r| ==> BestStrength(all, name) <= r[i].strength
    {
      TopFactorsDropWeakest(ws, name);
    }
    if |MergeByName(all)| <= MaxTopFactors {
      forall name
        ensures Named(r, name) <==> Named(all, name)
      {
        if Named(all, name) {
          TopFactorsKeepAll(ws, name);
        }
        if Named(r, name) {
          assert r[IndexOfName(r, name)].name == name;
        }
      }
    }
  }

  /** `allFactors.find(ef => ef.name === name)`, as a position. */
  method FindByName(merged: seq<TopFactor>, name: string) returns (k: nat)
    ensures k == IndexOfName(merged, name)
  {
    k := 0;
    while k < |merged| && merged[k].name != name
      invariant 0 <= k <= |merged|
      invariant forall m :: 0 <= m < k ==> merged[m].name != name
    {
      k := k + 1;
    }
  }

  /** One step of the merge: raise the strength of the entry of the same
      name, or append a copy when there is none. */
  method MergeOne(merged: seq<TopFactor>, f: TopFactor) returns (result: seq<TopFactor>)
    ensures result == MergeFactor(merged, f)
  {
    var k := FindByName(merged, f.name);
    if k < |merged| {
      result := merged[k := merged[k].(strength := Max(merged[k].strength, f.strength))];
    } else {
      result := merged + [f];
    }
  }

  /** The inner loop of aggregateWindow's merge: folds one forecast's factors
      into the list merged so far. */
  method MergeForecastFactors(merged: seq<TopFactor>, ghost before: seq<TopFactor>, fs: seq<TopFactor>)
    returns (result: seq<TopFactor>)
    requires merged == MergeByName(before)
    ensures result == MergeByName(before + fs)
  {
    result := merged;
    ghost var seen := before;
    for j := 0 to |fs|
      invariant seen == before + fs[..j]
      invariant result == MergeByName(seen)
    {
      MergeByNameSnoc(seen, fs[j]);
      result := MergeOne(result, fs[j]);
      seen := seen + [fs[j]];
      assert fs[..j + 1] == fs[..j] + [fs[j]];
    }
    assert fs[..|fs|] == fs;
  }

  /** The loops of aggregateWindow that merge the top factors of every
      forecast into one list, updating an entry in place on a repeated name. */
  method MergeTopFactors(ws: seq<WindowPrediction>) returns (merged: seq<TopFactor>)
    ensures merged == MergeByName(AllFactors(ws))
  {
    merged := [];
    for i := 0 to |ws|
      invariant merged == MergeByName(AllFactors(ws[..i]))
    {
      merged := MergeForecastFactors(merged, AllFactors(ws[..i]), ws[i].topFactors);
      assert ws[..i + 1][..i] == ws[..i];
    }
    assert ws[..|ws|] == ws;
  }
}
