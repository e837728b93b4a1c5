/** `merge_skill_lists(*skill_lists)`: the union of the given lists, as a
    sorted list without duplicates. */
module SkillMerge {
  import opened StringOrder

  /** `y` occurs in at least one of the lists. */
  predicate InSome(lists: seq<seq<string>>, y: string) {
    exists i | 0 <= i < |lists| :: y in lists[i]
  }

  /** Puts `x` into its place in a strictly sorted sequence, unless present. */
  function Insert(xs: seq<string>, x: string): (r: seq<string>)
    requires StrictlySorted(xs)
    ensures StrictlySorted(r)
    ensures forall y :: y in r <==> y in xs || y == x
    decreases |xs|
  {
    if |xs| == 0 then [x]
    else if x == xs[0] then xs
    else if Below(x, xs[0]) then
      PrependBelowHead(x, xs);
      [x] + xs
    else
      var rest := Insert(xs[1..], x);
      BelowTotal(x, xs[0]);
      assert forall y | y in rest :: Below(xs[0], y);
      PrependSorted(xs[0], rest);
      assert xs == [xs[0]] + xs[1..];
      [xs[0]] + rest
  }

  lemma PrependSorted(x: string, xs: seq<string>)
    requires StrictlySorted(xs)
    requires forall y | y in xs :: Below(x, y)
    ensures StrictlySorted([x] + xs)
  {
    forall i, j | 0 <= i < j < |[x] + xs| ensures Below(([x] + xs)[i], ([x] + xs)[j]) {
      if i == 0 {
        assert ([x] + xs)[j] == xs[j - 1];
      } else {
        assert ([x] + xs)[i] == xs[i - 1] && ([x] + xs)[j] == xs[j - 1];
      }
    }
  }

  lemma PrependBelowHead(x: string, xs: seq<string>)
    requires StrictlySorted(xs) && |xs| > 0 && Below(x, xs[0])
    ensures StrictlySorted([x] + xs)
  {
    forall y | y in xs ensures Below(x, y) {
      var k :| 0 <= k < |xs| && xs[k] == y;
      if k > 0 { BelowTransitive(x, xs[0], y); }
    }
    PrependSorted(x, xs);
  }

  /** Inserts every element of `list` into the sorted accumulator. */
  function InsertAll(acc: seq<string>, list: seq<string>): (r: seq<string>)
    requires StrictlySorted(acc)
    ensures StrictlySorted(r)
    ensures forall y :: y in r <==> y in acc || y in list
    decreases |list|
  {
    if |list| == 0 then acc
    else
      assert forall y :: y in list <==> y == list[0] || y in list[1..];
      InsertAll(Insert(acc, list[0]), list[1..])
  }

  /** `merge_skill_lists(*lists)`: the result is strictly sorted, hence
      free of duplicates, and holds exactly the strings that occur in some
      list. Python skips empty lists before `set.update`, which changes
      nothing about the union. */
  function MergeSkillLists(lists: seq<seq<string>>): (r: seq<string>)
    ensures StrictlySorted(r) && NoDuplicates(r)
    ensures forall y :: y in r <==> InSome(lists, y)
    decreases |lists|
  {
    if |lists| == 0 then []
    else
      var init := lists[..|lists| - 1];
      var last := lists[|lists| - 1];
      var r := InsertAll(MergeSkillLists(init), last);
      SortedHasNoDuplicates(r);
      assert forall y :: InSome(lists, y) <==> InSome(init, y) || y in last by {
        forall y ensures InSome(lists, y) <==> InSome(init, y) || y in last {
          if InSome(lists, y) {
            var i :| 0 <= i < |lists| && y in lists[i];
            if i < |lists| - 1 { assert init[i] == lists[i]; }
          }
          if InSome(init, y) {
            var i :| 0 <= i < |init| && y in init[i];
            assert lists[i] == init[i];
          }
        }
      }
      r
  }

  /** The merge of two lists, as every call site uses it. */
  lemma MergeTwo(a: seq<string>, b: seq<string>)
    ensures StrictlySorted(MergeSkillLists([a, b]))
    ensures forall y :: y in MergeSkillLists([a, b]) <==> y in a || y in b
  {
    var lists := [a, b];
    forall y ensures InSome(lists, y) <==> y in a || y in b {
      if y in a { assert y in lists[0]; }
      if y in b { assert y in lists[1]; }
    }
  }

  /** The merge is THE sorted union: any strictly sorted sequence holding
      exactly the union of the lists is the merge. */
  lemma MergeIsSortedUnion(lists: seq<seq<string>>, r: seq<string>)
    requires StrictlySorted(r)
    requires forall y :: y in r <==> InSome(lists, y)
    ensures r == MergeSkillLists(lists)
  {
    SortedUnique(r, MergeSkillLists(lists));
  }

  /** The order of the arguments does not matter. */
  lemma MergeCommutes(a: seq<string>, b: seq<string>)
    ensures MergeSkillLists([a, b]) == MergeSkillLists([b, a])
  {
    MergeTwo(a, b);
    MergeTwo(b, a);
    SortedUnique(MergeSkillLists([a, b]), MergeSkillLists([b, a]));
  }

  /** Merging is idempotent: re-merging a merged list with the same inputs
      adds nothing, so option lists are stable across passes. */
  lemma MergeAbsorbs(a: seq<string>, b: seq<string>)
    ensures MergeSkillLists([MergeSkillLists([a, b]), b]) == MergeSkillLists([a, b])
  {
    var m := MergeSkillLists([a, b]);
    MergeTwo(a, b);
    MergeTwo(m, b);
    SortedUnique(MergeSkillLists([m, b]), m);
  }
}
