/**
 * The tag-to-index table of a multi-output ParDo. The main output tag is
 * given index 0; every other tag, in the bundle's iteration order, is given
 * the next value of a counter that starts at 1. The union coder, in
 * contrast, lists the variants in plain iteration order. This module gives
 * the table a closed form and proves what it guarantees, including when the
 * two orders agree.
 */
module TagIndex {
  import opened Plans

  /** How many entries of `s` are not the main tag. */
  function CountOther(s: seq<TupleTag>, main: TupleTag): (n: nat)
    ensures n <= |s|
  {
    if s == [] then 0
    else CountOther(s[..|s| - 1], main) + (if s[|s| - 1] == main then 0 else 1)
  }

  /** The first position of `tag` in `tags`. */
  function PositionOf(tags: seq<TupleTag>, tag: TupleTag): (p: nat)
    requires tag in tags
    ensures p < |tags| && tags[p] == tag
    ensures forall j :: 0 <= j < p ==> tags[j] != tag
  {
    if tags[0] == tag then 0 else 1 + PositionOf(tags[1..], tag)
  }

  /** The index of the tag at position `i`: 0 for the main tag, else one past the non-main tags before it. */
  function OutputIndex(tags: seq<TupleTag>, main: TupleTag, i: nat): (r: nat)
    requires i < |tags|
  {
    if tags[i] == main then 0 else 1 + CountOther(tags[..i], main)
  }

  /** The complete table: the main tag and every tag of the bundle, with its index. */
  function IndexTable(tags: seq<TupleTag>, main: TupleTag): (table: map<TupleTag, nat>)
    ensures table.Keys == {main} + (set t | t in tags)
  {
    map t | t in {main} + (set u | u in tags) ::
      if t == main then 0 else OutputIndex(tags, main, PositionOf(tags, t))
  }

  /** The set of tags occurring in `s`. */
  function TagSet(s: seq<TupleTag>): (r: set<TupleTag>) {
    if s == [] then {} else TagSet(s[..|s| - 1]) + {s[|s| - 1]}
  }

  lemma TagSetSnoc(s: seq<TupleTag>, x: TupleTag)
    ensures TagSet(s + [x]) == TagSet(s) + {x}
  {
    assert (s + [x])[..|s + [x]| - 1] == s;
  }

  lemma {:induction false} TagSetMembers(s: seq<TupleTag>, t: TupleTag)
    ensures t in TagSet(s) <==> t in s
  {
    if s != [] {
      var n := |s| - 1;
      assert s == s[..n] + [s[n]];
      TagSetMembers(s[..n], t);
    }
  }

  lemma {:induction false} CountOtherSnoc(s: seq<TupleTag>, x: TupleTag, main: TupleTag)
    ensures CountOther(s + [x], main) == CountOther(s, main) + (if x == main then 0 else 1)
  {
    assert (s + [x])[..|s + [x]| - 1] == s;
  }

  /** Counting over a longer prefix never counts fewer tags, and counts strictly more past a non-main tag. */
  lemma {:induction false} CountOtherMonotone(s: seq<TupleTag>, main: TupleTag, i: nat, j: nat)
    requires i < j <= |s|
    ensures CountOther(s[..i], main) + (if s[i] == main then 0 else 1) <= CountOther(s[..j], main)
  {
    if j == i + 1 {
      assert s[..j] == s[..i] + [s[i]];
      CountOtherSnoc(s[..i], s[i], main);
    } else {
      CountOtherMonotone(s, main, i, j - 1);
      assert s[..j] == s[..j - 1] + [s[j - 1]];
      CountOtherSnoc(s[..j - 1], s[j - 1], main);
    }
  }

  /** The table sends the main tag to 0 and the tag at each position to that position's index. */
  lemma IndexTableAt(tags: seq<TupleTag>, main: TupleTag, i: nat)
    requires Distinct(tags) && i < |tags|
    ensures IndexTable(tags, main)[main] == 0
    ensures IndexTable(tags, main)[tags[i]] == OutputIndex(tags, main, i)
  {
    var p := PositionOf(tags, tags[i]);
    assert p == i;
  }

  /** Distinct tags receive distinct indices. */
  lemma IndexTableInjective(tags: seq<TupleTag>, main: TupleTag, i: nat, j: nat)
    requires Distinct(tags) && i < j < |tags|
    ensures IndexTable(tags, main)[tags[i]] != IndexTable(tags, main)[tags[j]]
  {
    IndexTableAt(tags, main, i);
    IndexTableAt(tags, main, j);
    if tags[i] != main && tags[j] != main {
      CountOtherMonotone(tags, main, i, j);
    }
  }

  /** Every index in the table is below one plus the number of non-main tags. */
  lemma IndexTableBound(tags: seq<TupleTag>, main: TupleTag, i: nat)
    requires Distinct(tags) && i < |tags|
    ensures IndexTable(tags, main)[tags[i]] <= CountOther(tags, main)
  {
    IndexTableAt(tags, main, i);
    if tags[i] != main {
      CountOtherMonotone(tags, main, i, |tags|);
      assert tags[..|tags|] == tags;
    }
  }

  /** Every value below the number of non-main tags of `s` is reached by some non-main position. */
  lemma {:induction false} CountOtherReaches(s: seq<TupleTag>, main: TupleTag, k: nat)
    requires k < CountOther(s, main)
    ensures exists j :: 0 <= j < |s| && s[j] != main && CountOther(s[..j], main) == k
  {
    var n := |s| - 1;
    assert s == s[..n] + [s[n]];
    CountOtherSnoc(s[..n], s[n], main);
    if k < CountOther(s[..n], main) {
      CountOtherReaches(s[..n], main, k);
      var j :| 0 <= j < n && s[..n][j] != main && CountOther(s[..n][..j], main) == k;
      assert s[..n][..j] == s[..j];
    } else {
      assert s[n] != main && CountOther(s[..n], main) == k;
    }
  }

  /** With the main tag among exactly once, one occurrence is not counted. */
  lemma {:induction false} CountOtherWithMain(s: seq<TupleTag>, main: TupleTag)
    requires Distinct(s) && main in s
    ensures CountOther(s, main) == |s| - 1
  {
    var n := |s| - 1;
    assert s == s[..n] + [s[n]];
    CountOtherSnoc(s[..n], s[n], main);
    if s[n] == main {
      CountOtherWithout(s[..n], main);
    } else {
      assert main in s[..n];
      CountOtherWithMain(s[..n], main);
    }
  }

  /** Without the main tag, every entry is counted. */
  lemma {:induction false} CountOtherWithout(s: seq<TupleTag>, main: TupleTag)
    requires main !in s
    ensures CountOther(s, main) == |s|
  {
    if s != [] {
      var n := |s| - 1;
      assert s == s[..n] + [s[n]];
      CountOtherSnoc(s[..n], s[n], main);
      CountOtherWithout(s[..n], main);
    }
  }

  /**
   * When the main tag is one of the outputs, the table's indices are exactly
   * 0 .. |outputs| - 1: dense and without gaps.
   */
  lemma IndexTableDense(tags: seq<TupleTag>, main: TupleTag)
    requires Distinct(tags) && main in tags
    ensures forall v :: v in IndexTable(tags, main).Values ==> v < |tags|
    ensures forall k :: 0 <= k < |tags| ==> k in IndexTable(tags, main).Values
  {
    var table := IndexTable(tags, main);
    CountOtherWithMain(tags, main);
    forall v | v in table.Values ensures 0 <= v < |tags| {
      var t :| t in table && table[t] == v;
      if t != main {
        IndexTableBound(tags, main, PositionOf(tags, t));
      }
    }
    forall k | 0 <= k < |tags| ensures k in table.Values {
      if k == 0 {
        assert table[main] == 0;
      } else {
        CountOtherReaches(tags, main, k - 1);
        var j :| 0 <= j < |tags| && tags[j] != main && CountOther(tags[..j], main) == k - 1;
        IndexTableAt(tags, main, j);
        assert table[tags[j]] == k;
      }
    }
  }

  /**
   * The union coder lists one variant per output in iteration order, so the
   * output at position i is decoded with variant i. The index the table gives
   * it agrees with that position for every output if and only if the main tag
   * comes first in iteration order.
   */
  lemma IndexAgreesWithIterationOrderIffMainFirst(tags: seq<TupleTag>, main: TupleTag)
    requires Distinct(tags) && main in tags
    ensures (forall i :: 0 <= i < |tags| ==> IndexTable(tags, main)[tags[i]] == i) <==> tags[0] == main
  {
    var table := IndexTable(tags, main);
    if tags[0] == main {
      forall i | 0 <= i < |tags| ensures table[tags[i]] == i {
        IndexTableAt(tags, main, i);
        if i > 0 {
          assert main !in tags[1..i] by {
            forall j | 1 <= j < i ensures tags[j] != main {}
          }
          assert tags[..i] == [main] + tags[1..i];
          CountOtherWithout(tags[1..i], main);
          CountOtherPrependMain(tags[1..i], main);
        }
      }
    } else {
      IndexTableAt(tags, main, 0);
      assert table[tags[0]] != 0;
    }
  }

  lemma {:induction false} CountOtherPrependMain(s: seq<TupleTag>, main: TupleTag)
    ensures CountOther([main] + s, main) == CountOther(s, main)
  {
    if s != [] {
      var n := |s| - 1;
      assert [main] + s == ([main] + s[..n]) + [s[n]];
      assert s == s[..n] + [s[n]];
      CountOtherSnoc([main] + s[..n], s[n], main);
      CountOtherSnoc(s[..n], s[n], main);
      CountOtherPrependMain(s[..n], main);
    } else {
      assert [main] + s == [] + [main];
      CountOtherSnoc([], main, main);
    }
  }

  /**
   * When the main tag is not among the outputs, every output's index is one
   * past its position: the last output's index equals the number of union
   * coder variants and names none of them.
   */
  lemma IndexShiftedWhenMainAbsent(tags: seq<TupleTag>, main: TupleTag)
    requires Distinct(tags) && main !in tags
    ensures forall i :: 0 <= i < |tags| ==> IndexTable(tags, main)[tags[i]] == i + 1
  {
    forall i | 0 <= i < |tags| ensures IndexTable(tags, main)[tags[i]] == i + 1 {
      IndexTableAt(tags, main, i);
      assert main !in tags[..i];
      CountOtherWithout(tags[..i], main);
    }
  }
}
