/**
 * Which ingredient pairs the recipe synthesizer turns into recipes. The
 * nested loop visits every (a, b) with a from the first pool and b from the
 * second, skips a == b, and keeps a pair only when the unsigned 32-bit sum
 * of the two form ids has not been seen before in the same call.
 */
module Pairing {
  import opened Forms

  type Pair = (Ingredient, Ingredient)

  /** The deduplication key: the two form ids added as unsigned 32-bit numbers. */
  function SumKey(a: Ingredient, b: Ingredient): FormId
  {
    (a.id + b.id) % U32Modulus
  }

  /** The pairs of the inner loop for one ingredient of the first pool. */
  function Row(a: Ingredient, second: seq<Ingredient>): (r: seq<Pair>)
    ensures |r| == |second|
    ensures forall k :: 0 <= k < |second| ==> r[k] == (a, second[k])
  {
    seq(|second|, k requires 0 <= k < |second| => (a, second[k]))
  }

  /** Every pair the nested loop visits, in visiting order. */
  function Candidates(first: seq<Ingredient>, second: seq<Ingredient>): seq<Pair>
  {
    if first == [] then []
    else Candidates(first[..|first| - 1], second) + Row(first[|first| - 1], second)
  }

  /** The keys of a sequence of pairs. */
  function KeySet(sel: seq<Pair>): set<FormId>
  {
    set j | 0 <= j < |sel| :: SumKey(sel[j].0, sel[j].1)
  }

  /** The visited pairs that get a recipe: not a self-pair, and a key not yet used. */
  function Select(cands: seq<Pair>): (r: seq<Pair>)
    ensures |r| <= |cands|
  {
    if cands == [] then []
    else
      var prev := Select(cands[..|cands| - 1]);
      var c := cands[|cands| - 1];
      if c.0 == c.1 || SumKey(c.0, c.1) in KeySet(prev) then prev else prev + [c]
  }

  /**
   * The pairs one call of the synthesizer creates recipes for, in creation
   * order: of the visited pairs, each first non-self pair of its key.
   */
  function Plan(first: seq<Ingredient>, second: seq<Ingredient>): (r: seq<Pair>)
    ensures var cands := Candidates(first, second); r == FirstsUpTo(cands, |cands|)
    ensures |r| <= |first| * |second|
  {
    var cands := Candidates(first, second);
    SelectFirsts(cands, |cands|);
    assert cands[..|cands|] == cands;
    SelectFrom(cands);
    CandidatesLength(first, second);
    Select(cands)
  }

  lemma KeySetAppend(s: seq<Pair>, c: Pair)
    ensures KeySet(s + [c]) == KeySet(s) + {SumKey(c.0, c.1)}
  {
    var t := s + [c];
    assert forall j :: 0 <= j < |s| ==> t[j] == s[j];
    assert t[|s|] == c;
  }

  /** One more visited pair: it is selected exactly when it is no self-pair and its key is new. */
  lemma SelectSnoc(cands: seq<Pair>, c: Pair)
    ensures Select(cands + [c]) ==
      if c.0 == c.1 || SumKey(c.0, c.1) in KeySet(Select(cands)) then Select(cands) else Select(cands) + [c]
  {
    assert (cands + [c])[..|cands|] == cands;
  }

  /**
   * The inner loop over `row` for the first-pool ingredient `a`, starting
   * from the used keys `keys`: the keys afterwards and the pairs picked,
   * in order.
   */
  function RowPicks(keys: set<FormId>, a: Ingredient, row: seq<Ingredient>): (set<FormId>, seq<Pair>)
  {
    if row == [] then (keys, [])
    else
      var prev := RowPicks(keys, a, row[..|row| - 1]);
      var b := row[|row| - 1];
      if a != b && SumKey(a, b) !in prev.0 then (prev.0 + {SumKey(a, b)}, prev.1 + [(a, b)]) else prev
  }

  /** Visiting one more element of the inner sequence visits one more pair, at the end. */
  lemma RowSnoc(before: seq<Pair>, a: Ingredient, row: seq<Ingredient>)
    requires row != []
    ensures before + Row(a, row) == (before + Row(a, row[..|row| - 1])) + [(a, row[|row| - 1])]
  {
    assert Row(a, row) == Row(a, row[..|row| - 1]) + [(a, row[|row| - 1])];
  }

  /**
   * The inner loop selects what `Select` selects: run after the pairs
   * `before`, with the keys those selected, it appends to that selection
   * exactly the pairs it picks, and ends with their keys.
   */
  lemma {:induction false} RowPicksSelect(before: seq<Pair>, a: Ingredient, row: seq<Ingredient>, keys: set<FormId>)
    requires keys == KeySet(Select(before))
    ensures Select(before + Row(a, row)) == Select(before) + RowPicks(keys, a, row).1
    ensures RowPicks(keys, a, row).0 == KeySet(Select(before) + RowPicks(keys, a, row).1)
  {
    if row == [] {
      assert before + Row(a, row) == before;
    } else {
      var n := |row| - 1;
      var b := row[n];
      RowPicksSelect(before, a, row[..n], keys);
      var prev := RowPicks(keys, a, row[..n]);
      var cands := before + Row(a, row[..n]);
      RowSnoc(before, a, row);
      SelectSnoc(cands, (a, b));
      assert Select(before) + prev.1 + [(a, b)] == Select(before) + (prev.1 + [(a, b)]);
      KeySetAppend(Select(before) + prev.1, (a, b));
    }
  }

  lemma {:induction false} CandidatesLength(first: seq<Ingredient>, second: seq<Ingredient>)
    ensures |Candidates(first, second)| == |first| * |second|
  {
    if first != [] {
      CandidatesLength(first[..|first| - 1], second);
      assert |first| * |second| == (|first| - 1) * |second| + |second|;
    }
  }

  /** The visited pairs are exactly the pairs of the cross product. */
  lemma {:induction false} CandidatesMembers(first: seq<Ingredient>, second: seq<Ingredient>, p: Pair)
    ensures p in Candidates(first, second) <==> p.0 in first && p.1 in second
  {
    if first != [] {
      var n := |first| - 1;
      CandidatesMembers(first[..n], second, p);
      assert first == first[..n] + [first[n]];
      if p.0 == first[n] && p.1 in second {
        var k :| 0 <= k < |second| && second[k] == p.1;
        assert Row(first[n], second)[k] == p;
      }
    }
  }

  /** The selection consists of visited pairs, so it is no longer than they are. */
  lemma {:induction false} SelectFrom(cands: seq<Pair>)
    ensures |Select(cands)| <= |cands|
    ensures forall j :: 0 <= j < |Select(cands)| ==> Select(cands)[j] in cands
  {
    if cands != [] {
      var n := |cands| - 1;
      SelectFrom(cands[..n]);
      assert forall p :: p in cands[..n] ==> p in cands;
    }
  }

  /** No pair of an ingredient with itself is selected. */
  lemma {:induction false} SelectNoSelfPairs(cands: seq<Pair>)
    ensures forall j :: 0 <= j < |Select(cands)| ==> Select(cands)[j].0 != Select(cands)[j].1
  {
    if cands != [] {
      SelectNoSelfPairs(cands[..|cands| - 1]);
    }
  }

  /** No two selected pairs share a key. */
  lemma {:induction false} SelectDistinctKeys(cands: seq<Pair>)
    ensures forall j, k :: 0 <= j < k < |Select(cands)| ==>
      SumKey(Select(cands)[j].0, Select(cands)[j].1) != SumKey(Select(cands)[k].0, Select(cands)[k].1)
  {
    if cands != [] {
      var n := |cands| - 1;
      var prev := Select(cands[..n]);
      SelectDistinctKeys(cands[..n]);
      forall j | 0 <= j < |prev|
        ensures SumKey(prev[j].0, prev[j].1) in KeySet(prev)
      {
      }
    }
  }

  /** Every visited pair that is not a self-pair has its key used by some selected pair. */
  lemma {:induction false} SelectCovers(cands: seq<Pair>)
    ensures forall c :: c in cands && c.0 != c.1 ==> SumKey(c.0, c.1) in KeySet(Select(cands))
  {
    if cands != [] {
      var n := |cands| - 1;
      var prev := Select(cands[..n]);
      SelectCovers(cands[..n]);
      var c := cands[n];
      if !(c.0 == c.1 || SumKey(c.0, c.1) in KeySet(prev)) {
        KeySetAppend(prev, c);
      }
      assert cands == cands[..n] + [c];
    }
  }

  /**
   * The visited pair at `i` is no self-pair, and no non-self pair visited
   * before it has its key.
   */
  predicate FirstOfKey(cands: seq<Pair>, i: int)
    requires 0 <= i < |cands|
  {
    cands[i].0 != cands[i].1 &&
    forall j :: 0 <= j < i && cands[j].0 != cands[j].1 ==> SumKey(cands[j].0, cands[j].1) != SumKey(cands[i].0, cands[i].1)
  }

  /**
   * Reference definition: among the first `n` visited pairs, those that are
   * the first non-self pair of their key, in visiting order.
   */
  function FirstsUpTo(cands: seq<Pair>, n: nat): seq<Pair>
    requires n <= |cands|
  {
    if n == 0 then [] else FirstsUpTo(cands, n - 1) + if FirstOfKey(cands, n - 1) then [cands[n - 1]] else []
  }

  /** The keys of the non-self pairs of a sequence. */
  function NonSelfKeys(cands: seq<Pair>): set<FormId>
  {
    set j | 0 <= j < |cands| && cands[j].0 != cands[j].1 :: SumKey(cands[j].0, cands[j].1)
  }

  /** The keys the selection has used are the keys of all non-self pairs visited. */
  lemma {:induction false} SelectKeys(cands: seq<Pair>)
    ensures KeySet(Select(cands)) == NonSelfKeys(cands)
  {
    if cands != [] {
      var n := |cands| - 1;
      var c := cands[n];
      SelectKeys(cands[..n]);
      assert forall j :: 0 <= j < n ==> cands[..n][j] == cands[j];
      assert NonSelfKeys(cands) == NonSelfKeys(cands[..n]) + (if c.0 != c.1 then {SumKey(c.0, c.1)} else {});
      if !(c.0 == c.1 || SumKey(c.0, c.1) in KeySet(Select(cands[..n]))) {
        KeySetAppend(Select(cands[..n]), c);
      }
    }
  }

  /**
   * The selection of the first `n` visited pairs is the reference: the pair
   * kept for a key is the first non-self pair visited with it, and the
   * selection keeps visiting order.
   */
  lemma {:induction false} SelectFirsts(cands: seq<Pair>, n: nat)
    requires n <= |cands|
    ensures Select(cands[..n]) == FirstsUpTo(cands, n)
  {
    if n > 0 {
      var prefix := cands[..n - 1];
      var c := cands[n - 1];
      SelectFirsts(cands, n - 1);
      assert cands[..n][..n - 1] == prefix && cands[..n][n - 1] == c;
      SelectKeys(prefix);
      if FirstOfKey(cands, n - 1) {
        assert SumKey(c.0, c.1) !in NonSelfKeys(prefix) by {
          forall j | 0 <= j < n - 1 && prefix[j].0 != prefix[j].1
            ensures SumKey(prefix[j].0, prefix[j].1) != SumKey(c.0, c.1)
          {
            assert prefix[j] == cands[j];
          }
        }
      } else if c.0 != c.1 {
        var j :| 0 <= j < n - 1 && cands[j].0 != cands[j].1 && SumKey(cands[j].0, cands[j].1) == SumKey(c.0, c.1);
        assert prefix[j] == cands[j];
      }
    }
  }

  /** A pair is in the reference exactly when it is visited at a position where it is the first of its key. */
  lemma {:induction false} FirstsUpToMembers(cands: seq<Pair>, n: nat, c: Pair)
    requires n <= |cands|
    ensures c in FirstsUpTo(cands, n) <==> exists i :: 0 <= i < n && cands[i] == c && FirstOfKey(cands, i)
  {
    if n > 0 {
      FirstsUpToMembers(cands, n - 1, c);
    }
  }

  /**
   * A pair is selected exactly when it is visited at a position where no
   * earlier non-self pair has its key and it is no self-pair.
   */
  lemma {:induction false} PlanMembers(first: seq<Ingredient>, second: seq<Ingredient>, c: Pair)
    ensures var cands := Candidates(first, second);
      c in Plan(first, second) <==> exists i :: 0 <= i < |cands| && cands[i] == c && FirstOfKey(cands, i)
  {
    var cands := Candidates(first, second);
    assert Plan(first, second) == FirstsUpTo(cands, |cands|);
    FirstsUpToMembers(cands, |cands|, c);
  }

  /**
   * What one call selects: pairs of the cross product that are not
   * self-pairs, at most one per unordered pair (the key is symmetric) and
   * at most one per key, and a key for every non-self pair visited.
   */
  lemma PlanProperties(first: seq<Ingredient>, second: seq<Ingredient>)
    ensures var p := Plan(first, second);
      && (forall j :: 0 <= j < |p| ==> p[j].0 in first && p[j].1 in second && p[j].0 != p[j].1)
      && (forall j, k :: 0 <= j < k < |p| ==> SumKey(p[j].0, p[j].1) != SumKey(p[k].0, p[k].1))
      && (forall j, k :: 0 <= j < k < |p| ==> p[j] != p[k] && p[j] != (p[k].1, p[k].0))
      && (forall a, b :: a in first && b in second && a != b ==> SumKey(a, b) in KeySet(p))
  {
    var cands := Candidates(first, second);
    var p := Plan(first, second);
    SelectFrom(cands);
    SelectNoSelfPairs(cands);
    SelectDistinctKeys(cands);
    SelectCovers(cands);
    forall j | 0 <= j < |p|
      ensures p[j].0 in first && p[j].1 in second
    {
      CandidatesMembers(first, second, p[j]);
    }
    forall a, b | a in first && b in second && a != b
      ensures SumKey(a, b) in KeySet(p)
    {
      CandidatesMembers(first, second, (a, b));
    }
  }

  /**
   * Two different unordered pairs with the same key: {1, 4} and {2, 3}. With
   * ingredients 1 and 2 in the first pool and 4 and 3 in the second, the
   * pair (2, 3) is visited after (1, 4) and gets no recipe.
   */
  lemma SumKeyDropsPair(x: Ingredient, y: Ingredient, z: Ingredient, w: Ingredient)
    requires x.id == 1 && y.id == 2 && z.id == 3 && w.id == 4
    ensures Plan([x, y], [w, z]) == [(x, w), (x, z), (y, w)]
    ensures (y, z) !in Plan([x, y], [w, z]) && (z, y) !in Plan([x, y], [w, z])
  {
    TwoByTwo(x, y, w, z);
    var p3 := [(x, w), (x, z), (y, w)];
    assert [(x, w), (x, z), (y, w), (y, z)] == p3 + [(y, z)];
    SelectThree(x, y, z, w);
    SelectDrops(p3, (y, z));
  }

  /** The visiting order of two pools of two. */
  lemma TwoByTwo(x: Ingredient, y: Ingredient, w: Ingredient, z: Ingredient)
    ensures Candidates([x, y], [w, z]) == [(x, w), (x, z), (y, w), (y, z)]
  {
    assert [x, y][..1] == [x] && [x][..0] == [];
    assert Row(x, [w, z]) == [(x, w), (x, z)];
    assert Row(y, [w, z]) == [(y, w), (y, z)];
    assert Candidates([x], [w, z]) == [(x, w), (x, z)];
  }

  /** Three pairs with keys 5, 4 and 6 are all selected. */
  lemma SelectThree(x: Ingredient, y: Ingredient, z: Ingredient, w: Ingredient)
    requires x.id == 1 && y.id == 2 && z.id == 3 && w.id == 4
    ensures Select([(x, w), (x, z), (y, w)]) == [(x, w), (x, z), (y, w)]
    ensures 5 in KeySet([(x, w), (x, z), (y, w)])
  {
    var p1 := [(x, w)];
    var p2 := p1 + [(x, z)];
    assert [] + [(x, w)] == p1;
    SelectKeeps([], (x, w), {});
    SelectKeeps(p1, (x, z), {5});
    SelectKeeps(p2, (y, w), {5, 4});
    assert p2 + [(y, w)] == [(x, w), (x, z), (y, w)];
  }

  /** A selection that keeps everything stays so when a pair with a fresh key comes next. */
  lemma SelectKeeps(prev: seq<Pair>, c: Pair, keys: set<FormId>)
    requires Select(prev) == prev && KeySet(prev) == keys
    requires c.0 != c.1 && SumKey(c.0, c.1) !in keys
    ensures Select(prev + [c]) == prev + [c] && KeySet(prev + [c]) == keys + {SumKey(c.0, c.1)}
  {
    SelectSnoc(prev, c);
    KeySetAppend(prev, c);
  }

  /** A pair whose key the selection already holds is dropped. */
  lemma SelectDrops(prev: seq<Pair>, c: Pair)
    requires Select(prev) == prev && SumKey(c.0, c.1) in KeySet(prev)
    ensures Select(prev + [c]) == prev
  {
    SelectSnoc(prev, c);
  }

  /**
   * The key does not depend on the order of the pair, and it is the sum of
   * the ids less 2^32 when that sum overflows 32 bits.
   */
  lemma SumKeySymmetric(a: Ingredient, b: Ingredient)
    ensures SumKey(a, b) == SumKey(b, a)
    ensures SumKey(a, b) == if a.id + b.id < U32Modulus then a.id + b.id else a.id + b.id - U32Modulus
  {
  }

}
