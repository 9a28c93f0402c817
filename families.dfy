/**
 * The potion tier index: craftable single-effect potions and poisons grouped
 * by their effect into families of five level slots, and the two level
 * lookups over a family.
 */
module PotionFamilies {
  import opened Wrappers
  import opened Forms

  /** The variants of one effect at levels 1 to 5; any slot may be empty. */
  datatype Family = Family(
    level1: Option<Potion>, level2: Option<Potion>, level3: Option<Potion>,
    level4: Option<Potion>, level5: Option<Potion>)

  /** The family a fresh map entry holds: every slot empty. */
  const EmptyFamily: Family := Family(None, None, None, None, None)

  /** The slot at `level`; there is nothing outside levels 1 to 5. */
  function Slot(f: Family, level: int): Option<Potion>
  {
    if level == 1 then f.level1
    else if level == 2 then f.level2
    else if level == 3 then f.level3
    else if level == 4 then f.level4
    else if level == 5 then f.level5
    else None
  }

  function WithSlot(f: Family, level: int, p: Potion): (r: Family)
    requires 1 <= level <= 5
    ensures forall l :: Slot(r, l) == if l == level then Some(p) else Slot(f, l)
  {
    if level == 1 then f.(level1 := Some(p))
    else if level == 2 then f.(level2 := Some(p))
    else if level == 3 then f.(level3 := Some(p))
    else if level == 4 then f.(level4 := Some(p))
    else f.(level5 := Some(p))
  }

  /** The level a lookup for `targetLevel` searches down from: the target, clamped to 1..5. */
  function SearchBound(targetLevel: int): (b: int)
    ensures 1 <= b <= 5
    ensures 1 <= targetLevel <= 5 ==> b == targetLevel
  {
    if targetLevel <= 1 then 1 else if targetLevel >= 5 then 5 else targetLevel
  }

  /**
   * The variant at the highest populated level not above the target (levels
   * above 5 search from 5; a target of 1 or less gives the level 1 slot as
   * it is). Absent only when every slot up to the bound is empty.
   */
  function GetHigherLevelPotion(f: Family, targetLevel: int): (r: Option<Potion>)
    ensures r.None? <==> forall l :: 1 <= l <= SearchBound(targetLevel) ==> Slot(f, l).None?
    ensures r.Some? ==> exists l :: (1 <= l <= SearchBound(targetLevel) && Slot(f, l) == r &&
      forall m :: l < m <= SearchBound(targetLevel) ==> Slot(f, m).None?)
  {
    if targetLevel <= 1 then Slot(f, 1)
    else if targetLevel == 2 then
      if Slot(f, 2).Some? then Slot(f, 2) else Slot(f, 1)
    else if targetLevel == 3 then
      if Slot(f, 3).Some? then Slot(f, 3)
      else if Slot(f, 2).Some? then Slot(f, 2)
      else Slot(f, 1)
    else if targetLevel == 4 then
      if Slot(f, 4).Some? then Slot(f, 4)
      else if Slot(f, 3).Some? then Slot(f, 3)
      else if Slot(f, 2).Some? then Slot(f, 2)
      else Slot(f, 1)
    else
      if Slot(f, 5).Some? then Slot(f, 5)
      else if Slot(f, 4).Some? then Slot(f, 4)
      else if Slot(f, 3).Some? then Slot(f, 3)
      else if Slot(f, 2).Some? then Slot(f, 2)
      else Slot(f, 1)
  }

  /**
   * The variant at the lowest populated level, with that level; absent when
   * the family is empty.
   */
  function GetEarliestLevelPotion(f: Family): (r: Option<(Potion, int)>)
    ensures r.None? <==> forall l :: 1 <= l <= 5 ==> Slot(f, l).None?
    ensures r.Some? ==> (1 <= r.value.1 <= 5 && Slot(f, r.value.1) == Some(r.value.0) &&
      forall m :: 1 <= m < r.value.1 ==> Slot(f, m).None?)
  {
    if Slot(f, 1).Some? then Some((Slot(f, 1).value, 1))
    else if Slot(f, 2).Some? then Some((Slot(f, 2).value, 2))
    else if Slot(f, 3).Some? then Some((Slot(f, 3).value, 3))
    else if Slot(f, 4).Some? then Some((Slot(f, 4).value, 4))
    else if Slot(f, 5).Some? then Some((Slot(f, 5).value, 5))
    else None
  }

  /** A family with levels 1, 3 and 5 populated. */
  lemma HigherLevelExample(p1: Potion, p3: Potion, p5: Potion)
    ensures var f := Family(Some(p1), None, Some(p3), None, Some(p5));
      && GetHigherLevelPotion(f, 4) == Some(p3)
      && GetHigherLevelPotion(f, 2) == Some(p1)
      && GetHigherLevelPotion(f, 0) == Some(p1)
      && GetHigherLevelPotion(f, 9) == Some(p5)
      && GetHigherLevelPotion(Family(None, None, Some(p3), None, None), 2) == None
  {
  }

  /** The level-tag keywords and the "craftable" keyword, each possibly unresolved. */
  datatype LevelKeywords = LevelKeywords(
    craftable: Option<FormId>,
    level1: Option<FormId>, level2: Option<FormId>, level3: Option<FormId>,
    level4: Option<FormId>, level5: Option<FormId>)

  function LevelKeyword(kws: LevelKeywords, level: int): Option<FormId>
  {
    if level == 1 then kws.level1
    else if level == 2 then kws.level2
    else if level == 3 then kws.level3
    else if level == 4 then kws.level4
    else if level == 5 then kws.level5
    else None
  }

  /** The first level 1..5 whose tag the potion carries, or 0 when it carries none. */
  function LevelOf(p: Potion, kws: LevelKeywords): (l: int)
    ensures 0 <= l <= 5
    ensures l > 0 ==> HasKeyword(p.keywords, LevelKeyword(kws, l))
    ensures forall m :: 1 <= m <= 5 && (l == 0 || m < l) ==> !HasKeyword(p.keywords, LevelKeyword(kws, m))
  {
    if HasKeyword(p.keywords, kws.level1) then 1
    else if HasKeyword(p.keywords, kws.level2) then 2
    else if HasKeyword(p.keywords, kws.level3) then 3
    else if HasKeyword(p.keywords, kws.level4) then 4
    else if HasKeyword(p.keywords, kws.level5) then 5
    else 0
  }

  /** A potion the index records: craftable, exactly one effect, and a level tag. */
  predicate Indexable(p: Potion, kws: LevelKeywords)
  {
    HasKeyword(p.keywords, kws.craftable) && |p.effects| == 1 && LevelOf(p, kws) != 0
  }

  /** The family of `effect`, or an empty one when the map has no entry. */
  function FamilyAt(m: map<FormId, Family>, effect: FormId): Family
  {
    if effect in m then m[effect] else EmptyFamily
  }

  /** One step of the index loop: an indexable potion overwrites its slot. */
  function AddPotion(m: map<FormId, Family>, p: Potion, kws: LevelKeywords): map<FormId, Family>
  {
    if !Indexable(p, kws) then m
    else
      var e := p.effects[0];
      m[e := WithSlot(FamilyAt(m, e), LevelOf(p, kws), p)]
  }

  /** The index after the loop over the host's potion array (null entries skipped). */
  function Indexed(m: map<FormId, Family>, items: seq<Option<Potion>>, kws: LevelKeywords): (r: map<FormId, Family>)
    ensures m.Keys <= r.Keys
  {
    if items == [] then m
    else
      var prev := Indexed(m, items[..|items| - 1], kws);
      match items[|items| - 1]
      case None => prev
      case Some(p) => AddPotion(prev, p, kws)
  }

  /** The potion `items[i]` is indexable with effect `e` at `level`. */
  predicate IndexedAt(items: seq<Option<Potion>>, i: int, e: FormId, level: int, kws: LevelKeywords)
    requires 0 <= i < |items|
  {
    items[i].Some? && Indexable(items[i].value, kws) &&
    items[i].value.effects[0] == e && LevelOf(items[i].value, kws) == level
  }

  /** Reference definition: the last potion in `items` indexable with effect `e` at `level`. */
  function LastAt(items: seq<Option<Potion>>, e: FormId, level: int, kws: LevelKeywords): (r: Option<Potion>)
    ensures r.None? <==> forall i :: 0 <= i < |items| ==> !IndexedAt(items, i, e, level, kws)
    ensures r.Some? ==> exists i :: (0 <= i < |items| && IndexedAt(items, i, e, level, kws) && items[i] == r &&
      forall j :: i < j < |items| ==> !IndexedAt(items, j, e, level, kws))
  {
    if items == [] then None
    else
      var n := |items| - 1;
      if IndexedAt(items, n, e, level, kws) then items[n]
      else
        var r := LastAt(items[..n], e, level, kws);
        assert forall i :: 0 <= i < n ==> (IndexedAt(items, i, e, level, kws) <==> IndexedAt(items[..n], i, e, level, kws));
        r
  }

  /**
   * After indexing, the slot of effect `e` at `level` holds the last potion
   * in the array indexable there, and keeps what it held when there is none.
   */
  lemma {:induction false} IndexedSlot(m: map<FormId, Family>, items: seq<Option<Potion>>, kws: LevelKeywords,
                                       e: FormId, level: int)
    requires 1 <= level <= 5
    ensures Slot(FamilyAt(Indexed(m, items, kws), e), level) ==
      if LastAt(items, e, level, kws).Some? then LastAt(items, e, level, kws) else Slot(FamilyAt(m, e), level)
  {
    if items != [] {
      var n := |items| - 1;
      IndexedSlot(m, items[..n], kws, e, level);
    }
  }

  /**
   * The index gains an entry only for an effect some indexable potion has:
   * a potion without a level tag creates no entry.
   */
  lemma {:induction false} IndexedKeys(m: map<FormId, Family>, items: seq<Option<Potion>>, kws: LevelKeywords, e: FormId)
    ensures e in Indexed(m, items, kws) <==>
      e in m || exists i :: (0 <= i < |items| && items[i].Some? && Indexable(items[i].value, kws) &&
        items[i].value.effects[0] == e)
  {
    if items != [] {
      var n := |items| - 1;
      IndexedKeys(m, items[..n], kws, e);
      assert forall i :: 0 <= i < n ==> items[..n][i] == items[i];
    }
  }

  /** Every recorded variant has exactly the effect of its family. */
  ghost predicate WellFormed(m: map<FormId, Family>)
  {
    forall e, l :: e in m && Slot(m[e], l).Some? ==> Slot(m[e], l).value.effects == [e]
  }

  lemma {:induction false} IndexedWellFormed(m: map<FormId, Family>, items: seq<Option<Potion>>, kws: LevelKeywords)
    requires WellFormed(m)
    ensures WellFormed(Indexed(m, items, kws))
  {
    if items != [] {
      var n := |items| - 1;
      IndexedWellFormed(m, items[..n], kws);
      var prev := Indexed(m, items[..n], kws);
      if items[n].Some? && Indexable(items[n].value, kws) {
        var p := items[n].value;
        assert p.effects == [p.effects[0]];
      }
    }
  }
}
