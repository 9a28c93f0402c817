/**
 * The rarity classifier: every ingredient goes to one of three tiers by its
 * tier keyword, the first match winning in the order common, uncommon,
 * rare, and an untagged ingredient counting as uncommon. Optionally its
 * display name gets the tier's suffix.
 */
module Rarity {
  import opened Wrappers
  import opened Forms

  datatype Tier = Common | Uncommon | Rare

  /** The three tier keywords, each possibly unresolved. */
  datatype TierKeywords = TierKeywords(common: Option<FormId>, uncommon: Option<FormId>, rare: Option<FormId>)

  /** The ingredient part of the configuration. */
  datatype IngrConfig = IngrConfig(renameIngredients: bool, commonSuffix: string, uncommonSuffix: string, rareSuffix: string)

  function TierOf(x: Ingredient, kws: TierKeywords): (t: Tier)
    ensures HasKeyword(x.keywords, kws.common) ==> t == Common
    ensures t == Common ==> HasKeyword(x.keywords, kws.common)
    ensures t == Rare <==> !HasKeyword(x.keywords, kws.common) && !HasKeyword(x.keywords, kws.uncommon) &&
                           HasKeyword(x.keywords, kws.rare)
  {
    if HasKeyword(x.keywords, kws.common) then Common
    else if HasKeyword(x.keywords, kws.uncommon) then Uncommon
    else if HasKeyword(x.keywords, kws.rare) then Rare
    else Uncommon
  }

  function Suffix(cfg: IngrConfig, t: Tier): string
  {
    match t
    case Common => cfg.commonSuffix
    case Uncommon => cfg.uncommonSuffix
    case Rare => cfg.rareSuffix
  }

  /** The ingredient as its tier's sequence records it: renamed once when renaming is on. */
  function Renamed(x: Ingredient, t: Tier, cfg: IngrConfig): (y: Ingredient)
    ensures y.id == x.id && y.keywords == x.keywords && y.effects == x.effects
    ensures y.fullName == if cfg.renameIngredients then x.fullName + " " + Suffix(cfg, t) else x.fullName
  {
    if cfg.renameIngredients then x.(fullName := x.fullName + " " + Suffix(cfg, t)) else x
  }

  /** Every non-null ingredient of the host array, in order, as its own tier records it. */
  function Classified(items: seq<Option<Ingredient>>, kws: TierKeywords, cfg: IngrConfig): seq<Ingredient>
  {
    if items == [] then []
    else
      var prev := Classified(items[..|items| - 1], kws, cfg);
      match items[|items| - 1]
      case None => prev
      case Some(x) => prev + [Renamed(x, TierOf(x, kws), cfg)]
  }

  /** What the classification loop appends to the sequence of tier `t`. */
  function Tiered(items: seq<Option<Ingredient>>, t: Tier, kws: TierKeywords, cfg: IngrConfig): (r: seq<Ingredient>)
    ensures |r| <= NonNullCount(items)
    ensures forall j :: 0 <= j < |r| ==> TierOf(r[j], kws) == t
  {
    if items == [] then []
    else
      var prev := Tiered(items[..|items| - 1], t, kws, cfg);
      match items[|items| - 1]
      case None => prev
      case Some(x) => if TierOf(x, kws) == t then prev + [Renamed(x, t, cfg)] else prev
  }

  /** No ingredient lies in both sequences. */
  predicate Disjoint(a: seq<Ingredient>, b: seq<Ingredient>)
  {
    forall x :: x in a ==> x !in b
  }

  /** The sequences of two different tiers share no ingredient, since each entry carries its own tier. */
  lemma TieredDisjoint(items: seq<Option<Ingredient>>, t1: Tier, t2: Tier, kws: TierKeywords, cfg: IngrConfig)
    requires t1 != t2
    ensures Disjoint(Tiered(items, t1, kws, cfg), Tiered(items, t2, kws, cfg))
  {
    var a, b := Tiered(items, t1, kws, cfg), Tiered(items, t2, kws, cfg);
    forall x | x in a
      ensures x !in b
    {
      var j :| 0 <= j < |a| && a[j] == x;
      assert TierOf(x, kws) == t1;
    }
  }

  /** The three tier sequences together hold every classified ingredient exactly once. */
  lemma {:induction false} TieredPartition(items: seq<Option<Ingredient>>, kws: TierKeywords, cfg: IngrConfig)
    ensures multiset(Tiered(items, Common, kws, cfg)) + multiset(Tiered(items, Uncommon, kws, cfg)) +
            multiset(Tiered(items, Rare, kws, cfg)) == multiset(Classified(items, kws, cfg))
  {
    if items != [] {
      TieredPartition(items[..|items| - 1], kws, cfg);
    }
  }

  /** The number of non-null entries of the host array. */
  function NonNullCount(items: seq<Option<Ingredient>>): nat
  {
    if items == [] then 0
    else NonNullCount(items[..|items| - 1]) + if items[|items| - 1].Some? then 1 else 0
  }

  lemma {:induction false} ClassifiedCount(items: seq<Option<Ingredient>>, kws: TierKeywords, cfg: IngrConfig)
    ensures |Classified(items, kws, cfg)| == NonNullCount(items)
  {
    if items != [] {
      ClassifiedCount(items[..|items| - 1], kws, cfg);
    }
  }

  /**
   * Each entry of a tier's sequence is a non-null ingredient of the host
   * array whose tier it is, renamed for that tier.
   */
  lemma {:induction false} TieredSound(items: seq<Option<Ingredient>>, t: Tier, kws: TierKeywords, cfg: IngrConfig, j: int)
    requires 0 <= j < |Tiered(items, t, kws, cfg)|
    ensures exists i :: (0 <= i < |items| && items[i].Some? && TierOf(items[i].value, kws) == t &&
      Tiered(items, t, kws, cfg)[j] == Renamed(items[i].value, t, cfg))
  {
    var n := |items| - 1;
    var prev := Tiered(items[..n], t, kws, cfg);
    if j < |prev| {
      TieredSound(items[..n], t, kws, cfg, j);
      var i :| 0 <= i < n && items[..n][i].Some? && TierOf(items[..n][i].value, kws) == t &&
        prev[j] == Renamed(items[..n][i].value, t, cfg);
      assert items[i] == items[..n][i];
    } else {
      assert items[n].Some? && TierOf(items[n].value, kws) == t;
    }
  }

  /** Each non-null ingredient of the host array lands in the sequence of its tier. */
  lemma {:induction false} TieredComplete(items: seq<Option<Ingredient>>, kws: TierKeywords, cfg: IngrConfig, i: int)
    requires 0 <= i < |items| && items[i].Some?
    ensures var x := items[i].value;
      Renamed(x, TierOf(x, kws), cfg) in Tiered(items, TierOf(x, kws), kws, cfg)
  {
    var n := |items| - 1;
    if i < n {
      TieredComplete(items[..n], kws, cfg, i);
      assert items[..n][i] == items[i];
    }
  }
}
