/**
 * The distributor's state and its three phases: start-up (classification,
 * potion index, recipe lattice), recipe synthesis for one ingredient-pool
 * pair, and the access gate run on every alchemy-workbench event.
 */
module Distributor {
  import opened Wrappers
  import opened Forms
  import opened PerkConfig
  import opened PotionFamilies
  import opened Rarity
  import opened Pairing
  import opened Knowledge
  import opened AccessGate

  /** The plugin that defines the mod's keywords. */
  const PluginFile: string := "AlchemyReworked.esp"
  /** The base game's alchemy-workbench keyword, looked up by global id. */
  const AlchemyKeywordId: FormId := 0x0004F6E6
  /** Local ids of the mod's keywords inside the plugin. */
  const CraftableLocalId: nat := 0x800
  const Level1LocalId: nat := 0x801
  const Level2LocalId: nat := 0x802
  const Level3LocalId: nat := 0x803
  const Level4LocalId: nat := 0x804
  const Level5LocalId: nat := 0x805
  const CommonLocalId: nat := 0x806
  const UncommonLocalId: nat := 0x807
  const RareLocalId: nat := 0x808

  /**
   * What start-up reads from the host: the keyword ids known globally, the
   * plugin-relative lookups of keywords and perks, and the form arrays of
   * ingredients and alchemy items (entries may be null).
   */
  datatype Host = Host(
    keywordIds: set<FormId>,
    keywordLookup: map<(string, nat), FormId>,
    perkLookup: map<(string, nat), FormId>,
    ingredients: seq<Option<Ingredient>>,
    potions: seq<Option<Potion>>)

  datatype Config = Config(perks: PerksConfig, ingr: IngrConfig)

  /** A keyword of the mod's plugin, or null when the plugin does not define it. */
  function PluginKeyword(host: Host, localId: nat): (k: Option<FormId>)
    ensures k.Some? <==> (PluginFile, localId) in host.keywordLookup
    ensures k.Some? ==> k.value == host.keywordLookup[(PluginFile, localId)]
  {
    if (PluginFile, localId) in host.keywordLookup then Some(host.keywordLookup[(PluginFile, localId)]) else None
  }

  function GlobalKeyword(host: Host, id: FormId): (k: Option<FormId>)
    ensures k.Some? <==> id in host.keywordIds
    ensures k.Some? ==> k.value == id
  {
    if id in host.keywordIds then Some(id) else None
  }

  function LevelKeywordsOf(host: Host): LevelKeywords
  {
    LevelKeywords(PluginKeyword(host, CraftableLocalId),
                  PluginKeyword(host, Level1LocalId), PluginKeyword(host, Level2LocalId),
                  PluginKeyword(host, Level3LocalId), PluginKeyword(host, Level4LocalId),
                  PluginKeyword(host, Level5LocalId))
  }

  function TierKeywordsOf(host: Host): TierKeywords
  {
    TierKeywords(PluginKeyword(host, CommonLocalId), PluginKeyword(host, UncommonLocalId),
                 PluginKeyword(host, RareLocalId))
  }

  datatype FurnitureEventType = Enter | Exit

  /** A furniture event: whether the actor is the player, the furniture's keywords, enter or exit. */
  datatype FurnitureEvent = FurnitureEvent(actorIsPlayer: bool, furnitureKeywords: set<FormId>, eventType: FurnitureEventType)

  /**
   * A constructible-object recipe. The bench keyword, the two required
   * ingredients and the two item-count conditions after the head are fixed
   * at creation; the produced item, its quantity and the head condition's
   * value are what the access gate rewrites.
   */
  class Cobj {
    const benchKeyword: Option<FormId>
    const requiredItems: seq<(Ingredient, nat)>
    /** The ingredients of the item-count conditions following the head, in chain order. */
    const countConditions: seq<Ingredient>
    var createdItem: Potion
    var numConstructed: int
    var playerCondition: Visibility

    function State(): CobjState
      reads this
    {
      CobjState(createdItem, numConstructed, playerCondition)
    }

    /** A recipe for (a, b): one of each, producing one `potion`, hidden. */
    constructor (bench: Option<FormId>, a: Ingredient, b: Ingredient, potion: Potion)
      ensures benchKeyword == bench && requiredItems == [(a, 1), (b, 1)] && countConditions == [b, a]
      ensures State() == CobjState(potion, 1, Hidden)
    {
      benchKeyword := bench;
      requiredItems := [(a, 1), (b, 1)];
      countConditions := [b, a];
      createdItem := potion;
      numConstructed := 1;
      playerCondition := Hidden;
    }
  }

  /** The filter the lattice applies to a pool: the ingredient lists `effect` among its effects. */
  method IngredientHasEffect(ingr: Ingredient, effect: FormId) returns (b: bool)
    ensures b == HasEffect(ingr, effect)
  {
    for i := 0 to |ingr.effects|
      invariant effect !in ingr.effects[..i]
    {
      if ingr.effects[i] == effect {
        return true;
      }
    }
    assert ingr.effects[..|ingr.effects|] == ingr.effects;
    return false;
  }

  /** The pool's ingredients that have `effect`, in pool order. */
  function WithEffect(pool: seq<Ingredient>, effect: FormId): (r: seq<Ingredient>)
    ensures |r| <= |pool|
    ensures forall x :: x in r <==> x in pool && HasEffect(x, effect)
  {
    if pool == [] then []
    else
      var prev := WithEffect(pool[..|pool| - 1], effect);
      var x := pool[|pool| - 1];
      assert pool == pool[..|pool| - 1] + [x];
      if HasEffect(x, effect) then prev + [x] else prev
  }

  /** The copy-if over a pool with the effect filter. */
  method FilterByEffect(pool: seq<Ingredient>, effect: FormId) returns (r: seq<Ingredient>)
    ensures r == WithEffect(pool, effect)
  {
    r := [];
    for i := 0 to |pool|
      invariant r == WithEffect(pool[..i], effect)
    {
      assert pool[..i + 1][..i] == pool[..i];
      var keep := IngredientHasEffect(pool[i], effect);
      if keep {
        r := r + [pool[i]];
      }
    }
    assert pool[..|pool|] == pool;
  }

  /** A recipe that one call of the synthesizer is to create: its metadata and its item. */
  datatype Planned = Planned(md: CobjMetadata, item: Potion)

  function PlannedFor(pairs: seq<Pair>, potion: Potion, targetLevel: int, potionMinLevel: int): (r: seq<Planned>)
    ensures |r| == |pairs|
    ensures forall j :: 0 <= j < |pairs| ==>
      r[j] == Planned(CobjMetadata(targetLevel, potionMinLevel, pairs[j].0, pairs[j].1), potion)
  {
    seq(|pairs|, j requires 0 <= j < |pairs| =>
      Planned(CobjMetadata(targetLevel, potionMinLevel, pairs[j].0, pairs[j].1), potion))
  }

  /** The recipes of one lattice rule: none when the family has no variant at its level. */
  function RulePlan(first: seq<Ingredient>, second: seq<Ingredient>, slot: Option<Potion>, level: int): seq<Planned>
  {
    match slot
    case None => []
    case Some(p) => PlannedFor(Plan(first, second), p, level, level)
  }

  /** A rule creates at most one recipe per visited pair, and none without a variant at its level. */
  lemma RulePlanLength(first: seq<Ingredient>, second: seq<Ingredient>, slot: Option<Potion>, level: int)
    ensures |RulePlan(first, second, slot, level)| <= |first| * |second|
    ensures slot.None? ==> RulePlan(first, second, slot, level) == []
  {
  }

  /**
   * The recipes of one effect, in creation order: common + common gives
   * level 1, common + uncommon level 2, common + rare and uncommon +
   * uncommon level 3, uncommon + rare level 4, rare + rare level 5, each
   * over the part of the pools that has the effect.
   */
  function EffectPlan(effect: FormId, f: Family, common: seq<Ingredient>, uncommon: seq<Ingredient>,
                      rare: seq<Ingredient>): (plan: seq<Planned>)
    ensures f == EmptyFamily ==> plan == []
    ensures var c, u, r := |WithEffect(common, effect)|, |WithEffect(uncommon, effect)|, |WithEffect(rare, effect)|;
      |plan| <= c * c + c * u + c * r + u * u + u * r + r * r
  {
    var c := WithEffect(common, effect);
    var u := WithEffect(uncommon, effect);
    var r := WithEffect(rare, effect);
    RulePlanLength(c, c, f.level1, 1);
    RulePlanLength(c, u, f.level2, 2);
    RulePlanLength(c, r, f.level3, 3);
    RulePlanLength(u, u, f.level3, 3);
    RulePlanLength(u, r, f.level4, 4);
    RulePlanLength(r, r, f.level5, 5);
    (RulePlan(c, c, f.level1, 1) + RulePlan(c, u, f.level2, 2) + RulePlan(c, r, f.level3, 3)) +
    (RulePlan(u, u, f.level3, 3) + RulePlan(u, r, f.level4, 4) + RulePlan(r, r, f.level5, 5))
  }

  /** The effect's plan is the six rules' plans over the filtered pools, in order. */
  lemma EffectPlanRules(effect: FormId, f: Family, common: seq<Ingredient>, uncommon: seq<Ingredient>,
                        rare: seq<Ingredient>, c: seq<Ingredient>, u: seq<Ingredient>, r: seq<Ingredient>)
    requires c == WithEffect(common, effect) && u == WithEffect(uncommon, effect) && r == WithEffect(rare, effect)
    ensures EffectPlan(effect, f, common, uncommon, rare) ==
      (RulePlan(c, c, f.level1, 1) + RulePlan(c, u, f.level2, 2) + RulePlan(c, r, f.level3, 3)) +
      (RulePlan(u, u, f.level3, 3) + RulePlan(u, r, f.level4, 4) + RulePlan(r, r, f.level5, 5))
  {
  }

  /** The tier pairings the lattice allows at each level. */
  predicate TierRule(level: int, a: Ingredient, b: Ingredient,
                     common: seq<Ingredient>, uncommon: seq<Ingredient>, rare: seq<Ingredient>)
  {
    (level == 1 && a in common && b in common) ||
    (level == 2 && a in common && b in uncommon) ||
    (level == 3 && ((a in common && b in rare) || (a in uncommon && b in uncommon))) ||
    (level == 4 && a in uncommon && b in rare) ||
    (level == 5 && a in rare && b in rare)
  }

  /**
   * A recipe as the lattice creates it: it produces the variant of its
   * level in the family of the item's effect, both ingredients (distinct)
   * have that effect and come from the tiers the level's rule names, and it
   * starts hidden and producing one.
   */
  predicate LatticeRecipe(md: CobjMetadata, s: CobjState, families: map<FormId, Family>,
                          common: seq<Ingredient>, uncommon: seq<Ingredient>, rare: seq<Ingredient>)
  {
    |s.createdItem.effects| > 0 &&
    var e := s.createdItem.effects[0];
    && e in families
    && md.targetIngredientLevel == md.potionMinLevel
    && Slot(families[e], md.potionMinLevel) == Some(s.createdItem)
    && s.numConstructed == 1 && s.playerCondition == Hidden
    && md.ingr1 != md.ingr2 && HasEffect(md.ingr1, e) && HasEffect(md.ingr2, e)
    && TierRule(md.potionMinLevel, md.ingr1, md.ingr2, common, uncommon, rare)
  }

  /** Every entry of a rule's plan pairs two distinct ingredients of the rule's pools, at the rule's level. */
  lemma RulePlanSound(first: seq<Ingredient>, second: seq<Ingredient>, slot: Option<Potion>, level: int, pl: Planned)
    requires pl in RulePlan(first, second, slot, level)
    ensures slot.Some? && pl.item == slot.value
    ensures pl.md.targetIngredientLevel == level && pl.md.potionMinLevel == level
    ensures pl.md.ingr1 in first && pl.md.ingr2 in second && pl.md.ingr1 != pl.md.ingr2
  {
    var plan := RulePlan(first, second, slot, level);
    var j :| 0 <= j < |plan| && plan[j] == pl;
    PlanProperties(first, second);
  }

  /** Every recipe the lattice plans for an indexed effect is a lattice recipe. */
  lemma EffectPlanSound(effect: FormId, families: map<FormId, Family>,
                        common: seq<Ingredient>, uncommon: seq<Ingredient>, rare: seq<Ingredient>)
    requires WellFormed(families) && effect in families
    ensures forall pl :: pl in EffectPlan(effect, families[effect], common, uncommon, rare) ==>
      LatticeRecipe(pl.md, CobjState(pl.item, 1, Hidden), families, common, uncommon, rare)
  {
    var f := families[effect];
    var c := WithEffect(common, effect);
    var u := WithEffect(uncommon, effect);
    var r := WithEffect(rare, effect);
    forall pl | pl in EffectPlan(effect, f, common, uncommon, rare)
      ensures LatticeRecipe(pl.md, CobjState(pl.item, 1, Hidden), families, common, uncommon, rare)
    {
      var level;
      if pl in RulePlan(c, c, f.level1, 1) {
        RulePlanSound(c, c, f.level1, 1, pl);
        level := 1;
      } else if pl in RulePlan(c, u, f.level2, 2) {
        RulePlanSound(c, u, f.level2, 2, pl);
        level := 2;
      } else if pl in RulePlan(c, r, f.level3, 3) {
        RulePlanSound(c, r, f.level3, 3, pl);
        level := 3;
      } else if pl in RulePlan(u, u, f.level3, 3) {
        RulePlanSound(u, u, f.level3, 3, pl);
        level := 3;
      } else if pl in RulePlan(u, r, f.level4, 4) {
        RulePlanSound(u, r, f.level4, 4, pl);
        level := 4;
      } else {
        RulePlanSound(r, r, f.level5, 5, pl);
        level := 5;
      }
      assert Slot(f, level) == Some(pl.item);
      assert pl.item.effects == [effect];
    }
  }

  /** Two planned recipes pair the same two ingredients, in either order. */
  predicate SamePair(p: Planned, q: Planned)
  {
    (p.md.ingr1 == q.md.ingr1 && p.md.ingr2 == q.md.ingr2) ||
    (p.md.ingr1 == q.md.ingr2 && p.md.ingr2 == q.md.ingr1)
  }

  /** No two planned recipes pair the same two ingredients. */
  predicate PairsUnique(plan: seq<Planned>)
  {
    forall j, k :: 0 <= j < k < |plan| ==> !SamePair(plan[j], plan[k])
  }

  /** No recipe of `a` pairs the same two ingredients as a recipe of `b`. */
  predicate Apart(a: seq<Planned>, b: seq<Planned>)
  {
    forall p, q :: p in a && q in b ==> !SamePair(p, q)
  }

  lemma UniqueAppend(a: seq<Planned>, b: seq<Planned>)
    requires PairsUnique(a) && PairsUnique(b) && Apart(a, b)
    ensures PairsUnique(a + b)
  {
    forall j, k | 0 <= j < k < |a + b|
      ensures !SamePair((a + b)[j], (a + b)[k])
    {
      if k < |a| {
        assert (a + b)[j] == a[j] && (a + b)[k] == a[k];
      } else if j < |a| {
        assert (a + b)[j] == a[j] && a[j] in a;
        assert (a + b)[k] == b[k - |a|] && b[k - |a|] in b;
      } else {
        assert (a + b)[j] == b[j - |a|] && (a + b)[k] == b[k - |a|];
      }
    }
  }

  /** Three runs of rules kept apart, one by one, from three others are apart from them together. */
  lemma ApartThree(a1: seq<Planned>, a2: seq<Planned>, a3: seq<Planned>,
                   b1: seq<Planned>, b2: seq<Planned>, b3: seq<Planned>)
    requires Apart(a1, b1) && Apart(a1, b2) && Apart(a1, b3)
    requires Apart(a2, b1) && Apart(a2, b2) && Apart(a2, b3)
    requires Apart(a3, b1) && Apart(a3, b2) && Apart(a3, b3)
    ensures Apart(a1 + a2 + a3, b1 + b2 + b3)
  {
    forall p, q | p in a1 + a2 + a3 && q in b1 + b2 + b3
      ensures !SamePair(p, q)
    {
      assert p in a1 || p in a2 || p in a3;
      assert q in b1 || q in b2 || q in b3;
    }
  }

  /** One rule never pairs the same two ingredients twice, in either order. */
  lemma RulePairsUnique(first: seq<Ingredient>, second: seq<Ingredient>, slot: Option<Potion>, level: int)
    ensures PairsUnique(RulePlan(first, second, slot, level))
  {
    PlanProperties(first, second);
  }

  /**
   * Two rules whose pools keep their recipes apart: either their first or
   * their second pools are disjoint, and either the first pool of one or the
   * second pool of the other is disjoint from its counterpart.
   */
  lemma RulesApart(a1: seq<Ingredient>, b1: seq<Ingredient>, s1: Option<Potion>, l1: int,
                   a2: seq<Ingredient>, b2: seq<Ingredient>, s2: Option<Potion>, l2: int)
    requires Disjoint(a1, a2) || Disjoint(b1, b2)
    requires Disjoint(a1, b2) || Disjoint(b1, a2)
    ensures Apart(RulePlan(a1, b1, s1, l1), RulePlan(a2, b2, s2, l2))
  {
    forall p, q | p in RulePlan(a1, b1, s1, l1) && q in RulePlan(a2, b2, s2, l2)
      ensures !SamePair(p, q)
    {
      RulePlanSound(a1, b1, s1, l1, p);
      RulePlanSound(a2, b2, s2, l2, q);
    }
  }

  /**
   * With disjoint tiers, the six rules of one effect never pair the same two
   * ingredients twice, in either order: each rule deduplicates its own
   * pairs, and no two rules draw on the same two tiers.
   */
  lemma EffectPlanPairsUnique(effect: FormId, f: Family, common: seq<Ingredient>, uncommon: seq<Ingredient>,
                              rare: seq<Ingredient>)
    requires Disjoint(common, uncommon) && Disjoint(common, rare) && Disjoint(uncommon, rare)
    ensures PairsUnique(EffectPlan(effect, f, common, uncommon, rare))
  {
    var c := WithEffect(common, effect);
    var u := WithEffect(uncommon, effect);
    var r := WithEffect(rare, effect);
    assert Disjoint(c, u) && Disjoint(u, c) && Disjoint(c, r) && Disjoint(r, c) && Disjoint(u, r) && Disjoint(r, u);
    var cc, cu, cr := RulePlan(c, c, f.level1, 1), RulePlan(c, u, f.level2, 2), RulePlan(c, r, f.level3, 3);
    var uu, ur, rr := RulePlan(u, u, f.level3, 3), RulePlan(u, r, f.level4, 4), RulePlan(r, r, f.level5, 5);
    RulePairsUnique(c, c, f.level1, 1);
    RulePairsUnique(c, u, f.level2, 2);
    RulePairsUnique(c, r, f.level3, 3);
    RulePairsUnique(u, u, f.level3, 3);
    RulePairsUnique(u, r, f.level4, 4);
    RulePairsUnique(r, r, f.level5, 5);
    RulesApart(c, c, f.level1, 1, c, u, f.level2, 2);
    RulesApart(c, c, f.level1, 1, c, r, f.level3, 3);
    RulesApart(c, u, f.level2, 2, c, r, f.level3, 3);
    RulesApart(u, u, f.level3, 3, u, r, f.level4, 4);
    RulesApart(u, u, f.level3, 3, r, r, f.level5, 5);
    RulesApart(u, r, f.level4, 4, r, r, f.level5, 5);
    UniqueAppend(cc, cu);
    UniqueAppend(cc + cu, cr);
    UniqueAppend(uu, ur);
    UniqueAppend(uu + ur, rr);
    RulesApart(c, c, f.level1, 1, u, u, f.level3, 3);
    RulesApart(c, c, f.level1, 1, u, r, f.level4, 4);
    RulesApart(c, c, f.level1, 1, r, r, f.level5, 5);
    RulesApart(c, u, f.level2, 2, u, u, f.level3, 3);
    RulesApart(c, u, f.level2, 2, u, r, f.level4, 4);
    RulesApart(c, u, f.level2, 2, r, r, f.level5, 5);
    RulesApart(c, r, f.level3, 3, u, u, f.level3, 3);
    RulesApart(c, r, f.level3, 3, u, r, f.level4, 4);
    RulesApart(c, r, f.level3, 3, r, r, f.level5, 5);
    ApartThree(cc, cu, cr, uu, ur, rr);
    UniqueAppend(cc + cu + cr, uu + ur + rr);
    EffectPlanRules(effect, f, common, uncommon, rare, c, u, r);
  }

  /**
   * The recipes one effect gets from freshly classified pools never pair the
   * same two ingredients twice, whatever the host's arrays hold.
   */
  lemma ClassifiedPairsUnique(items: seq<Option<Ingredient>>, kws: TierKeywords, cfg: IngrConfig,
                              effect: FormId, f: Family)
    ensures PairsUnique(EffectPlan(effect, f, Tiered(items, Common, kws, cfg), Tiered(items, Uncommon, kws, cfg),
                                   Tiered(items, Rare, kws, cfg)))
  {
    TieredDisjoint(items, Common, Uncommon, kws, cfg);
    TieredDisjoint(items, Common, Rare, kws, cfg);
    TieredDisjoint(items, Uncommon, Rare, kws, cfg);
    EffectPlanPairsUnique(effect, f, Tiered(items, Common, kws, cfg), Tiered(items, Uncommon, kws, cfg),
                          Tiered(items, Rare, kws, cfg));
  }

  /**
   * Pools that start empty and receive the classified ingredients give every
   * effect's plan, for any family, recipes that never pair the same two
   * ingredients twice.
   */
  lemma StartupPairsUnique(items: seq<Option<Ingredient>>, kws: TierKeywords, cfg: IngrConfig,
                           c0: seq<Ingredient>, u0: seq<Ingredient>, r0: seq<Ingredient>,
                           common: seq<Ingredient>, uncommon: seq<Ingredient>, rare: seq<Ingredient>)
    requires common == c0 + Tiered(items, Common, kws, cfg)
    requires uncommon == u0 + Tiered(items, Uncommon, kws, cfg)
    requires rare == r0 + Tiered(items, Rare, kws, cfg)
    ensures c0 == [] && u0 == [] && r0 == [] ==>
      forall e, f :: PairsUnique(EffectPlan(e, f, common, uncommon, rare))
  {
    if c0 == [] && u0 == [] && r0 == [] {
      assert common == Tiered(items, Common, kws, cfg);
      assert uncommon == Tiered(items, Uncommon, kws, cfg);
      assert rare == Tiered(items, Rare, kws, cfg);
      forall e, f
        ensures PairsUnique(EffectPlan(e, f, common, uncommon, rare))
      {
        ClassifiedPairsUnique(items, kws, cfg, e, f);
      }
    }
  }

  /**
   * The recipes `created` carry, one for one, the metadata of `plan`, the
   * bench keyword and the two ingredients, one of each.
   */
  ghost predicate Realizes(md: map<Cobj, CobjMetadata>, bench: Option<FormId>, created: seq<Cobj>, plan: seq<Planned>)
  {
    |created| == |plan| &&
    forall j :: 0 <= j < |created| ==>
      && created[j] in md && md[created[j]] == plan[j].md
      && created[j].benchKeyword == bench
      && created[j].requiredItems == [(plan[j].md.ingr1, 1), (plan[j].md.ingr2, 1)]
  }

  /** The recipes `created` produce, one for one, the items of `plan`, one each, and are hidden. */
  ghost predicate Produces(created: seq<Cobj>, plan: seq<Planned>)
    reads created
  {
    |created| == |plan| &&
    forall j :: 0 <= j < |created| ==> created[j].State() == CobjState(plan[j].item, 1, Hidden)
  }

  lemma ProducesAppend(a: seq<Cobj>, pa: seq<Planned>, b: seq<Cobj>, pb: seq<Planned>)
    requires Produces(a, pa) && Produces(b, pb)
    ensures Produces(a + b, pa + pb)
  {
    forall j | 0 <= j < |a + b|
      ensures (a + b)[j].State() == CobjState((pa + pb)[j].item, 1, Hidden)
    {
      if j < |a| {
        assert (a + b)[j] == a[j] && (pa + pb)[j] == pa[j];
      } else {
        assert (a + b)[j] == b[j - |a|] && (pa + pb)[j] == pb[j - |a|];
      }
    }
  }

  /**
   * The rules run since (md0, fa0) created `created`, distinct new recipes
   * that realize `plan` and produce its items.
   */
  ghost predicate Built(md0: map<Cobj, CobjMetadata>, fa0: seq<Cobj>, md: map<Cobj, CobjMetadata>, fa: seq<Cobj>,
                        bench: Option<FormId>, created: seq<Cobj>, plan: seq<Planned>)
    reads created
  {
    && Extended(md0, fa0, md, fa, created)
    && Distinct(created)
    && (forall c :: c in created ==> c !in md0)
    && Realizes(md, bench, created, plan)
    && Produces(created, plan)
  }

  /** Two runs of rules, one after the other. */
  lemma BuiltAppend(md0: map<Cobj, CobjMetadata>, fa0: seq<Cobj>, md1: map<Cobj, CobjMetadata>, fa1: seq<Cobj>,
                    md: map<Cobj, CobjMetadata>, fa: seq<Cobj>, bench: Option<FormId>,
                    a: seq<Cobj>, pa: seq<Planned>, b: seq<Cobj>, pb: seq<Planned>)
    requires Built(md0, fa0, md1, fa1, bench, a, pa) && Built(md1, fa1, md, fa, bench, b, pb)
    ensures Built(md0, fa0, md, fa, bench, a + b, pa + pb)
  {
    ExtendedTrans(md0, fa0, md1, fa1, md, fa, a, b);
    RealizesAppend(md1, md, bench, a, pa, b, pb);
    ProducesAppend(a, pa, b, pb);
    DistinctAppend(a, b);
  }

  /**
   * The recipes of the whole lattice when its loop visits the indexed
   * effects in `order`: each effect's plan, one after the other.
   */
  function LatticePlan(order: seq<FormId>, families: map<FormId, Family>,
                       common: seq<Ingredient>, uncommon: seq<Ingredient>, rare: seq<Ingredient>): seq<Planned>
  {
    if order == [] then []
    else
      var e := order[|order| - 1];
      LatticePlan(order[..|order| - 1], families, common, uncommon, rare) +
      EffectPlan(e, FamilyAt(families, e), common, uncommon, rare)
  }

  /** Every recipe of the lattice's plan, for effects of the index, is a lattice recipe. */
  lemma {:induction false} LatticePlanSound(order: seq<FormId>, families: map<FormId, Family>,
                                            common: seq<Ingredient>, uncommon: seq<Ingredient>, rare: seq<Ingredient>)
    requires WellFormed(families)
    requires forall e :: e in order ==> e in families
    ensures forall pl :: pl in LatticePlan(order, families, common, uncommon, rare) ==>
      LatticeRecipe(pl.md, CobjState(pl.item, 1, Hidden), families, common, uncommon, rare)
  {
    if order != [] {
      var n := |order| - 1;
      assert forall e :: e in order[..n] ==> e in order;
      LatticePlanSound(order[..n], families, common, uncommon, rare);
      EffectPlanSound(order[n], families, common, uncommon, rare);
    }
  }

  /**
   * Every recipe in `created` is new since `md0`, is registered in `md`, and
   * is a lattice recipe of the index and the pools.
   */
  ghost predicate AllLattice(md0: map<Cobj, CobjMetadata>, md: map<Cobj, CobjMetadata>, created: seq<Cobj>,
                             families: map<FormId, Family>, common: seq<Ingredient>, uncommon: seq<Ingredient>,
                             rare: seq<Ingredient>)
    reads created
  {
    forall c :: c in created ==>
      (c !in md0 && c in md && LatticeRecipe(md[c], c.State(), families, common, uncommon, rare))
  }

  /** Recipes built for a plan of lattice recipes are lattice recipes. */
  lemma BuiltLattice(md0: map<Cobj, CobjMetadata>, fa0: seq<Cobj>, md: map<Cobj, CobjMetadata>, fa: seq<Cobj>,
                     bench: Option<FormId>, created: seq<Cobj>, plan: seq<Planned>,
                     families: map<FormId, Family>, common: seq<Ingredient>, uncommon: seq<Ingredient>,
                     rare: seq<Ingredient>)
    requires Built(md0, fa0, md, fa, bench, created, plan)
    requires forall pl :: pl in plan ==> LatticeRecipe(pl.md, CobjState(pl.item, 1, Hidden), families, common, uncommon, rare)
    ensures AllLattice(md0, md, created, families, common, uncommon, rare)
  {
    forall c | c in created
      ensures c !in md0 && c in md && LatticeRecipe(md[c], c.State(), families, common, uncommon, rare)
    {
      var j :| 0 <= j < |created| && created[j] == c;
      assert plan[j] in plan;
    }
  }

  /** One more effect's recipes: the lattice's plan grows by the effect's plan. */
  lemma LatticeAdvance(md0: map<Cobj, CobjMetadata>, fa0: seq<Cobj>, md1: map<Cobj, CobjMetadata>, fa1: seq<Cobj>,
                       md: map<Cobj, CobjMetadata>, fa: seq<Cobj>, bench: Option<FormId>,
                       created: seq<Cobj>, order: seq<FormId>, e: FormId, made: seq<Cobj>,
                       families: map<FormId, Family>, common: seq<Ingredient>, uncommon: seq<Ingredient>,
                       rare: seq<Ingredient>)
    requires e in families
    requires Built(md0, fa0, md1, fa1, bench, created, LatticePlan(order, families, common, uncommon, rare))
    requires Built(md1, fa1, md, fa, bench, made, EffectPlan(e, families[e], common, uncommon, rare))
    ensures Built(md0, fa0, md, fa, bench, created + made, LatticePlan(order + [e], families, common, uncommon, rare))
  {
    assert (order + [e])[..|order|] == order;
    BuiltAppend(md0, fa0, md1, fa1, md, fa, bench, created, LatticePlan(order, families, common, uncommon, rare),
                made, EffectPlan(e, families[e], common, uncommon, rare));
  }

  /** What an event does to one recipe. */
  function EventStep(event: FurnitureEvent, alchemyKeyword: Option<FormId>, s: CobjState, md: CobjMetadata,
                     perks: Perks, player: PlayerState, families: map<FormId, Family>): (r: CobjState)
    ensures !event.actorIsPlayer || !HasKeyword(event.furnitureKeywords, alchemyKeyword) ==> r == s
    ensures event.eventType == Exit ==> r.createdItem == s.createdItem && r.numConstructed == s.numConstructed
    ensures event.eventType == Exit && r != s ==> r.playerCondition == Hidden
    ensures event.actorIsPlayer && HasKeyword(event.furnitureKeywords, alchemyKeyword) && event.eventType == Exit ==>
      r == s.(playerCondition := Hidden)
    ensures event.eventType == Enter && s.playerCondition == Visible ==> r.playerCondition == Visible
    ensures event.actorIsPlayer && HasKeyword(event.furnitureKeywords, alchemyKeyword) && event.eventType == Enter ==>
      && (!Evaluated(s, md, perks, player) ==> r == s)
      && (Evaluated(s, md, perks, player) && KnowsBoth(md, r.createdItem, player) ==> r.playerCondition == Visible)
      && (Evaluated(s, md, perks, player) && HasPerk(player, perks.doubleItems) ==> r.numConstructed == 2)
  {
    if !event.actorIsPlayer || !HasKeyword(event.furnitureKeywords, alchemyKeyword) then s
    else if event.eventType == Enter then EnterStep(s, md, perks, player, families)
    else ExitStep(s)
  }

  /**
   * The metadata and the host array grew from (md0, fa0) to (md, fa) by the
   * recipes `created`: appended to the array, added to the metadata, and
   * every entry that was there is kept.
   */
  ghost predicate Extended(md0: map<Cobj, CobjMetadata>, fa0: seq<Cobj>, md: map<Cobj, CobjMetadata>, fa: seq<Cobj>,
                           created: seq<Cobj>)
  {
    && fa == fa0 + created
    && (forall c :: c in md ==> c in md0 || c in created)
    && (forall c :: c in created ==> c in md)
    && (forall c :: c in md0 ==> c in md && md[c] == md0[c])
  }

  lemma ExtendedTrans(md0: map<Cobj, CobjMetadata>, fa0: seq<Cobj>, md1: map<Cobj, CobjMetadata>, fa1: seq<Cobj>,
                      md2: map<Cobj, CobjMetadata>, fa2: seq<Cobj>, a: seq<Cobj>, b: seq<Cobj>)
    requires Extended(md0, fa0, md1, fa1, a) && Extended(md1, fa1, md2, fa2, b)
    ensures Extended(md0, fa0, md2, fa2, a + b)
  {
    assert fa2 == fa0 + (a + b);
  }

  lemma ExtendedSnoc(md0: map<Cobj, CobjMetadata>, fa0: seq<Cobj>, md: map<Cobj, CobjMetadata>, fa: seq<Cobj>,
                     created: seq<Cobj>, obj: Cobj, m: CobjMetadata)
    requires Extended(md0, fa0, md, fa, created) && obj !in md0
    ensures Extended(md0, fa0, md[obj := m], fa + [obj], created + [obj])
  {
    assert fa + [obj] == fa0 + (created + [obj]);
  }

  lemma RealizesAppend(md0: map<Cobj, CobjMetadata>, md: map<Cobj, CobjMetadata>, bench: Option<FormId>,
                       a: seq<Cobj>, pa: seq<Planned>, b: seq<Cobj>, pb: seq<Planned>)
    requires Realizes(md0, bench, a, pa) && Realizes(md, bench, b, pb)
    requires forall c :: c in md0 ==> c in md && md[c] == md0[c]
    ensures Realizes(md, bench, a + b, pa + pb)
  {
    forall j | 0 <= j < |a + b|
      ensures (a + b)[j] in md && md[(a + b)[j]] == (pa + pb)[j].md
    {
      if j < |a| {
        assert (a + b)[j] == a[j] && (pa + pb)[j] == pa[j];
      } else {
        assert (a + b)[j] == b[j - |a|] && (pa + pb)[j] == pb[j - |a|];
      }
    }
  }

  /** One more recipe: the plan grows by its entry. */
  lemma RealizesSnoc(md: map<Cobj, CobjMetadata>, bench: Option<FormId>, created: seq<Cobj>, plan: seq<Planned>,
                     obj: Cobj, m: CobjMetadata, item: Potion)
    requires Realizes(md, bench, created, plan) && obj !in created
    requires obj.benchKeyword == bench
    requires obj.requiredItems == [(m.ingr1, 1), (m.ingr2, 1)]
    ensures Realizes(md[obj := m], bench, created + [obj], plan + [Planned(m, item)])
  {
    var created' := created + [obj];
    var plan' := plan + [Planned(m, item)];
    forall j | 0 <= j < |created'|
      ensures created'[j] in md[obj := m] && md[obj := m][created'[j]] == plan'[j].md
    {
      if j < |created| {
        assert created'[j] == created[j] && plan'[j] == plan[j];
      }
    }
  }

  lemma PlannedForSnoc(pairs: seq<Pair>, p: Pair, potion: Potion, targetLevel: int, potionMinLevel: int)
    ensures PlannedFor(pairs + [p], potion, targetLevel, potionMinLevel) ==
      PlannedFor(pairs, potion, targetLevel, potionMinLevel) + [Planned(CobjMetadata(targetLevel, potionMinLevel, p.0, p.1), potion)]
  {
    var l := PlannedFor(pairs + [p], potion, targetLevel, potionMinLevel);
    var r := PlannedFor(pairs, potion, targetLevel, potionMinLevel) + [Planned(CobjMetadata(targetLevel, potionMinLevel, p.0, p.1), potion)];
    assert forall j :: 0 <= j < |pairs| ==> (pairs + [p])[j] == pairs[j];
    assert |l| == |r|;
    assert forall j :: 0 <= j < |l| ==> l[j] == r[j];
  }

  lemma PlannedForAppend(a: seq<Pair>, b: seq<Pair>, potion: Potion, targetLevel: int, potionMinLevel: int)
    ensures PlannedFor(a + b, potion, targetLevel, potionMinLevel) ==
      PlannedFor(a, potion, targetLevel, potionMinLevel) + PlannedFor(b, potion, targetLevel, potionMinLevel)
  {
    var l := PlannedFor(a + b, potion, targetLevel, potionMinLevel);
    var r := PlannedFor(a, potion, targetLevel, potionMinLevel) + PlannedFor(b, potion, targetLevel, potionMinLevel);
    assert |l| == |r|;
    forall j | 0 <= j < |l|
      ensures l[j] == r[j]
    {
      if j < |a| {
        assert (a + b)[j] == a[j];
      } else {
        assert (a + b)[j] == b[j - |a|];
      }
    }
  }

  /**
   * What the synthesizer did since the metadata and the array were
   * (md0, fa0): `created` are distinct new recipes, appended to the array
   * and registered in the metadata as `plan` lists them, each producing one
   * `potion` and hidden.
   */
  ghost predicate Synthesized(md0: map<Cobj, CobjMetadata>, fa0: seq<Cobj>, md: map<Cobj, CobjMetadata>, fa: seq<Cobj>,
                              bench: Option<FormId>, created: seq<Cobj>, plan: seq<Planned>, potion: Potion)
    reads created
  {
    && Extended(md0, fa0, md, fa, created)
    && Distinct(created)
    && (forall c :: c in created ==> c !in md0 && c.State() == CobjState(potion, 1, Hidden))
    && Realizes(md, bench, created, plan)
  }

  /** One more recipe object, new to the metadata. */
  lemma SynthesizedSnoc(md0: map<Cobj, CobjMetadata>, fa0: seq<Cobj>, md: map<Cobj, CobjMetadata>, fa: seq<Cobj>,
                        bench: Option<FormId>, created: seq<Cobj>, plan: seq<Planned>, potion: Potion,
                        obj: Cobj, m: CobjMetadata)
    requires Synthesized(md0, fa0, md, fa, bench, created, plan, potion)
    requires obj !in md && obj.State() == CobjState(potion, 1, Hidden)
    requires obj.benchKeyword == bench && obj.requiredItems == [(m.ingr1, 1), (m.ingr2, 1)]
    ensures Synthesized(md0, fa0, md[obj := m], fa + [obj], bench, created + [obj], plan + [Planned(m, potion)], potion)
  {
    assert obj !in created by {
      forall x | x in created
        ensures x in md
      {
        var j :| 0 <= j < |created| && created[j] == x;
      }
    }
    DistinctSnoc(created, obj);
    ExtendedSnoc(md0, fa0, md, fa, created, obj, m);
    RealizesSnoc(md, bench, created, plan, obj, m, potion);
  }

  /** Two runs of the synthesizer, one after the other. */
  lemma SynthesizedAppend(md0: map<Cobj, CobjMetadata>, fa0: seq<Cobj>, md1: map<Cobj, CobjMetadata>, fa1: seq<Cobj>,
                          md: map<Cobj, CobjMetadata>, fa: seq<Cobj>, bench: Option<FormId>,
                          a: seq<Cobj>, pa: seq<Planned>, b: seq<Cobj>, pb: seq<Planned>, potion: Potion)
    requires Synthesized(md0, fa0, md1, fa1, bench, a, pa, potion)
    requires Synthesized(md1, fa1, md, fa, bench, b, pb, potion)
    ensures Synthesized(md0, fa0, md, fa, bench, a + b, pa + pb, potion)
  {
    ExtendedTrans(md0, fa0, md1, fa1, md, fa, a, b);
    RealizesAppend(md1, md, bench, a, pa, b, pb);
    forall x | x in a
      ensures x !in b
    {
      var j :| 0 <= j < |a| && a[j] == x;
    }
    DistinctAppend(a, b);
  }

  /** No element occurs twice. */
  predicate Distinct<T(==)>(s: seq<T>)
  {
    forall j, k :: 0 <= j < k < |s| ==> s[j] != s[k]
  }

  lemma DistinctSnoc<T>(a: seq<T>, x: T)
    requires Distinct(a)
    requires x !in a
    ensures Distinct(a + [x])
  {
    forall j, k | 0 <= j < k < |a + [x]|
      ensures (a + [x])[j] != (a + [x])[k]
    {
      assert (a + [x])[j] == a[j];
    }
  }

  lemma DistinctAppend<T>(a: seq<T>, b: seq<T>)
    requires Distinct(a)
    requires Distinct(b)
    requires forall x :: x in a ==> x !in b
    ensures Distinct(a + b)
  {
    forall j, k | 0 <= j < k < |a + b|
      ensures (a + b)[j] != (a + b)[k]
    {
      if k < |a| {
        assert (a + b)[j] == a[j] && (a + b)[k] == a[k];
      } else if j >= |a| {
        assert (a + b)[j] == b[j - |a|] && (a + b)[k] == b[k - |a|];
      } else {
        assert (a + b)[j] == a[j] && (a + b)[k] == b[k - |a|];
        assert a[j] in a && b[k - |a|] in b;
      }
    }
  }

  /** The distributor's state: the start-up results and the host arrays it appends to. */
  class AlchemyDistributor {
    var alchemyKeyword: Option<FormId>
    var levelKeywords: LevelKeywords
    var perks: Perks
    var commonIngredients: seq<Ingredient>
    var uncommonIngredients: seq<Ingredient>
    var rareIngredients: seq<Ingredient>
    var potionsByEffect: map<FormId, Family>
    var constructibleMetadata: map<Cobj, CobjMetadata>
    /** The host's array of constructible objects, which the synthesizer appends to. */
    var formArray: seq<Cobj>

    /** Every variant in the index has exactly its family's effect. */
    ghost predicate Valid()
      reads this
    {
      WellFormed(potionsByEffect)
    }

    /** The state before start-up: nothing resolved, everything empty. */
    constructor ()
      ensures Valid()
      ensures alchemyKeyword == None && levelKeywords == LevelKeywords(None, None, None, None, None, None)
      ensures perks == Perks(None, None, None, None, None, None, None, None)
      ensures commonIngredients == [] && uncommonIngredients == [] && rareIngredients == []
      ensures potionsByEffect == map[] && constructibleMetadata == map[] && formArray == []
    {
      alchemyKeyword := None;
      levelKeywords := LevelKeywords(None, None, None, None, None, None);
      perks := Perks(None, None, None, None, None, None, None, None);
      commonIngredients := [];
      uncommonIngredients := [];
      rareIngredients := [];
      potionsByEffect := map[];
      constructibleMetadata := map[];
      formArray := [];
    }

    /** The classification loop: every non-null ingredient is appended to its tier's sequence. */
    method ClassifyIngredients(items: seq<Option<Ingredient>>, kws: TierKeywords, cfg: IngrConfig)
      modifies this`commonIngredients, this`uncommonIngredients, this`rareIngredients
      ensures commonIngredients == old(commonIngredients) + Tiered(items, Common, kws, cfg)
      ensures uncommonIngredients == old(uncommonIngredients) + Tiered(items, Uncommon, kws, cfg)
      ensures rareIngredients == old(rareIngredients) + Tiered(items, Rare, kws, cfg)
    {
      for i := 0 to |items|
        invariant commonIngredients == old(commonIngredients) + Tiered(items[..i], Common, kws, cfg)
        invariant uncommonIngredients == old(uncommonIngredients) + Tiered(items[..i], Uncommon, kws, cfg)
        invariant rareIngredients == old(rareIngredients) + Tiered(items[..i], Rare, kws, cfg)
      {
        assert items[..i + 1][..i] == items[..i];
        match items[i]
        case None =>
        case Some(x) =>
          if HasKeyword(x.keywords, kws.common) {
            commonIngredients := commonIngredients + [Renamed(x, Common, cfg)];
          } else if HasKeyword(x.keywords, kws.uncommon) {
            uncommonIngredients := uncommonIngredients + [Renamed(x, Uncommon, cfg)];
          } else if HasKeyword(x.keywords, kws.rare) {
            rareIngredients := rareIngredients + [Renamed(x, Rare, cfg)];
          } else {
            uncommonIngredients := uncommonIngredients + [Renamed(x, Uncommon, cfg)];
          }
      }
      assert items[..|items|] == items;
    }

    /** The potion index loop: each indexable potion overwrites the slot of its level in its effect's family. */
    method IndexPotions(items: seq<Option<Potion>>)
      requires Valid()
      modifies this`potionsByEffect
      ensures Valid()
      ensures potionsByEffect == Indexed(old(potionsByEffect), items, levelKeywords)
    {
      for i := 0 to |items|
        invariant potionsByEffect == Indexed(old(potionsByEffect), items[..i], levelKeywords)
      {
        assert items[..i + 1][..i] == items[..i];
        if items[i].Some? {
          var p := items[i].value;
          if HasKeyword(p.keywords, levelKeywords.craftable) && |p.effects| == 1 {
            var e := p.effects[0];
            var f := FamilyAt(potionsByEffect, e);
            if HasKeyword(p.keywords, levelKeywords.level1) {
              potionsByEffect := potionsByEffect[e := f.(level1 := Some(p))];
            } else if HasKeyword(p.keywords, levelKeywords.level2) {
              potionsByEffect := potionsByEffect[e := f.(level2 := Some(p))];
            } else if HasKeyword(p.keywords, levelKeywords.level3) {
              potionsByEffect := potionsByEffect[e := f.(level3 := Some(p))];
            } else if HasKeyword(p.keywords, levelKeywords.level4) {
              potionsByEffect := potionsByEffect[e := f.(level4 := Some(p))];
            } else if HasKeyword(p.keywords, levelKeywords.level5) {
              potionsByEffect := potionsByEffect[e := f.(level5 := Some(p))];
            }
          }
        }
      }
      assert items[..|items|] == items;
      IndexedWellFormed(old(potionsByEffect), items, levelKeywords);
    }

    /**
     * One recipe: a fresh object for (ingr1, ingr2) on the alchemy bench,
     * producing one `potion` and hidden, recorded in the metadata and
     * appended to the host array.
     */
    method AddRecipe(ingr1: Ingredient, ingr2: Ingredient, potion: Potion, targetLevel: int, potionMinLevel: int)
      returns (obj: Cobj)
      modifies this`constructibleMetadata, this`formArray
      ensures fresh(obj) && obj !in old(constructibleMetadata)
      ensures obj.State() == CobjState(potion, 1, Hidden) && obj.benchKeyword == alchemyKeyword
      ensures obj.requiredItems == [(ingr1, 1), (ingr2, 1)] && obj.countConditions == [ingr2, ingr1]
      ensures constructibleMetadata ==
        old(constructibleMetadata)[obj := CobjMetadata(targetLevel, potionMinLevel, ingr1, ingr2)]
      ensures formArray == old(formArray) + [obj]
    {
      obj := new Cobj(alchemyKeyword, ingr1, ingr2, potion);
      constructibleMetadata := constructibleMetadata[obj := CobjMetadata(targetLevel, potionMinLevel, ingr1, ingr2)];
      formArray := formArray + [obj];
    }

    /**
     * The inner loop of the synthesizer for `ingr1`: the pairs with the
     * second pool that are no self-pair and whose key is not yet in `keys`
     * get a recipe each, in pool order; `before` holds the pairs visited in
     * earlier rows.
     */
    method VisitRow(ingr1: Ingredient, second: seq<Ingredient>, potion: Potion, targetLevel: int, potionMinLevel: int,
                    keys: set<int>, ghost before: seq<Pair>) returns (keys': set<int>, ghost added: seq<Pair>, ghost made: seq<Cobj>)
      requires keys == KeySet(Select(before))
      modifies this`constructibleMetadata, this`formArray
      ensures Select(before + Row(ingr1, second)) == Select(before) + added
      ensures keys' == KeySet(Select(before) + added)
      ensures Synthesized(old(constructibleMetadata), old(formArray), constructibleMetadata, formArray, alchemyKeyword,
                          made, PlannedFor(added, potion, targetLevel, potionMinLevel), potion)
    {
      keys', added, made := keys, [], [];
      for k := 0 to |second|
        invariant (keys', added) == RowPicks(keys, ingr1, second[..k])
        invariant Synthesized(old(constructibleMetadata), old(formArray), constructibleMetadata, formArray, alchemyKeyword,
                              made, PlannedFor(added, potion, targetLevel, potionMinLevel), potion)
      {
        var ingr2 := second[k];
        assert second[..k + 1][..k] == second[..k];
        var key := (ingr1.id + ingr2.id) % U32Modulus;
        assert key == SumKey(ingr1, ingr2);
        if ingr1 != ingr2 && key !in keys' {
          keys' := keys' + {key};
          ghost var md0, fa0 := constructibleMetadata, formArray;
          var obj := AddRecipe(ingr1, ingr2, potion, targetLevel, potionMinLevel);
          SynthesizedSnoc(old(constructibleMetadata), old(formArray), md0, fa0, alchemyKeyword,
                          made, PlannedFor(added, potion, targetLevel, potionMinLevel), potion,
                          obj, CobjMetadata(targetLevel, potionMinLevel, ingr1, ingr2));
          PlannedForSnoc(added, (ingr1, ingr2), potion, targetLevel, potionMinLevel);
          added := added + [(ingr1, ingr2)];
          made := made + [obj];
        }
      }
      assert second[..|second|] == second;
      RowPicksSelect(before, ingr1, second, keys);
    }

    /**
     * The recipe synthesizer for one pool pair: one fresh recipe per planned
     * pair, recorded in the metadata and appended to the host array, in
     * visiting order, each producing one `potion` and hidden; existing
     * recipes are untouched.
     */
    method CreateRecipes(first: seq<Ingredient>, second: seq<Ingredient>, potion: Potion,
                         targetLevel: int, potionMinLevel: int) returns (ghost created: seq<Cobj>)
      modifies this`constructibleMetadata, this`formArray
      ensures Synthesized(old(constructibleMetadata), old(formArray), constructibleMetadata, formArray, alchemyKeyword,
                          created, PlannedFor(Plan(first, second), potion, targetLevel, potionMinLevel), potion)
    {
      var createdForFormIds: set<int> := {};
      ghost var sel: seq<Pair> := [];
      created := [];
      for i := 0 to |first|
        invariant sel == Select(Candidates(first[..i], second))
        invariant createdForFormIds == KeySet(sel)
        invariant Synthesized(old(constructibleMetadata), old(formArray), constructibleMetadata, formArray, alchemyKeyword,
                              created, PlannedFor(sel, potion, targetLevel, potionMinLevel), potion)
      {
        assert first[..i + 1][..i] == first[..i];
        ghost var md0, fa0 := constructibleMetadata, formArray;
        ghost var added, made;
        createdForFormIds, added, made :=
          VisitRow(first[i], second, potion, targetLevel, potionMinLevel, createdForFormIds, Candidates(first[..i], second));
        SynthesizedAppend(old(constructibleMetadata), old(formArray), md0, fa0, constructibleMetadata, formArray, alchemyKeyword,
                          created, PlannedFor(sel, potion, targetLevel, potionMinLevel),
                          made, PlannedFor(added, potion, targetLevel, potionMinLevel), potion);
        PlannedForAppend(sel, added, potion, targetLevel, potionMinLevel);
        sel := sel + added;
        created := created + made;
      }
      assert first[..|first|] == first;
    }

    /** One rule of the lattice: the synthesizer runs only when the family has a variant at the level. */
    method ApplyRule(first: seq<Ingredient>, second: seq<Ingredient>, slot: Option<Potion>, level: int)
      returns (ghost created: seq<Cobj>)
      modifies this`constructibleMetadata, this`formArray
      ensures Built(old(constructibleMetadata), old(formArray), constructibleMetadata, formArray, alchemyKeyword,
                    created, RulePlan(first, second, slot, level))
    {
      created := [];
      if slot.Some? {
        created := CreateRecipes(first, second, slot.value, level, level);
        assert forall j :: 0 <= j < |created| ==> created[j] in created;
      }
    }

    /**
     * The next rule, after the rules that created `created` for `plan`
     * since the metadata and the array were (md0, fa0). This method, like
     * `CommonRules` and `OtherRules`, only splits the single run of six
     * rule calls into smaller proofs; the source has no such step.
     */
    method Continue(ghost md0: map<Cobj, CobjMetadata>, ghost fa0: seq<Cobj>, ghost created: seq<Cobj>,
                    ghost plan: seq<Planned>, first: seq<Ingredient>, second: seq<Ingredient>,
                    slot: Option<Potion>, level: int) returns (ghost created': seq<Cobj>)
      requires Built(md0, fa0, constructibleMetadata, formArray, alchemyKeyword, created, plan)
      modifies this`constructibleMetadata, this`formArray
      ensures Built(md0, fa0, constructibleMetadata, formArray, alchemyKeyword, created',
                    plan + RulePlan(first, second, slot, level))
    {
      var made := ApplyRule(first, second, slot, level);
      BuiltAppend(md0, fa0, old(constructibleMetadata), old(formArray), constructibleMetadata, formArray, alchemyKeyword,
                  created, plan, made, RulePlan(first, second, slot, level));
      created' := created + made;
    }

    /**
     * The first three rules of an effect, those that take a common ingredient
     * first: the first half of the source's single run of six rule calls,
     * split off only to keep the proof small.
     */
    method CommonRules(c: seq<Ingredient>, u: seq<Ingredient>, r: seq<Ingredient>, potions: Family)
      returns (ghost created: seq<Cobj>)
      modifies this`constructibleMetadata, this`formArray
      ensures Built(old(constructibleMetadata), old(formArray), constructibleMetadata, formArray, alchemyKeyword, created,
                    RulePlan(c, c, potions.level1, 1) + RulePlan(c, u, potions.level2, 2) + RulePlan(c, r, potions.level3, 3))
    {
      created := ApplyRule(c, c, potions.level1, 1);
      created := Continue(old(constructibleMetadata), old(formArray), created,
                          RulePlan(c, c, potions.level1, 1), c, u, potions.level2, 2);
      created := Continue(old(constructibleMetadata), old(formArray), created,
                          RulePlan(c, c, potions.level1, 1) + RulePlan(c, u, potions.level2, 2), c, r, potions.level3, 3);
    }

    /**
     * The last three rules of an effect, those without a common ingredient:
     * the second half of the source's single run of six rule calls, split
     * off only to keep the proof small.
     */
    method OtherRules(u: seq<Ingredient>, r: seq<Ingredient>, potions: Family)
      returns (ghost created: seq<Cobj>)
      modifies this`constructibleMetadata, this`formArray
      ensures Built(old(constructibleMetadata), old(formArray), constructibleMetadata, formArray, alchemyKeyword, created,
                    RulePlan(u, u, potions.level3, 3) + RulePlan(u, r, potions.level4, 4) + RulePlan(r, r, potions.level5, 5))
    {
      created := ApplyRule(u, u, potions.level3, 3);
      created := Continue(old(constructibleMetadata), old(formArray), created,
                          RulePlan(u, u, potions.level3, 3), u, r, potions.level4, 4);
      created := Continue(old(constructibleMetadata), old(formArray), created,
                          RulePlan(u, u, potions.level3, 3) + RulePlan(u, r, potions.level4, 4), r, r, potions.level5, 5);
    }

    /** The recipes of one effect of the index, rules in the lattice's order. */
    method CreateEffectRecipes(effect: FormId, potions: Family) returns (ghost created: seq<Cobj>)
      modifies this`constructibleMetadata, this`formArray
      ensures Built(old(constructibleMetadata), old(formArray), constructibleMetadata, formArray, alchemyKeyword, created,
                    EffectPlan(effect, potions, commonIngredients, uncommonIngredients, rareIngredients))
    {
      var c := FilterByEffect(commonIngredients, effect);
      var u := FilterByEffect(uncommonIngredients, effect);
      var r := FilterByEffect(rareIngredients, effect);
      ghost var created1 := CommonRules(c, u, r, potions);
      ghost var md1, fa1 := constructibleMetadata, formArray;
      ghost var created2 := OtherRules(u, r, potions);
      BuiltAppend(old(constructibleMetadata), old(formArray), md1, fa1, constructibleMetadata, formArray, alchemyKeyword,
                  created1, RulePlan(c, c, potions.level1, 1) + RulePlan(c, u, potions.level2, 2) + RulePlan(c, r, potions.level3, 3),
                  created2, RulePlan(u, u, potions.level3, 3) + RulePlan(u, r, potions.level4, 4) + RulePlan(r, r, potions.level5, 5));
      created := created1 + created2;
      EffectPlanRules(effect, potions, commonIngredients, uncommonIngredients, rareIngredients, c, u, r);
    }

    /**
     * The lattice loop over the index, one effect at a time in an order the
     * index leaves open: `order` visits every indexed effect exactly once, and
     * the recipes created are, one for one, the plans of those effects in
     * that order; every one of them is a lattice recipe.
     */
    method CreateLattice() returns (ghost created: seq<Cobj>, ghost order: seq<FormId>)
      requires Valid()
      modifies this`constructibleMetadata, this`formArray
      ensures Distinct(order) && forall e :: e in order <==> e in potionsByEffect
      ensures Built(old(constructibleMetadata), old(formArray), constructibleMetadata, formArray, alchemyKeyword, created,
                    LatticePlan(order, potionsByEffect, commonIngredients, uncommonIngredients, rareIngredients))
      ensures AllLattice(old(constructibleMetadata), constructibleMetadata, created,
                         potionsByEffect, commonIngredients, uncommonIngredients, rareIngredients)
    {
      var todo := potionsByEffect.Keys;
      created, order := [], [];
      while todo != {}
        invariant todo <= potionsByEffect.Keys
        invariant Distinct(order) && forall e :: e in order <==> e in potionsByEffect && e !in todo
        invariant Built(old(constructibleMetadata), old(formArray), constructibleMetadata, formArray, alchemyKeyword, created,
                        LatticePlan(order, potionsByEffect, commonIngredients, uncommonIngredients, rareIngredients))
        decreases todo
      {
        var e :| e in todo;
        ghost var md1, fa1 := constructibleMetadata, formArray;
        ghost var made := CreateEffectRecipes(e, potionsByEffect[e]);
        LatticeAdvance(old(constructibleMetadata), old(formArray), md1, fa1, constructibleMetadata, formArray,
                       alchemyKeyword, created, order, e, made,
                       potionsByEffect, commonIngredients, uncommonIngredients, rareIngredients);
        DistinctSnoc(order, e);
        created := created + made;
        order := order + [e];
        todo := todo - {e};
      }
      LatticePlanSound(order, potionsByEffect, commonIngredients, uncommonIngredients, rareIngredients);
      BuiltLattice(old(constructibleMetadata), old(formArray), constructibleMetadata, formArray, alchemyKeyword, created,
                   LatticePlan(order, potionsByEffect, commonIngredients, uncommonIngredients, rareIngredients),
                   potionsByEffect, commonIngredients, uncommonIngredients, rareIngredients);
    }

    /** Whether the player knows the effect of the recipe's current item in both its ingredients. */
    method HasKnownEffectInIngredients(cobj: Cobj, player: PlayerState) returns (known: bool)
      ensures known == (cobj in constructibleMetadata && KnowsBoth(constructibleMetadata[cobj], cobj.createdItem, player))
    {
      if cobj !in constructibleMetadata {
        return false;
      }
      var metadata := constructibleMetadata[cobj];
      var potion := cobj.createdItem;
      if |potion.effects| == 0 {
        return false;
      }
      var potionEffect := potion.effects[0];
      var k1 := HasKnownEffectInIngredient(potionEffect, metadata.ingr1, FlagsOf(player.knownEffectFlags, metadata.ingr1.id));
      if !k1 {
        return false;
      }
      known := HasKnownEffectInIngredient(potionEffect, metadata.ingr2, FlagsOf(player.knownEffectFlags, metadata.ingr2.id));
    }

    /** The level-perk checks, 2 to 5 in order: the last one held wins. */
    method MaxLevelFor(player: PlayerState) returns (maxAllowedPotionLevel: int)
      ensures maxAllowedPotionLevel == MaxAllowedPotionLevel(perks, player)
    {
      maxAllowedPotionLevel := 1;
      if HasPerk(player, perks.level2) {
        maxAllowedPotionLevel := 2;
      }
      if HasPerk(player, perks.level3) {
        maxAllowedPotionLevel := 3;
      }
      if HasPerk(player, perks.level4) {
        maxAllowedPotionLevel := 4;
      }
      if HasPerk(player, perks.level5) {
        maxAllowedPotionLevel := 5;
      }
    }

    /** The quality boost and the replacement from the potion's family. */
    method UpgradeFor(potion: Potion, potionMinLevel: int, player: PlayerState) returns (item: Potion)
      requires |potion.effects| > 0
      ensures item == UpgradedItem(potion, potionMinLevel, perks, player, potionsByEffect)
    {
      var maxAllowedPotionLevel := MaxLevelFor(player);
      var increaseLevel := 0;
      if HasPerk(player, perks.potionQuality) && !potion.isPoison {
        increaseLevel := increaseLevel + 1;
      }
      if HasPerk(player, perks.poisonQuality) && potion.isPoison {
        increaseLevel := increaseLevel + 1;
      }
      if HasPerk(player, perks.allQuality) {
        increaseLevel := increaseLevel + 1;
      }
      item := potion;
      if increaseLevel > 0 {
        var newLevel := potionMinLevel + increaseLevel;
        if newLevel > maxAllowedPotionLevel {
          newLevel := maxAllowedPotionLevel;
        }
        var effect := potion.effects[0];
        if effect in potionsByEffect && newLevel > potionMinLevel {
          var newPotion := GetHigherLevelPotion(potionsByEffect[effect], newLevel);
          if newPotion.Some? {
            item := newPotion.value;
          }
        }
      }
    }

    /** One recipe's turn in an Enter pass. */
    method EnterRecipe(cobj: Cobj, player: PlayerState)
      requires cobj in constructibleMetadata
      modifies cobj
      ensures cobj.State() == EnterStep(old(cobj.State()), constructibleMetadata[cobj], perks, player, potionsByEffect)
    {
      var metadata := constructibleMetadata[cobj];
      var potion := cobj.createdItem;
      if |potion.effects| == 0 {
        return;
      }
      if !PassesMinLevelGate(metadata.potionMinLevel, perks, player) {
        return;
      }
      if HasPerk(player, perks.doubleItems) {
        cobj.numConstructed := 2;
      }
      var item := UpgradeFor(potion, metadata.potionMinLevel, player);
      cobj.createdItem := item;
      var known := HasKnownEffectInIngredients(cobj, player);
      if known {
        cobj.playerCondition := Visible;
      }
    }

    /**
     * The furniture-event handler. An event of another actor, or at
     * furniture without the alchemy keyword, changes nothing; Enter runs the
     * gate over every recipe, Exit hides every recipe.
     */
    method ProcessEvent(event: FurnitureEvent, player: PlayerState)
      modifies constructibleMetadata.Keys
      ensures forall c :: c in constructibleMetadata ==>
        c.State() == EventStep(event, alchemyKeyword, old(c.State()), constructibleMetadata[c], perks, player, potionsByEffect)
    {
      if !event.actorIsPlayer {
        return;
      }
      if !HasKeyword(event.furnitureKeywords, alchemyKeyword) {
        return;
      }
      var todo := constructibleMetadata.Keys;
      if event.eventType == Enter {
        while todo != {}
          invariant todo <= constructibleMetadata.Keys
          invariant forall c :: c in constructibleMetadata && c !in todo ==>
            c.State() == EnterStep(old(c.State()), constructibleMetadata[c], perks, player, potionsByEffect)
          invariant forall c :: c in todo ==> c.State() == old(c.State())
          decreases todo
        {
          var cobj :| cobj in todo;
          EnterRecipe(cobj, player);
          todo := todo - {cobj};
        }
      } else {
        while todo != {}
          invariant todo <= constructibleMetadata.Keys
          invariant forall c :: c in constructibleMetadata && c !in todo ==> c.State() == ExitStep(old(c.State()))
          invariant forall c :: c in todo ==> c.State() == old(c.State())
          decreases todo
        {
          var cobj :| cobj in todo;
          cobj.playerCondition := Hidden;
          todo := todo - {cobj};
        }
      }
    }

    /** The keyword and perk lookups of start-up; it can go on only when every level perk resolved. */
    method ResolveForms(host: Host, config: Config) returns (ok: bool)
      modifies this`alchemyKeyword, this`levelKeywords, this`perks
      ensures alchemyKeyword == GlobalKeyword(host, AlchemyKeywordId)
      ensures levelKeywords == LevelKeywordsOf(host)
      ensures perks == ResolvePerks(config.perks, host.perkLookup)
      ensures ok <==> MandatoryResolved(perks)
    {
      alchemyKeyword := GlobalKeyword(host, AlchemyKeywordId);
      levelKeywords := LevelKeywordsOf(host);
      perks := ResolvePerks(config.perks, host.perkLookup);
      ok := !(perks.level2.None? || perks.level3.None? || perks.level4.None? || perks.level5.None?);
    }

    /** The part of start-up after the perk check: classification, index, lattice. */
    method Build(ingredients: seq<Option<Ingredient>>, kws: TierKeywords, cfg: IngrConfig, potions: seq<Option<Potion>>)
      returns (ghost recipes: seq<Cobj>, ghost order: seq<FormId>)
      requires Valid()
      modifies this`commonIngredients, this`uncommonIngredients, this`rareIngredients, this`potionsByEffect,
               this`constructibleMetadata, this`formArray
      ensures Valid()
      ensures commonIngredients == old(commonIngredients) + Tiered(ingredients, Common, kws, cfg)
      ensures uncommonIngredients == old(uncommonIngredients) + Tiered(ingredients, Uncommon, kws, cfg)
      ensures rareIngredients == old(rareIngredients) + Tiered(ingredients, Rare, kws, cfg)
      ensures potionsByEffect == Indexed(old(potionsByEffect), potions, levelKeywords)
      ensures Distinct(order) && forall e :: e in order <==> e in potionsByEffect
      ensures Built(old(constructibleMetadata), old(formArray), constructibleMetadata, formArray, alchemyKeyword, recipes,
                    LatticePlan(order, potionsByEffect, commonIngredients, uncommonIngredients, rareIngredients))
      ensures AllLattice(old(constructibleMetadata), constructibleMetadata, recipes,
                         potionsByEffect, commonIngredients, uncommonIngredients, rareIngredients)
      ensures old(commonIngredients) == [] && old(uncommonIngredients) == [] && old(rareIngredients) == [] ==>
        forall e :: e in potionsByEffect ==>
          PairsUnique(EffectPlan(e, potionsByEffect[e], commonIngredients, uncommonIngredients, rareIngredients))
    {
      ClassifyIngredients(ingredients, kws, cfg);
      StartupPairsUnique(ingredients, kws, cfg, old(commonIngredients), old(uncommonIngredients), old(rareIngredients),
                         commonIngredients, uncommonIngredients, rareIngredients);
      IndexPotions(potions);
      recipes, order := CreateLattice();
    }

    /**
     * Start-up: resolve the keywords and perks; stop when a level perk is
     * missing; otherwise classify the ingredients, index the potions and
     * build the recipe lattice. `ok` reports whether start-up ran through
     * to its last step, the registration of the furniture-event handler
     * with the host.
     */
    method Initialize(host: Host, config: Config)
      returns (ok: bool, ghost recipes: seq<Cobj>, ghost order: seq<FormId>)
      requires Valid()
      modifies this
      ensures Valid()
      ensures alchemyKeyword == GlobalKeyword(host, AlchemyKeywordId)
      ensures levelKeywords == LevelKeywordsOf(host)
      ensures perks == ResolvePerks(config.perks, host.perkLookup)
      ensures ok <==> MandatoryResolved(perks)
      ensures !ok ==> && commonIngredients == old(commonIngredients) && uncommonIngredients == old(uncommonIngredients)
                      && rareIngredients == old(rareIngredients) && potionsByEffect == old(potionsByEffect)
                      && recipes == [] && order == []
      ensures ok ==> && commonIngredients == old(commonIngredients) + Tiered(host.ingredients, Common, TierKeywordsOf(host), config.ingr)
                     && uncommonIngredients == old(uncommonIngredients) + Tiered(host.ingredients, Uncommon, TierKeywordsOf(host), config.ingr)
                     && rareIngredients == old(rareIngredients) + Tiered(host.ingredients, Rare, TierKeywordsOf(host), config.ingr)
                     && potionsByEffect == Indexed(old(potionsByEffect), host.potions, levelKeywords)
                     && Distinct(order) && (forall e :: e in order <==> e in potionsByEffect)
      ensures Built(old(constructibleMetadata), old(formArray), constructibleMetadata, formArray, alchemyKeyword, recipes,
                    LatticePlan(order, potionsByEffect, commonIngredients, uncommonIngredients, rareIngredients))
      ensures AllLattice(old(constructibleMetadata), constructibleMetadata, recipes,
                         potionsByEffect, commonIngredients, uncommonIngredients, rareIngredients)
      ensures ok && old(commonIngredients) == [] && old(uncommonIngredients) == [] && old(rareIngredients) == [] ==>
        forall e :: e in potionsByEffect ==>
          PairsUnique(EffectPlan(e, potionsByEffect[e], commonIngredients, uncommonIngredients, rareIngredients))
    {
      recipes, order := [], [];
      ok := ResolveForms(host, config);
      if !ok {
        assert formArray == formArray + recipes;
        return;
      }
      recipes, order := Build(host.ingredients, TierKeywordsOf(host), config.ingr, host.potions);
    }
  }
}
