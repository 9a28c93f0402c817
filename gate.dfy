/**
 * The access gate's per-recipe rules, on values: what one Enter pass and one
 * Exit pass do to a recipe's produced item, quantity and visibility.
 */
module AccessGate {
  import opened Wrappers
  import opened Forms
  import opened PerkConfig
  import opened PotionFamilies
  import opened Knowledge

  /** The value of a recipe's head (player) condition: 0.0 hides the recipe, 1.0 shows it. */
  datatype Visibility = Hidden | Visible

  /** The sidecar record kept for each created recipe. */
  datatype CobjMetadata = CobjMetadata(targetIngredientLevel: int, potionMinLevel: int, ingr1: Ingredient, ingr2: Ingredient)

  /** The mutable part of a recipe: produced item, quantity produced, head condition value. */
  datatype CobjState = CobjState(createdItem: Potion, numConstructed: int, playerCondition: Visibility)

  /** What the gate reads from the host when an event arrives: the player's perks and the ingredients' known-effect flags. */
  datatype PlayerState = PlayerState(perks: set<FormId>, knownEffectFlags: map<FormId, nat>)

  /** The player holds a perk whose handle may be null (a null handle is never held). */
  predicate HasPerk(player: PlayerState, p: Option<FormId>)
  {
    p.Some? && p.value in player.perks
  }

  /**
   * The highest level whose gating perk the player holds, or 1 when none is
   * held (the checks run from 2 to 5 and the last one held wins).
   */
  function MaxAllowedPotionLevel(perks: Perks, player: PlayerState): (m: int)
    ensures 1 <= m <= 5
    ensures m >= 2 ==> HasPerk(player, LevelPerk(perks, m))
    ensures forall j :: m < j <= 5 ==> !HasPerk(player, LevelPerk(perks, j))
  {
    var m1 := 1;
    var m2 := if HasPerk(player, perks.level2) then 2 else m1;
    var m3 := if HasPerk(player, perks.level3) then 3 else m2;
    var m4 := if HasPerk(player, perks.level4) then 4 else m3;
    if HasPerk(player, perks.level5) then 5 else m4
  }

  /** A recipe of level 2 to 5 needs exactly that level's perk; a level 1 recipe needs none. */
  predicate PassesMinLevelGate(potionMinLevel: int, perks: Perks, player: PlayerState): (b: bool)
    ensures b <==> (2 <= potionMinLevel <= 5 ==> HasPerk(player, LevelPerk(perks, potionMinLevel)))
  {
    !(potionMinLevel == 2 && !HasPerk(player, perks.level2)) &&
    !(potionMinLevel == 3 && !HasPerk(player, perks.level3)) &&
    !(potionMinLevel == 4 && !HasPerk(player, perks.level4)) &&
    !(potionMinLevel == 5 && !HasPerk(player, perks.level5))
  }

  /** +1 for the potion-quality perk on a potion, +1 for the poison-quality perk on a poison, +1 for the all-quality perk. */
  function QualityBoost(perks: Perks, player: PlayerState, isPoison: bool): (n: int)
    ensures 0 <= n <= 2
    ensures n == 2 ==> HasPerk(player, perks.allQuality)
  {
    (if HasPerk(player, perks.potionQuality) && !isPoison then 1 else 0) +
    (if HasPerk(player, perks.poisonQuality) && isPoison then 1 else 0) +
    (if HasPerk(player, perks.allQuality) then 1 else 0)
  }

  /** The boosted level, clamped to the highest level allowed. */
  function BoostedLevel(potionMinLevel: int, boost: int, maxAllowed: int): (l: int)
    ensures l <= potionMinLevel + boost && l <= maxAllowed
    ensures l == potionMinLevel + boost || l == maxAllowed
  {
    if potionMinLevel + boost > maxAllowed then maxAllowed else potionMinLevel + boost
  }

  /**
   * The produced item after the quality boost: with a positive boost that
   * raises the level above the recipe's minimum, and a family for the
   * item's effect, the highest variant at or below the boosted level
   * replaces it, when there is one.
   */
  function UpgradedItem(item: Potion, potionMinLevel: int, perks: Perks, player: PlayerState,
                        families: map<FormId, Family>): (r: Potion)
    requires |item.effects| > 0
    ensures QualityBoost(perks, player, item.isPoison) == 0 ==> r == item
    ensures r == item || (item.effects[0] in families &&
      exists l :: 1 <= l <= MaxAllowedPotionLevel(perks, player) && Slot(families[item.effects[0]], l) == Some(r))
    ensures var newLevel := BoostedLevel(potionMinLevel, QualityBoost(perks, player, item.isPoison),
                                         MaxAllowedPotionLevel(perks, player));
      r != item ==> newLevel > potionMinLevel && item.effects[0] in families &&
                    GetHigherLevelPotion(families[item.effects[0]], newLevel) == Some(r)
    ensures var newLevel := BoostedLevel(potionMinLevel, QualityBoost(perks, player, item.isPoison),
                                         MaxAllowedPotionLevel(perks, player));
      newLevel > potionMinLevel && item.effects[0] in families &&
      GetHigherLevelPotion(families[item.effects[0]], newLevel).Some? ==>
        r == GetHigherLevelPotion(families[item.effects[0]], newLevel).value
  {
    var boost := QualityBoost(perks, player, item.isPoison);
    if boost <= 0 then item
    else
      var newLevel := BoostedLevel(potionMinLevel, boost, MaxAllowedPotionLevel(perks, player));
      var effect := item.effects[0];
      if effect in families && newLevel > potionMinLevel then
        match GetHigherLevelPotion(families[effect], newLevel)
        case Some(p) => p
        case None => item
      else item
  }

  /** The player knows the effect of the produced item in both ingredients of the recipe. */
  predicate KnowsBoth(md: CobjMetadata, item: Potion, player: PlayerState)
  {
    |item.effects| > 0 &&
    KnowsEffect(md.ingr1, item.effects[0], FlagsOf(player.knownEffectFlags, md.ingr1.id)) &&
    KnowsEffect(md.ingr2, item.effects[0], FlagsOf(player.knownEffectFlags, md.ingr2.id))
  }

  /** The recipe is evaluated in an Enter pass: its item has an effect and the minimum-level gate passes. */
  predicate Evaluated(s: CobjState, md: CobjMetadata, perks: Perks, player: PlayerState)
  {
    |s.createdItem.effects| > 0 && PassesMinLevelGate(md.potionMinLevel, perks, player)
  }

  /**
   * One recipe's Enter pass. A recipe that is not evaluated is left as it
   * was. Otherwise the quantity becomes 2 under the double-items perk, the
   * item is upgraded, and the recipe is shown when the player knows the new
   * item's effect in both ingredients; a failed knowledge check leaves the
   * visibility as it was.
   */
  function EnterStep(s: CobjState, md: CobjMetadata, perks: Perks, player: PlayerState,
                     families: map<FormId, Family>): (r: CobjState)
    ensures !Evaluated(s, md, perks, player) ==> r == s
    ensures s.playerCondition == Visible ==> r.playerCondition == Visible
    ensures s.playerCondition == Hidden && r.playerCondition == Visible ==> KnowsBoth(md, r.createdItem, player)
    ensures r.numConstructed == s.numConstructed || r.numConstructed == 2
  {
    if !Evaluated(s, md, perks, player) then s
    else
      var qty := if HasPerk(player, perks.doubleItems) then 2 else s.numConstructed;
      var item := UpgradedItem(s.createdItem, md.potionMinLevel, perks, player, families);
      var cond := if KnowsBoth(md, item, player) then Visible else s.playerCondition;
      CobjState(item, qty, cond)
  }

  /** One recipe's Exit pass: hidden again. */
  function ExitStep(s: CobjState): CobjState
  {
    s.(playerCondition := Hidden)
  }

  /**
   * What Enter does to each field, in the order the source promises it: the
   * quantity is 2 under the double-items perk, even for a recipe that stays
   * hidden, and is never set back to 1; the item changes only to the variant
   * the higher-level lookup finds at the boosted level; and the recipe is
   * visible afterwards exactly when it was before or the player knows the
   * effect of the item it now produces in both ingredients.
   */
  lemma EnterFields(s: CobjState, md: CobjMetadata, perks: Perks, player: PlayerState, families: map<FormId, Family>)
    requires Evaluated(s, md, perks, player)
    ensures var r := EnterStep(s, md, perks, player, families);
      && (HasPerk(player, perks.doubleItems) ==> r.numConstructed == 2)
      && (!HasPerk(player, perks.doubleItems) ==> r.numConstructed == s.numConstructed)
      && (r.createdItem != s.createdItem ==>
            s.createdItem.effects[0] in families &&
            GetHigherLevelPotion(families[s.createdItem.effects[0]],
              BoostedLevel(md.potionMinLevel, QualityBoost(perks, player, s.createdItem.isPoison),
                           MaxAllowedPotionLevel(perks, player))) == Some(r.createdItem))
      && (r.playerCondition == Visible <==> s.playerCondition == Visible || KnowsBoth(md, r.createdItem, player))
  {
    var item := UpgradedItem(s.createdItem, md.potionMinLevel, perks, player, families);
    assert EnterStep(s, md, perks, player, families).createdItem == item;
  }

  /**
   * A recipe whose ingredients' effect the player has not discovered keeps
   * its visibility, whatever perks are held: a hidden one stays hidden.
   */
  lemma KnowledgeGate(s: CobjState, md: CobjMetadata, perks: Perks, player: PlayerState, families: map<FormId, Family>)
    requires !KnowsBoth(md, EnterStep(s, md, perks, player, families).createdItem, player)
    ensures EnterStep(s, md, perks, player, families).playerCondition == s.playerCondition
  {
  }

  /**
   * When the recipe's own level is populated in the family of the item's
   * effect: a boost that lifts the level above the recipe's minimum always
   * upgrades, to the variant at the highest populated level not above the
   * boosted level, never below the recipe's own; otherwise the item is kept.
   */
  lemma UpgradeStaysInFamily(item: Potion, potionMinLevel: int, perks: Perks, player: PlayerState,
                             families: map<FormId, Family>)
    requires |item.effects| > 0
    requires item.effects[0] in families && 1 <= potionMinLevel <= 5
    requires Slot(families[item.effects[0]], potionMinLevel).Some?
    ensures var r := UpgradedItem(item, potionMinLevel, perks, player, families);
      var boost := QualityBoost(perks, player, item.isPoison);
      var newLevel := BoostedLevel(potionMinLevel, boost, MaxAllowedPotionLevel(perks, player));
      && (newLevel <= potionMinLevel ==> r == item)
      && (newLevel > potionMinLevel ==>
            exists l :: (potionMinLevel <= l <= newLevel && Slot(families[item.effects[0]], l) == Some(r) &&
              forall m :: l < m <= newLevel ==> Slot(families[item.effects[0]], m).None?))
  {
    var f := families[item.effects[0]];
    var boost := QualityBoost(perks, player, item.isPoison);
    var newLevel := BoostedLevel(potionMinLevel, boost, MaxAllowedPotionLevel(perks, player));
    var r := UpgradedItem(item, potionMinLevel, perks, player, families);
    if newLevel > potionMinLevel {
      var g := GetHigherLevelPotion(f, newLevel);
      assert newLevel <= 5 && SearchBound(newLevel) == newLevel;
      assert g.Some? by {
        assert 1 <= potionMinLevel <= SearchBound(newLevel) && Slot(f, potionMinLevel).Some?;
      }
      assert g == Some(r);
      var l :| 1 <= l <= newLevel && Slot(f, l) == g && forall m :: l < m <= newLevel ==> Slot(f, m).None?;
      assert potionMinLevel <= l;
    }
  }

  /** Without a quality perk that applies, the produced item is kept, even an earlier upgrade. */
  lemma NoBoostKeepsItem(item: Potion, potionMinLevel: int, perks: Perks, player: PlayerState,
                         families: map<FormId, Family>)
    requires |item.effects| > 0
    requires QualityBoost(perks, player, item.isPoison) == 0
    ensures UpgradedItem(item, potionMinLevel, perks, player, families) == item
  {
  }

  /**
   * The clamp: a level 2 recipe, a player allowed up to level 3 and two
   * quality perks that apply gets the level 3 variant, not level 4.
   */
  lemma BoostClampExample(item: Potion, perks: Perks, player: PlayerState, families: map<FormId, Family>,
                          p3: Potion, p4: Potion)
    requires |item.effects| > 0 && !item.isPoison
    requires HasPerk(player, perks.level2) && HasPerk(player, perks.level3)
    requires !HasPerk(player, perks.level4) && !HasPerk(player, perks.level5)
    requires HasPerk(player, perks.potionQuality) && HasPerk(player, perks.allQuality)
    requires item.effects[0] in families
    requires families[item.effects[0]].level3 == Some(p3) && families[item.effects[0]].level4 == Some(p4)
    ensures UpgradedItem(item, 2, perks, player, families) == p3
  {
    assert MaxAllowedPotionLevel(perks, player) == 3;
    assert QualityBoost(perks, player, item.isPoison) == 2;
  }

  /** Every variant in the family of the item's effect is a poison exactly when the item is. */
  ghost predicate SameKindAs(families: map<FormId, Family>, item: Potion)
  {
    |item.effects| > 0 && item.effects[0] in families ==>
      forall l :: Slot(families[item.effects[0]], l).Some? ==>
        Slot(families[item.effects[0]], l).value.isPoison == item.isPoison
  }

  /** An upgraded item is a fixpoint of the upgrade. */
  lemma UpgradeFixpoint(item: Potion, potionMinLevel: int, perks: Perks, player: PlayerState,
                        families: map<FormId, Family>)
    requires |item.effects| > 0
    requires WellFormed(families) && SameKindAs(families, item)
    ensures var up := UpgradedItem(item, potionMinLevel, perks, player, families);
      |up.effects| > 0 && UpgradedItem(up, potionMinLevel, perks, player, families) == up
  {
    var up := UpgradedItem(item, potionMinLevel, perks, player, families);
    if up != item {
      var e := item.effects[0];
      var f := families[e];
      var newLevel := BoostedLevel(potionMinLevel, QualityBoost(perks, player, item.isPoison),
                                   MaxAllowedPotionLevel(perks, player));
      assert GetHigherLevelPotion(f, newLevel) == Some(up);
      var l :| 1 <= l <= SearchBound(newLevel) && Slot(f, l) == Some(up);
      assert up.effects == [e];
      assert up.isPoison == item.isPoison;
    }
  }

  /**
   * A second Enter pass with the same perks and knowledge changes nothing,
   * provided every variant in the index has its family's effect and the
   * item's kind.
   */
  lemma EnterIdempotent(s: CobjState, md: CobjMetadata, perks: Perks, player: PlayerState,
                        families: map<FormId, Family>)
    requires WellFormed(families) && SameKindAs(families, s.createdItem)
    ensures var once := EnterStep(s, md, perks, player, families);
      EnterStep(once, md, perks, player, families) == once
  {
    if Evaluated(s, md, perks, player) {
      UpgradeFixpoint(s.createdItem, md.potionMinLevel, perks, player, families);
    }
  }

  /** After Exit the recipe is hidden, whatever Enter computed before. */
  lemma ExitDominates(s: CobjState, md: CobjMetadata, perks: Perks, player: PlayerState, families: map<FormId, Family>)
    ensures ExitStep(EnterStep(s, md, perks, player, families)).playerCondition == Hidden
    ensures ExitStep(s).createdItem == s.createdItem && ExitStep(s).numConstructed == s.numConstructed
  {
  }
}
