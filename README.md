# Alchemy distributor — a Dafny model

This project models the core of an alchemy rework for a role-playing game.
The core lives in `src/Distributor.cpp`. At start-up it does five things:

- resolves the mod's keywords and the perks named in its configuration;
- sorts every ingredient into a common, uncommon or rare tier;
- indexes the craftable single-effect potions by effect into families of five levels;
- creates the recipe lattice, a two-ingredient recipe for every pair of tiers that gives a level;
- registers a handler for furniture events.

At an alchemy workbench the handler runs the access gate. On entering, each
recipe the player's level perks admit may produce twice as much (double-items perk).
It may be upgraded to a higher variant of its family (quality perks, clamped to the
highest level the player may craft). It is shown when the player has discovered the
potion's effect in both ingredients. On leaving, every recipe is hidden again.

Modules:

- `Wrappers`, `Forms` (forms.dfy): the optional handle and the host entities the core reads (ingredients, potions, form ids as unsigned 32-bit numbers).
- `PerkConfig` (perks.dfy): the `"<plugin>|<hex id>"` perk references and their resolution.
- `PotionFamilies` (families.dfy): the five-level families, the two level lookups, and the potion index as a function of the host's potion array.
- `Rarity` (rarity.dfy): the tier classifier and the optional renaming.
- `Knowledge` (knowledge.dfy): the known-effect bit test.
- `Pairing` (pairing.dfy): which ingredient pairs the recipe synthesizer turns into recipes, including the deduplication by the unsigned 32-bit sum of the two form ids.
- `AccessGate` (gate.dfy): what one Enter pass and one Exit pass do to one recipe, on values.
- `Distributor` (distributor.dfy): the mutable state.
  - `Cobj` is a recipe object whose produced item, quantity and head-condition value the gate rewrites.
  - `AlchemyDistributor` holds the resolved keywords and perks, the three tier sequences, the potion index, the recipe metadata map and the host's recipe array.
  - Start-up, the synthesizer, the lattice and the event handler are methods with loops, proved against the functions of the other modules.

Host services are inputs:

- the form lookups, the perk lookup and the form arrays are a `Host` value;
- the configuration is a `Config` value;
- the player's perks and the ingredients' known-effect flags at the time of an event are a `PlayerState`.

The map iteration order of the index and of the metadata is left open (`:|` over the remaining keys). So the proofs hold for every order.

Notes where the behaviour is easy to misread:

- `GetHigherLevelPotion` with a target of 0 or less returns the level 1 slot. The first branch covers every target up to 1.
- Renaming appends the tier's suffix on every run of start-up; it is not idempotent.
- The knowledge check reads the recipe's item after the upgrade. So it tests the effect of the new item (the same effect, since a family holds one effect).
- The recipe key is the sum of the two form ids modulo 2^32, as the code computes it. `Pairing.SumKeyDropsPair` shows two different pairs that share a key, where the second gets no recipe; `Pairing.PlanMembers` states which pair of a key wins (the first visited).
- The synthesizer's key set is local to one call. So within one effect, two rules never repeat a pair only because the three tiers are disjoint (`Distributor.EffectPlanPairsUnique`).

## Model

| member | source | states |
|---|---|---|
| `PerkConfig.ParsePerkRef` | src/Distributor.cpp:51-66 | an accepted reference splits at its first separator (a vertical bar) into a non-empty plugin name and a non-empty all-hex id, and the id is the hex value of the right side |
| `PerkConfig.ParseSplit` | src/Distributor.cpp:53-62 | conversely, every string of a plugin name, the separator and a hex id, with a non-empty, separator-free plugin name and a non-empty hex id is accepted and split into exactly those parts |
| `PerkConfig.HexRoundTrip` | src/Distributor.cpp:63-66 | reading back the hexadecimal spelling of any number gives the number |
| `PerkConfig.ParseFormatRoundTrip` | src/Distributor.cpp:51-67 | formatting a (plugin, id) reference and parsing it gives back the same plugin and id |
| `PerkConfig.LoadPerkFromConfig` | src/Distributor.cpp:51-68 | a perk resolves exactly when the string parses as a reference and the host's perk lookup holds that reference, and it is then the form the lookup gives; a string without a separator resolves to no perk |
| `PotionFamilies.GetHigherLevelPotion` | src/Distributor.cpp:90-117 | the result is the variant at the highest populated level not above the target, clamped to 1..5; it is absent exactly when every slot up to that bound is empty |
| `PotionFamilies.HigherLevelExample` | src/Distributor.cpp:90-117 | on a family with levels 1, 3 and 5: target 4 gives level 3, targets 2 and 0 give level 1, target 9 gives level 5, and a family with only level 3 has nothing for target 2 |
| `PotionFamilies.GetEarliestLevelPotion` | src/Distributor.cpp:70-88 | the result is the variant at the lowest populated level, with that level; it is absent exactly when the family is empty |
| `PotionFamilies.LevelOf` | src/Distributor.cpp:491-506 | a potion's level is the first of levels 1 to 5 whose tag it carries, and 0 when it carries none |
| `PotionFamilies.LastAt` | src/Distributor.cpp:479-515 | reference definition: the last potion of the array indexable at a given effect and level, absent exactly when there is none |
| `PotionFamilies.IndexedSlot` | src/Distributor.cpp:479-515 | after the index loop, each slot holds the last craftable single-effect potion tagged for it, and keeps its old content when there is none |
| `PotionFamilies.IndexedKeys` | src/Distributor.cpp:479-515 | the index gains an entry for an effect exactly when some indexable potion has that effect; an untagged potion creates none |
| `PotionFamilies.IndexedWellFormed` | src/Distributor.cpp:486-506 | every variant the index records has exactly its family's effect, because multi-effect potions are skipped |
| `PotionFamilies.Indexed` | src/Distributor.cpp:479-515 | indexing never drops a family already in the map |
| `Rarity.TierOf` | src/Distributor.cpp:439-469 | the common keyword wins; rare only when neither the common nor the uncommon keyword is present; everything else, untagged ingredients included, is uncommon |
| `Rarity.Renamed` | src/Distributor.cpp:441-468 | renaming changes only the display name, appending a space and the tier's suffix when renaming is on |
| `Rarity.TieredPartition` | src/Distributor.cpp:434-476 | the three tier sequences together hold every non-null ingredient exactly once (as multisets) |
| `Rarity.ClassifiedCount` | src/Distributor.cpp:434-476 | the classifier records one entry per non-null ingredient of the host array |
| `Rarity.TieredSound` | src/Distributor.cpp:434-476 | every entry of a tier sequence is a host ingredient of that tier, renamed for it |
| `Rarity.TieredComplete` | src/Distributor.cpp:434-476 | every non-null host ingredient appears in the sequence of its own tier |
| `Rarity.TieredDisjoint` | src/Distributor.cpp:434-476 | the sequences of two different tiers share no ingredient, because the classification loop appends each ingredient to one tier only |
| `Rarity.Tiered` | src/Distributor.cpp:434-476 | a tier sequence holds only ingredients of that tier, at most one per non-null entry of the host array |
| `Knowledge.HasKnownEffectInIngredient` | src/Distributor.cpp:119-134 | the result is true exactly when the effect occurs in the ingredient and the flag bit at its first position is set |
| `Knowledge.LearnEffect` | src/Distributor.cpp:119-134 | an effect the ingredient lacks is never known, whatever the flags; an effect it has but the player does not know becomes known once the bit at its first position is added to the flags |
| `Pairing.CandidatesLength` | src/Distributor.cpp:166-170 | the nested loop visits exactly (size of first) × (size of second) pairs |
| `Pairing.CandidatesMembers` | src/Distributor.cpp:166-170 | a pair is visited exactly when its first ingredient is in the first pool and its second in the second |
| `Pairing.RowPicksSelect` | src/Distributor.cpp:169-184 | the inner loop over one row selects what the selection over all pairs visited so far selects, and records the keys of the selection |
| `Pairing.SelectFrom` | src/Distributor.cpp:166-184 | the selection has no more pairs than were visited, each of them visited |
| `Pairing.SelectNoSelfPairs` | src/Distributor.cpp:171-173 | no selected pair repeats an ingredient |
| `Pairing.SelectDistinctKeys` | src/Distributor.cpp:178-182 | no two selected pairs share a sum key |
| `Pairing.SelectCovers` | src/Distributor.cpp:171-182 | the key of every visited non-self pair is among the keys of the selection |
| `Pairing.Select` | src/Distributor.cpp:166-184 | the selection is no longer than the sequence of visited pairs |
| `Pairing.SelectKeys` | src/Distributor.cpp:171-182 | the keys the selection has used are exactly the keys of the visited non-self pairs |
| `Pairing.SelectFirsts` | src/Distributor.cpp:166-184 | over every prefix of the visited pairs, the selection is the reference: the pairs that are the first non-self pair of their key, in visiting order (so the first pair of each key is kept, and order is kept) |
| `Pairing.FirstsUpToMembers` | src/Distributor.cpp:171-182 | a pair is in the reference exactly when it is visited at a position where it is no self-pair and no earlier non-self pair shares its key |
| `Pairing.Plan` | src/Distributor.cpp:158-229 | the pairs one call creates recipes for are the reference selection over the visited pairs (first non-self pair of each key, in visiting order), at most (size of first) × (size of second) of them |
| `Pairing.PlanMembers` | src/Distributor.cpp:158-229 | a pair gets a recipe exactly when the nested loop visits it at a position where it is no self-pair and no earlier non-self pair had its key |
| `Pairing.PlanProperties` | src/Distributor.cpp:158-229 | the planned pairs come from the pools and are no self-pairs; their keys are distinct; no pair occurs twice or also reversed (so common + common yields no duplicate); every key of a non-self pair is covered |
| `Pairing.SumKeyDropsPair` | src/Distributor.cpp:177-182 | ingredients 1 and 2 against 4 and 3 visit (2, 3) after (1, 4) with the same key 5, so (2, 3) gets no recipe in either order |
| `Pairing.SumKeySymmetric` | src/Distributor.cpp:175-178 | the key does not depend on the order of the two ingredients, and it is the id sum less 2^32 when the sum overflows 32 bits |
| `AccessGate.MaxAllowedPotionLevel` | src/Distributor.cpp:269-282 | the allowed level is between 1 and 5; when at least 2 the player holds that level's perk, and the player holds no perk of a higher level |
| `AccessGate.QualityBoost` | src/Distributor.cpp:302-312 | the boost is at most 2, and 2 only with the all-quality perk (the potion and poison perks exclude each other) |
| `AccessGate.BoostedLevel` | src/Distributor.cpp:315-318 | the boosted level is the sum or the cap, whichever is smaller |
| `AccessGate.PassesMinLevelGate` | src/Distributor.cpp:284-296 | a recipe passes exactly when its minimum level is outside 2..5 or the player holds that level's perk |
| `AccessGate.UpgradedItem` | src/Distributor.cpp:302-327 | the item is replaced only when the boosted level exceeds the recipe's minimum, the effect has a family and the higher-level lookup finds a variant, and then it is replaced by exactly that variant; without a quality boost that applies the item is kept; a replacement is a variant of the family at a level the player may craft |
| `AccessGate.EnterStep` | src/Distributor.cpp:261-339 | a recipe outside the gate is untouched; a visible recipe stays visible; a hidden one becomes visible only when the player knows the new item's effect in both ingredients; the quantity is kept or becomes 2 |
| `AccessGate.EnterFields` | src/Distributor.cpp:298-338 | for a recipe that passes the level gate: the quantity is 2 under the double-items perk (even when the recipe stays hidden) and kept otherwise; the produced item changes only to the variant the higher-level lookup returns at the boosted level; the recipe is visible afterwards exactly when it was before or the player knows the effect of the item it now produces in both ingredients |
| `AccessGate.KnowledgeGate` | src/Distributor.cpp:330-333 | a recipe whose effect the player has not found in both ingredients keeps its visibility, whatever perks are held |
| `AccessGate.UpgradeStaysInFamily` | src/Distributor.cpp:314-327 | when the recipe's own level is populated: a boost that lifts the level above the minimum always upgrades, to the variant at the highest populated level not above the boosted level and never below the recipe's own; a boost that does not lift it keeps the item |
| `AccessGate.NoBoostKeepsItem` | src/Distributor.cpp:302-314 | without a quality perk that applies, the produced item is kept |
| `AccessGate.BoostClampExample` | src/Distributor.cpp:314-327 | a level 2 potion recipe with two quality perks and level 3 as the highest allowed gets the level 3 variant, not level 4 |
| `AccessGate.UpgradeFixpoint` | src/Distributor.cpp:314-327 | upgrading an upgraded item changes nothing, provided the family's variants share the item's kind |
| `AccessGate.EnterIdempotent` | src/Distributor.cpp:261-339 | a second Enter pass with the same perks and knowledge changes nothing (under the same-kind assumption) |
| `AccessGate.ExitDominates` | src/Distributor.cpp:341-347 | after Exit a recipe is hidden whatever Enter computed, and Exit touches only the visibility |
| `Distributor.PluginKeyword` | src/Distributor.cpp:358-368 | a plugin keyword resolves exactly when the plugin defines the local id, and then to the form the host's lookup gives for that plugin and id |
| `Distributor.GlobalKeyword` | src/Distributor.cpp:357 | the alchemy keyword resolves to its global id exactly when the host knows that id |
| `Distributor.IngredientHasEffect` | src/Distributor.cpp:531-538 | the filter holds exactly when the effect is among the ingredient's effects |
| `Distributor.WithEffect` | src/Distributor.cpp:540-550 | the filtered pool holds exactly the pool's ingredients that have the effect, and is no longer than the pool |
| `Distributor.FilterByEffect` | src/Distributor.cpp:540-550 | the copy loop computes the filtered pool, in pool order |
| `Distributor.RulePlanSound` | src/Distributor.cpp:560-576 | every recipe of a rule uses the rule's variant and level and two distinct ingredients from the rule's pools |
| `Distributor.EffectPlanSound` | src/Distributor.cpp:552-576 | every recipe planned for an indexed effect produces that effect's variant at its level, from two distinct ingredients that have the effect, drawn from the tiers the level's rule names (1: C+C, 2: C+U, 3: C+R or U+U, 4: U+R, 5: R+R), starting hidden and producing one |
| `Distributor.RulePlanLength` | src/Distributor.cpp:560-576 | a rule plans at most one recipe per visited pair, and none when the family has no variant at its level |
| `Distributor.EffectPlan` | src/Distributor.cpp:552-576 | an effect with an empty family gets no recipes; the number of its recipes is at most the sum of the six rules' products of filtered pool sizes |
| `Distributor.RulePairsUnique` | src/Distributor.cpp:166-181 | one rule never pairs the same two ingredients twice, in either order |
| `Distributor.EffectPlanPairsUnique` | src/Distributor.cpp:552-576 | when the three tiers are disjoint, no two recipes of one effect's six rules pair the same two ingredients, in either order; the synthesizer's key set only deduplicates within one call, so across rules this rests on each rule drawing on a different pair of tiers |
| `Distributor.ClassifiedPairsUnique` | src/Distributor.cpp:434-476 | for tiers built by the classification loop, every effect's plan pairs no two ingredients twice |
| `Distributor.StartupPairsUnique` | src/Distributor.cpp:434-576 | when start-up fills empty tiers, the plan of every effect, for any family, pairs no two ingredients twice |
| `Distributor.LatticePlanSound` | src/Distributor.cpp:521-577 | every recipe in the concatenated plans of indexed effects, in any order of effects, is a lattice recipe |
| `Distributor.EventStep` | src/Distributor.cpp:239-350 | another actor or other furniture changes nothing; the player's Exit at an alchemy bench hides the recipe and changes nothing else; the player's Enter at an alchemy bench leaves a recipe that fails the level gate unchanged, and otherwise shows it when the player knows its produced item's effect in both ingredients and sets the quantity to 2 under the double-items perk; Enter never hides a visible recipe |
| `Distributor.Cobj.constructor` | src/Distributor.cpp:183-217 | a new recipe uses the alchemy bench, requires one of each ingredient, has the two item-count conditions in chain order, produces one potion and is hidden |
| `Distributor.AlchemyDistributor.constructor` | src/Distributor.cpp:29-48 | before start-up no keyword, level keyword or perk is resolved and every collection is empty |
| `Distributor.AlchemyDistributor.ClassifyIngredients` | src/Distributor.cpp:434-476 | each tier sequence grows by exactly the host ingredients of that tier, in host order, renamed when configured |
| `Distributor.AlchemyDistributor.IndexPotions` | src/Distributor.cpp:479-515 | the index becomes the index function of the host's potion array and stays well formed |
| `Distributor.AlchemyDistributor.AddRecipe` | src/Distributor.cpp:182-224 | one fresh recipe for the pair, recorded in the metadata with both levels and ingredients, and appended to the host array |
| `Distributor.AlchemyDistributor.VisitRow` | src/Distributor.cpp:169-226 | the inner loop creates, in order, one new hidden recipe producing one potion for each pair the selection adds for this row, and returns the keys used so far |
| `Distributor.AlchemyDistributor.CreateRecipes` | src/Distributor.cpp:158-229 | one call creates exactly one new recipe per planned pair, in visiting order; each is recorded with its levels and ingredients, produces one potion and is hidden; existing metadata is kept and the host array only grows by these |
| `Distributor.AlchemyDistributor.ApplyRule` | src/Distributor.cpp:560-576 | a rule creates recipes for its plan only when the family has a variant at its level, otherwise none |
| `Distributor.AlchemyDistributor.CreateEffectRecipes` | src/Distributor.cpp:521-577 | one effect gets exactly the recipes of its six rules, in the lattice's order, over the parts of the pools that have the effect |
| `Distributor.AlchemyDistributor.CreateLattice` | src/Distributor.cpp:521-577 | the created recipes are, one for one and in creation order, the plans of the indexed effects concatenated in a visiting order that lists every indexed effect exactly once (which order is left open); they are distinct, new, registered and lattice recipes |
| `Distributor.AlchemyDistributor.HasKnownEffectInIngredients` | src/Distributor.cpp:136-156 | true exactly when the recipe is registered and the player knows its current item's effect in both of its ingredients |
| `Distributor.AlchemyDistributor.MaxLevelFor` | src/Distributor.cpp:269-282 | the perk checks compute the allowed level of the gate |
| `Distributor.AlchemyDistributor.UpgradeFor` | src/Distributor.cpp:302-327 | the boost, the clamp and the family lookup compute the upgraded item of the gate |
| `Distributor.AlchemyDistributor.EnterRecipe` | src/Distributor.cpp:262-339 | one recipe's turn in an Enter pass leaves it in the state of the Enter rule |
| `Distributor.AlchemyDistributor.ProcessEvent` | src/Distributor.cpp:239-350 | every registered recipe ends in the state the event rule gives it: unchanged for another actor or other furniture, Enter's result on entering, hidden on leaving |
| `Distributor.AlchemyDistributor.ResolveForms` | src/Distributor.cpp:354-395 | the keywords and the eight perks resolve through the host lookups, and start-up can go on exactly when all four level perks resolved |
| `Distributor.AlchemyDistributor.Build` | src/Distributor.cpp:433-577 | classification, index and lattice in that order, with each phase's result as above: the tiers and the index as computed from the host arrays, and the recipes exactly the concatenated plans of the indexed effects; when the tiers start empty, no indexed effect's plan pairs the same two ingredients twice |
| `Distributor.AlchemyDistributor.Initialize` | src/Distributor.cpp:354-587 | the keywords and perks resolve; a missing level perk stops start-up with the tiers, the index and the recipes untouched and no recipe created; otherwise the tiers, the index and the lattice are as above, and `ok` reports that the handler registration was reached; a start-up from empty tiers gives each indexed effect recipes that never pair the same two ingredients twice |

## Left out

- Logging, the configuration reader (Config.h) and the event-source plumbing are not modelled. The configuration is an input value, and the handler registration (lines 583-584) is the `ok` result of `Initialize`.
- The loop that changes the bench type of alchemy furniture (lines 426-431) is not modelled; it writes only host furniture data that nothing in the core reads.
- PerkConfig.LoadPerkFromConfig: a right side that is not all hexadecimal digits resolves to no perk, and an id beyond 32 bits is looked up unreduced. The code reads the id through a string stream, whose result on such input is not modelled.
- Distributor.AlchemyDistributor.CreateRecipes: the form factory is assumed to succeed; a failing factory (`obj` null) would still record the key without creating a recipe.
- The condition items are reduced to what the gate uses: the head condition's comparison value (0.0 hidden, 1.0 visible) and the ingredients of the two item-count conditions. Their function ids, operators and the player reference are not modelled, and neither is any other floating-point value.
- Knowledge.HasKnownEffectInIngredient: `1 << index` is modelled as a power of two on unbounded integers; the 32-bit shift differs only for an effect at position 31 or beyond, which the game's four-effect ingredients never have.
- A potion with no effects would make the code read `effects[0]` out of range; the model skips such a recipe in the gate and requires an effect in `UpgradeFor`.
- The null checks on a recipe's two ingredient handles in its metadata (line 141) are not modelled: the metadata holds ingredients as values, never null. Null entries of the host's ingredient and potion arrays are modelled, as the `None` entries of `Host.ingredients` and `Host.potions`, and are skipped as the code skips them (lines 435-437 and 480-482).
- Object identity of ingredients and potions (the code compares addresses) is modelled as value equality.
- Renaming is modelled on the copies in the tier sequences. The host's own ingredient records, which the code renames in place, are not part of the model.
- AccessGate.EnterIdempotent: proved only when every variant of the family has the item's poison flag (`SameKindAs`). Otherwise the potion and poison quality perks can give a different boost the second time.
- PotionFamilies.GetEarliestLevelPotion: modelled although start-up no longer calls it; its only call is commented out.
- Distributor.AlchemyDistributor.Build: the promise that no effect gets the same ingredient pair twice is stated only when start-up begins from empty tiers, as after the constructor. Tiers filled by an earlier run could hold one ingredient in two tiers, and then two rules could pair it the same way.
