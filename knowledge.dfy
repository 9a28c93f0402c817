/**
 * Whether the player has discovered an effect in an ingredient: the bit at
 * the effect's first position among the ingredient's effects must be set in
 * the ingredient's known-effect flags.
 */
module Knowledge {
  import opened Forms

  function Pow2(n: nat): (p: nat)
    ensures p >= 1
  {
    if n == 0 then 1 else 2 * Pow2(n - 1)
  }

  /** Bit `i` of `flags`, the test `(flags & (1 << i)) != 0`. */
  predicate BitSet(flags: nat, i: nat)
  {
    (flags / Pow2(i)) % 2 == 1
  }

  /** The known-effect flags the host holds for an ingredient; none recorded reads as 0. */
  function FlagsOf(knownEffectFlags: map<FormId, nat>, id: FormId): nat
  {
    if id in knownEffectFlags then knownEffectFlags[id] else 0
  }

  /** The player knows `effect` in `item`: the item has it, and its flag bit is set. */
  predicate KnowsEffect(item: Ingredient, effect: FormId, flags: nat)
  {
    var index := IndexOf(item.effects, effect);
    index >= 0 && BitSet(flags, index)
  }

  lemma DivAddDivisor(x: nat, p: nat)
    requires p >= 1
    ensures (x + p) / p == x / p + 1
  {
    var q, r := x / p, x % p;
    var d := (x + p) / p - q - 1;
    assert d * p == r - (x + p) % p by {
      assert (x + p) / p * p + (x + p) % p == x + p == q * p + r + p;
      assert d * p == (x + p) / p * p - q * p - p;
    }
    assert d >= 1 ==> d * p >= p;
    assert d <= -1 ==> d * p + p <= 0;
  }

  /**
   * Discovering an effect sets its flag bit: an effect the item has, not yet
   * known, is known once the bit at its first position is added to the
   * flags. An effect the item lacks is never known, whatever the flags.
   */
  lemma LearnEffect(item: Ingredient, effect: FormId, flags: nat)
    ensures effect !in item.effects ==> !KnowsEffect(item, effect, flags)
    ensures var i := IndexOf(item.effects, effect);
      effect in item.effects && !KnowsEffect(item, effect, flags) ==> KnowsEffect(item, effect, flags + Pow2(i))
  {
    var i := IndexOf(item.effects, effect);
    if effect in item.effects {
      DivAddDivisor(flags, Pow2(i));
    }
  }

  /** The search for the effect's first position, then the bit test. */
  method HasKnownEffectInIngredient(effect: FormId, item: Ingredient, knownEffectFlags: nat) returns (known: bool)
    ensures known == KnowsEffect(item, effect, knownEffectFlags)
  {
    var index := -1;
    for i := 0 to |item.effects|
      invariant index == -1
      invariant effect !in item.effects[..i]
    {
      if item.effects[i] == effect {
        index := i;
        break;
      }
    }
    if index < 0 {
      return false;
    }
    assert index == IndexOf(item.effects, effect) by {
      var j := IndexOf(item.effects, effect);
      assert item.effects[..index + 1][index] == effect;
      assert j <= index;
    }
    known := (knownEffectFlags / Pow2(index)) % 2 == 1;
  }
}
