/** The conventional optional value, standing in for a possibly-null host handle. */
module Wrappers {
  datatype Option<+T> = None | Some(value: T)
}

/**
 * The host entities the distributor reads, abstracted to identifiers and the
 * few attributes it consults. The host owns all of them; the distributor only
 * classifies them and (optionally) renames ingredients.
 */
module Forms {
  import opened Wrappers

  /** A host form identifier: an unsigned 32-bit number. */
  type FormId = x: int | 0 <= x < 0x1_0000_0000

  /** The modulus of unsigned 32-bit arithmetic. */
  const U32Modulus: int := 0x1_0000_0000

  /**
   * An ingredient: its form id, its keywords, the base effects of its
   * (usually four) magic effects in order, and its display name.
   */
  datatype Ingredient = Ingredient(id: FormId, keywords: set<FormId>, effects: seq<FormId>, fullName: string)

  /** A potion or poison: form id, keywords, base effects in order, poison flag. */
  datatype Potion = Potion(id: FormId, keywords: set<FormId>, effects: seq<FormId>, isPoison: bool)

  /** A keyword test with a keyword handle that may be null: a null handle matches nothing. */
  predicate HasKeyword(keywords: set<FormId>, k: Option<FormId>)
  {
    k.Some? && k.value in keywords
  }

  /** The ingredient carries `effect` among its magic effects. */
  predicate HasEffect(ingr: Ingredient, effect: FormId)
  {
    effect in ingr.effects
  }

  /** The first position of `x` in `s`, or -1 when `x` does not occur. */
  function IndexOf<T(==)>(s: seq<T>, x: T): (i: int)
    ensures -1 <= i < |s|
    ensures i == -1 <==> x !in s
    ensures 0 <= i ==> s[i] == x && x !in s[..i]
  {
    if s == [] then -1
    else if s[0] == x then 0
    else
      var k := IndexOf(s[1..], x);
      if k < 0 then -1
      else
        assert s[..k + 1] == [s[0]] + s[1..][..k];
        k + 1
  }
}
