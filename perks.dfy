/**
 * Perk references in the configuration: strings of the form "<mod>|<hex>",
 * naming a perk by its plugin file and its hexadecimal local form id.
 */
module PerkConfig {
  import opened Wrappers
  import opened Forms

  predicate IsHexDigit(c: char)
  {
    '0' <= c <= '9' || 'a' <= c <= 'f' || 'A' <= c <= 'F'
  }

  function HexDigitValue(c: char): (v: nat)
    requires IsHexDigit(c)
    ensures v < 16
  {
    if '0' <= c <= '9' then c as int - '0' as int
    else if 'a' <= c <= 'f' then c as int - 'a' as int + 10
    else c as int - 'A' as int + 10
  }

  /** The lower-case digit for a value below 16. */
  function HexDigit(v: nat): (c: char)
    requires v < 16
    ensures IsHexDigit(c) && HexDigitValue(c) == v
  {
    if v < 10 then ('0' as int + v) as char else ('a' as int + v - 10) as char
  }

  predicate AllHex(s: string)
  {
    forall i :: 0 <= i < |s| ==> IsHexDigit(s[i])
  }

  /** The number a string of hexadecimal digits denotes, most significant digit first. */
  function HexValue(s: string): nat
    requires AllHex(s)
  {
    if s == [] then 0 else 16 * HexValue(s[..|s| - 1]) + HexDigitValue(s[|s| - 1])
  }

  /** The hexadecimal spelling of a number, as a configuration file would hold it. */
  function ToHex(n: nat): (s: string)
    ensures AllHex(s) && s != []
  {
    if n < 16 then [HexDigit(n)] else ToHex(n / 16) + [HexDigit(n % 16)]
  }

  lemma {:induction false} HexRoundTrip(n: nat)
    ensures HexValue(ToHex(n)) == n
  {
    if n >= 16 {
      var s := ToHex(n);
      assert s[..|s| - 1] == ToHex(n / 16);
      HexRoundTrip(n / 16);
    }
  }

  /**
   * The split and validation of a perk reference (std::string::find gives
   * the first separator, or -1 once stored in an int): the text before the first
   * '|' is the plugin file, the text after it the local form id in hex. A
   * missing separator, an empty side, or a right side that is not all hex
   * digits yields None.
   */
  function ParsePerkRef(s: string): (r: Option<(string, nat)>)
    ensures r.Some? ==>
      var m := r.value.0;
      && m != "" && '|' !in m
      && |m| + 1 < |s| && s[..|m|] == m && s[|m|] == '|'
      && AllHex(s[|m| + 1..]) && r.value.1 == HexValue(s[|m| + 1..])
  {
    var d := IndexOf(s, '|');
    if d < 0 then None
    else
      var modFile := s[..d];
      var formIdStr := s[d + 1..];
      if modFile == "" || formIdStr == "" then None
      else if !AllHex(formIdStr) then None
      else Some((modFile, HexValue(formIdStr)))
  }

  /** Every well-formed reference is accepted and split at its separator. */
  lemma ParseSplit(m: string, h: string)
    requires m != "" && '|' !in m
    requires h != "" && AllHex(h)
    ensures ParsePerkRef(m + "|" + h) == Some((m, HexValue(h)))
  {
    var s := m + "|" + h;
    var d := IndexOf(s, '|');
    assert s[..|m|] == m;
    assert s[|m|] == '|';
    assert d == |m|;
    assert s[..d] == m;
    assert s[d + 1..] == h;
  }

  /** The reference a configuration file holds for a perk. */
  function FormatPerkRef(modFile: string, formId: nat): string
  {
    modFile + "|" + ToHex(formId)
  }

  lemma ParseFormatRoundTrip(modFile: string, formId: nat)
    requires modFile != "" && '|' !in modFile
    ensures ParsePerkRef(FormatPerkRef(modFile, formId)) == Some((modFile, formId))
  {
    ParseSplit(modFile, ToHex(formId));
    HexRoundTrip(formId);
  }

  /**
   * A perk handle from a configuration string; the host lookup by (plugin
   * file, local id) is the map `perkLookup`.
   */
  function LoadPerkFromConfig(s: string, perkLookup: map<(string, nat), FormId>): (p: Option<FormId>)
    ensures p.Some? <==> ParsePerkRef(s).Some? && ParsePerkRef(s).value in perkLookup
    ensures p.Some? ==> p.value == perkLookup[ParsePerkRef(s).value]
    ensures '|' !in s ==> p.None?
  {
    match ParsePerkRef(s)
    case None => None
    case Some(ref) => if ref in perkLookup then Some(perkLookup[ref]) else None
  }

  /** The eight perk strings of the configuration. */
  datatype PerksConfig = PerksConfig(
    level2Perk: string, level3Perk: string, level4Perk: string, level5Perk: string,
    potionQualityPerk: string, poisonQualityPerk: string, allQualityPerk: string, doubleItemsPerk: string)

  /** The resolved perk handles; any of them may be null. */
  datatype Perks = Perks(
    level2: Option<FormId>, level3: Option<FormId>, level4: Option<FormId>, level5: Option<FormId>,
    potionQuality: Option<FormId>, poisonQuality: Option<FormId>, allQuality: Option<FormId>,
    doubleItems: Option<FormId>)

  function ResolvePerks(cfg: PerksConfig, perkLookup: map<(string, nat), FormId>): Perks
  {
    Perks(
      LoadPerkFromConfig(cfg.level2Perk, perkLookup), LoadPerkFromConfig(cfg.level3Perk, perkLookup),
      LoadPerkFromConfig(cfg.level4Perk, perkLookup), LoadPerkFromConfig(cfg.level5Perk, perkLookup),
      LoadPerkFromConfig(cfg.potionQualityPerk, perkLookup), LoadPerkFromConfig(cfg.poisonQualityPerk, perkLookup),
      LoadPerkFromConfig(cfg.allQualityPerk, perkLookup), LoadPerkFromConfig(cfg.doubleItemsPerk, perkLookup))
  }

  /** The perk that gates potions of `level` (2 to 5); levels outside that range have none. */
  function LevelPerk(p: Perks, level: int): Option<FormId>
  {
    if level == 2 then p.level2
    else if level == 3 then p.level3
    else if level == 4 then p.level4
    else if level == 5 then p.level5
    else None
  }

  /** The four level perks start-up cannot do without. */
  predicate MandatoryResolved(p: Perks)
  {
    p.level2.Some? && p.level3.Some? && p.level4.Some? && p.level5.Some?
  }
}
