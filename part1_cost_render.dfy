/**
 * The Act-1 cost decal: which cost glyphs a card shows and in what order,
 * the null padding of the glyph strips, the name-to-texture cache, and the
 * scene guard that routes the host's cost-sprite lookup here.
 *
 * Textures are opaque; a combined texture is recorded as the strip of
 * glyphs it was combined from, so the layout is visible in the result.
 */
module CostRender {
  import opened Wrappers
  import opened ListOps
  import opened Text
  import opened Cards
  import opened PlayableCards

  datatype Texture =
    | Image(id: int)
    | MoxStrip(glyphs: seq<Option<Texture>>)
    | CostStrip(glyphs: seq<Option<Texture>>)

  function Min(a: int, b: int): int { if a <= b then a else b }

  /** `n` null entries. */
  function Nulls<T>(n: nat): (r: seq<Option<T>>)
    ensures |r| == n && forall i :: 0 <= i < n ==> r[i].None?
  {
    seq(n, _ => None)
  }

  /** `s` with nulls put in front until it has `n` entries. */
  function PadLeft<T>(s: seq<Option<T>>, n: nat): seq<Option<T>> {
    if |s| < n then Nulls(n - |s|) + s else s
  }

  /** `s` with nulls appended until it has `n` entries. */
  function PadRight<T>(s: seq<Option<T>>, n: nat): seq<Option<T>> {
    if |s| < n then s + Nulls(n - |s|) else s
  }

  /**
   * Padding only adds nulls, on its side, up to the length asked for; a
   * list already that long is left alone.
   */
  lemma PadSpec<T>(s: seq<Option<T>>, n: nat)
    ensures |PadLeft(s, n)| == |PadRight(s, n)| == if |s| < n then n else |s|
    ensures s <= PadRight(s, n)
    ensures PadLeft(s, n)[|PadLeft(s, n)| - |s|..] == s
    ensures forall i :: |s| <= i < |PadRight(s, n)| ==> PadRight(s, n)[i].None?
    ensures forall i :: 0 <= i < |PadLeft(s, n)| - |s| ==> PadLeft(s, n)[i].None?
    ensures |s| >= n ==> PadLeft(s, n) == s && PadRight(s, n) == s
  {
  }

  // ---------------------------------------------------------------------
  // The layout, by glyph names
  // ---------------------------------------------------------------------

  const MaxEnergyGlyph: nat := 6
  const MaxBonesGlyph: nat := 14
  const MaxBloodGlyph: nat := 14

  /** The mox glyph names, in the fixed order green, blue, orange. */
  function MoxKeys(gems: seq<GemType>): seq<string> {
    (if Green in gems then ["mox_cost_g"] else [])
    + (if Blue in gems then ["mox_cost_b"] else [])
    + (if Orange in gems then ["mox_cost_o"] else [])
  }

  /**
   * One glyph per colour present, whatever the order or repetition in
   * the gem list, and never more than three.
   */
  lemma MoxKeysSpec(gems: seq<GemType>)
    ensures IsSubsequence(MoxKeys(gems), ["mox_cost_g", "mox_cost_b", "mox_cost_o"])
    ensures ("mox_cost_g" in MoxKeys(gems) <==> Green in gems)
         && ("mox_cost_b" in MoxKeys(gems) <==> Blue in gems)
         && ("mox_cost_o" in MoxKeys(gems) <==> Orange in gems)
    ensures |MoxKeys(gems)| <= 3
    ensures |gems| > 0 ==> |MoxKeys(gems)| > 0
  {
    var all := ["mox_cost_g", "mox_cost_b", "mox_cost_o"];
    var g, b, o := Green in gems, Blue in gems, Orange in gems;
    var bo := (if b then ["mox_cost_b"] else []) + (if o then ["mox_cost_o"] else []);
    assert all[1..] == ["mox_cost_b", "mox_cost_o"];
    assert all[1..][1..] == ["mox_cost_o"];
    var last: seq<string> := if o then ["mox_cost_o"] else [];
    assert IsSubsequence(last, all[1..][1..]) by {
      if o {
        assert last[1..] == [] && all[1..][1..][1..] == [];
      }
    }
    assert IsSubsequence(bo, all[1..]) by {
      if b {
        assert bo[1..] == last;
      } else {
        assert bo == last;
        SubsequenceCons(last, all[1..]);
      }
    }
    assert IsSubsequence(MoxKeys(gems), all) by {
      if g {
        assert MoxKeys(gems)[1..] == bo;
      } else {
        assert MoxKeys(gems) == bo;
        SubsequenceCons(bo, all);
      }
    }
    if |gems| > 0 {
      match gems[0]
      case Green => assert Green in gems;
      case Blue => assert Blue in gems;
      case Orange => assert Orange in gems;
    }
  }

  /** One entry of the cost list. */
  datatype Component =
    | MoxBlock(keys: seq<Option<string>>)
    | EnergyGlyph(level: nat)
    | BonesGlyph(level: nat)
    | BloodGlyph(level: nat)

  function Rank(c: Component): nat {
    match c
    case MoxBlock(_) => 0
    case EnergyGlyph(_) => 1
    case BonesGlyph(_) => 2
    case BloodGlyph(_) => 3
  }

  /** The texture name of a single glyph. */
  function GlyphKey(c: Component): string
    requires !c.MoxBlock?
  {
    match c
    case EnergyGlyph(n) => "energy_cost_" + NatToString(n)
    case BonesGlyph(n) => "bone_cost_" + NatToString(n)
    case BloodGlyph(n) => "blood_cost_" + NatToString(n)
  }

  /** The mox names as a glyph row, left-padded with nulls to three slots. */
  function MoxRow(gems: seq<GemType>): seq<Option<string>> {
    PadLeft(SomeAll(MoxKeys(gems)), 3)
  }

  /** Every name, as a non-null slot. */
  function SomeAll(keys: seq<string>): (r: seq<Option<string>>)
    ensures |r| == |keys| && forall i :: 0 <= i < |keys| ==> r[i] == Some(keys[i])
  {
    seq(|keys|, i requires 0 <= i < |keys| => Some(keys[i]))
  }

  /** The cost list for the given costs, before any subscriber edits it. */
  function CostComponents(gems: seq<GemType>, energy: int, bones: int, blood: int): seq<Component> {
    MoxPart(gems) + EnergyPart(energy) + BonesPart(bones) + BloodPart(blood)
  }

  function MoxPart(gems: seq<GemType>): seq<Component> {
    if |gems| > 0 then [MoxBlock(MoxRow(gems))] else []
  }

  function EnergyPart(energy: int): seq<Component> {
    if energy > 0 then [EnergyGlyph(Min(MaxEnergyGlyph, energy))] else []
  }

  function BonesPart(bones: int): seq<Component> {
    if bones > 0 then [BonesGlyph(Min(MaxBonesGlyph, bones))] else []
  }

  function BloodPart(blood: int): seq<Component> {
    if blood > 0 then [BloodGlyph(Min(MaxBloodGlyph, blood))] else []
  }

  predicate RankSorted(s: seq<Component>) {
    forall i, j :: 0 <= i < j < |s| ==> Rank(s[i]) < Rank(s[j])
  }

  lemma ConcatRankSorted(a: seq<Component>, b: seq<Component>)
    requires RankSorted(a) && RankSorted(b)
    requires forall x, y :: x in a && y in b ==> Rank(x) < Rank(y)
    ensures RankSorted(a + b)
  {
    forall i, j | 0 <= i < j < |a + b| ensures Rank((a + b)[i]) < Rank((a + b)[j]) {
      if j < |a| {
        assert (a + b)[i] == a[i] && (a + b)[j] == a[j];
      } else if i >= |a| {
        assert (a + b)[i] == b[i - |a|] && (a + b)[j] == b[j - |a|];
      } else {
        assert (a + b)[i] in a && (a + b)[j] in b;
      }
    }
  }

  /** The mox block, energy, bones and blood come in that order. */
  lemma CostComponentsOrder(gems: seq<GemType>, energy: int, bones: int, blood: int)
    ensures RankSorted(CostComponents(gems, energy, bones, blood))
    ensures |CostComponents(gems, energy, bones, blood)| <= 4
  {
    var m, e, b, d := MoxPart(gems), EnergyPart(energy), BonesPart(bones), BloodPart(blood);
    ConcatRankSorted(m, e);
    ConcatRankSorted(m + e, b);
    ConcatRankSorted(m + e + b, d);
  }

  /** The mox block is there exactly when there are gems, and it has three slots. */
  lemma CostComponentsMox(gems: seq<GemType>, energy: int, bones: int, blood: int)
    ensures var r := CostComponents(gems, energy, bones, blood);
      && (|gems| > 0 <==> MoxBlock(MoxRow(gems)) in r)
      && (forall c :: c in r && c.MoxBlock? ==> c == MoxBlock(MoxRow(gems)))
      && |MoxRow(gems)| == 3
  {
    MoxRowLength(gems);
    CostComponentsMembers(gems, energy, bones, blood);
  }

  /**
   * Each glyph is there exactly when its cost is positive, with its level
   * clamped to 6, 14 and 14.
   */
  lemma CostComponentsGlyphs(gems: seq<GemType>, energy: int, bones: int, blood: int)
    ensures var r := CostComponents(gems, energy, bones, blood);
      && (forall k :: EnergyGlyph(k) in r <==> energy > 0 && k == Min(MaxEnergyGlyph, energy))
      && (forall k :: BonesGlyph(k) in r <==> bones > 0 && k == Min(MaxBonesGlyph, bones))
      && (forall k :: BloodGlyph(k) in r <==> blood > 0 && k == Min(MaxBloodGlyph, blood))
      && (forall c :: c in r && !c.MoxBlock? ==> 1 <= c.level <= 14)
  {
    var r := CostComponents(gems, energy, bones, blood);
    var m, e, b, d := MoxPart(gems), EnergyPart(energy), BonesPart(bones), BloodPart(blood);
    CostComponentsMembers(gems, energy, bones, blood);
    forall k ensures EnergyGlyph(k) in r <==> energy > 0 && k == Min(MaxEnergyGlyph, energy) {
      assert EnergyGlyph(k) !in m + b + d;
    }
    forall k ensures BonesGlyph(k) in r <==> bones > 0 && k == Min(MaxBonesGlyph, bones) {
      assert BonesGlyph(k) !in m + e + d;
    }
    forall k ensures BloodGlyph(k) in r <==> blood > 0 && k == Min(MaxBloodGlyph, blood) {
      assert BloodGlyph(k) !in m + e + b;
    }
  }

  lemma MoxRowLength(gems: seq<GemType>)
    ensures |MoxRow(gems)| == 3
  {
    MoxKeysSpec(gems);
  }

  lemma CostComponentsMembers(gems: seq<GemType>, energy: int, bones: int, blood: int)
    ensures forall c :: c in CostComponents(gems, energy, bones, blood) <==>
      c in MoxPart(gems) || c in EnergyPart(energy) || c in BonesPart(bones) || c in BloodPart(blood)
  {
    var m, e, b, d := MoxPart(gems), EnergyPart(energy), BonesPart(bones), BloodPart(blood);
    assert CostComponents(gems, energy, bones, blood) == m + e + b + d;
  }

  /** Different levels get different glyph names, so the name fixes the level. */
  lemma GlyphKeyInjective(c: Component, d: Component)
    requires !c.MoxBlock? && !d.MoxBlock?
    requires GlyphKey(c) == GlyphKey(d)
    ensures c == d
  {
    var n, m := NatToString(c.level), NatToString(d.level);
    var p, q := GlyphKey(c)[..|GlyphKey(c)| - |n|], GlyphKey(d)[..|GlyphKey(d)| - |m|];
    assert GlyphKey(c)[0] == GlyphKey(d)[0];
    assert GlyphKey(c)[2] == GlyphKey(d)[2];
    if c.EnergyGlyph? {
      assert d.EnergyGlyph?;
      assert n == GlyphKey(c)[12..] && m == GlyphKey(d)[12..];
    } else if c.BonesGlyph? {
      assert d.BonesGlyph?;
      assert n == GlyphKey(c)[10..] && m == GlyphKey(d)[10..];
    } else {
      assert d.BloodGlyph?;
      assert n == GlyphKey(c)[11..] && m == GlyphKey(d)[11..];
    }
    NatToStringInjective(c.level, d.level);
  }

  /** `TextureHelper.GetImageAsTexture($"{key}.png", ...)` stands for `load(key + ".png")`. */
  function FileName(key: string): string { key + ".png" }

  /** The texture a component becomes, loading each glyph by name. */
  function Render(c: Component, load: string -> Option<Texture>): Option<Texture> {
    match c
    case MoxBlock(keys) =>
      Some(MoxStrip(seq(|keys|, i requires 0 <= i < |keys| => if keys[i].Some? then load(FileName(keys[i].value)) else None)))
    case _ => load(FileName(GlyphKey(c)))
  }

  function RenderAll(cs: seq<Component>, load: string -> Option<Texture>): (r: seq<Option<Texture>>)
    ensures |r| == |cs|
    ensures forall i :: 0 <= i < |cs| ==> r[i] == Render(cs[i], load)
  {
    if cs == [] then [] else RenderAll(cs[..|cs| - 1], load) + [Render(cs[|cs| - 1], load)]
  }

  lemma RenderAllAppend(cs: seq<Component>, extra: seq<Component>, load: string -> Option<Texture>)
    requires |extra| <= 1
    ensures RenderAll(cs + extra, load) == RenderAll(cs, load) + RenderAll(extra, load)
  {
    if extra != [] {
      assert (cs + extra)[..|cs + extra| - 1] == cs;
    } else {
      assert cs + extra == cs;
    }
  }

  // ---------------------------------------------------------------------
  // The texture cache
  // ---------------------------------------------------------------------

  class TextureCache {
    /** Image loading from the plugin's embedded resources, by file name. */
    const load: string -> Option<Texture>
    var assembledTextures: map<string, Option<Texture>>

    /** Every cached entry is what loading its name gives (possibly null). */
    predicate Valid()
      reads this
    {
      forall k :: k in assembledTextures ==> assembledTextures[k] == load(FileName(k))
    }

    constructor (load: string -> Option<Texture>)
      ensures this.load == load && assembledTextures == map[] && Valid()
    {
      this.load := load;
      assembledTextures := map[];
    }

    /**
     * A cached non-null texture is returned as is; a missing or null entry
     * is loaded again and stored under the key.
     */
    method GetTextureByName(key: string) returns (t: Option<Texture>)
      modifies this`assembledTextures
      ensures key in old(assembledTextures) && old(assembledTextures)[key].Some? ==>
                t == old(assembledTextures)[key] && assembledTextures == old(assembledTextures)
      ensures !(key in old(assembledTextures) && old(assembledTextures)[key].Some?) ==>
                t == load(FileName(key)) && assembledTextures == old(assembledTextures)[key := t]
      ensures key in assembledTextures && assembledTextures[key] == t
      ensures old(Valid()) ==> Valid() && t == load(FileName(key))
    {
      if key in assembledTextures {
        if assembledTextures[key].Some? {
          return assembledTextures[key];
        }
        assembledTextures := assembledTextures - {key};
      }
      t := load(FileName(key));
      assembledTextures := assembledTextures[key := t];
    }
  }

  /**
   * One cost glyph of the decal: when the part holds a glyph, its texture is
   * fetched through the cache and appended, so the list keeps rendering the
   * components shown so far.
   */
  method AppendGlyph(cache: TextureCache, list: seq<Option<Texture>>, ghost shown: seq<Component>, part: seq<Component>)
    returns (list': seq<Option<Texture>>)
    requires cache.Valid() && list == RenderAll(shown, cache.load)
    requires |part| <= 1 && (part != [] ==> !part[0].MoxBlock?)
    modifies cache`assembledTextures
    ensures cache.Valid() && list' == RenderAll(shown + part, cache.load)
  {
    list' := list;
    if part != [] {
      var t := cache.GetTextureByName(GlyphKey(part[0]));
      list' := list' + [t];
    }
    RenderAllAppend(shown, part, cache.load);
  }

  /** A texture list passed by reference, as `CombineCostTextures` receives it. */
  class TextureList {
    var items: seq<Option<Texture>>

    constructor (items: seq<Option<Texture>>)
      ensures this.items == items
    {
      this.items := items;
    }
  }

  /** Pads the caller's list with nulls to four entries, then combines it. */
  method CombineCostTextures(costs: TextureList) returns (t: Texture)
    modifies costs
    ensures costs.items == PadRight(old(costs.items), 4)
    ensures t == CostStrip(costs.items)
  {
    while |costs.items| < 4
      invariant old(costs.items) <= costs.items
      invariant |costs.items| <= 4 || costs.items == old(costs.items)
      invariant forall i :: |old(costs.items)| <= i < |costs.items| ==> costs.items[i].None?
      decreases 4 - |costs.items|
    {
      costs.items := costs.items + [None];
    }
    assert costs.items == PadRight(old(costs.items), 4);
    t := CostStrip(costs.items);
  }

  function CombineMoxTextures(costs: seq<Option<Texture>>): Texture {
    MoxStrip(costs)
  }

  // ---------------------------------------------------------------------
  // The decal
  // ---------------------------------------------------------------------

  /** What the decal depends on outside this file. */
  datatype HostView = HostView(
    pools: GemPools,
    originalBloodCost: CardInfo -> int,
    originalBonesCost: CardInfo -> int,
    /** The definition's own cost getters (`GemsCost`, `EnergyCost`, `BonesCost`, `BloodCost`), shown when no card is in play. */
    gemsCostOf: CardInfo -> seq<GemType>,
    energyCostOf: CardInfo -> int,
    bonesCostOf: CardInfo -> int,
    bloodCostOf: CardInfo -> int,
    /** The `UpdateCardCost` subscribers, run in turn (the identity when there are none). */
    updateCardCost: (CardInfo, seq<Option<Texture>>) -> seq<Option<Texture>>)

  /** Each cost from the card in play when there is one, otherwise from the definition. */
  function ShownComponents(card: PlayableCard?, info: CardInfo, host: HostView): seq<Component>
    reads info, card, if card == null then null else card.info
  {
    if card != null then
      CostComponents(GemsCostOf(card, host.pools), card.energyCost,
                     BonesCostOf(card, host.pools, host.originalBonesCost),
                     BloodCostOf(card, host.pools, host.originalBloodCost))
    else
      CostComponents(host.gemsCostOf(info), host.energyCostOf(info), host.bonesCostOf(info), host.bloodCostOf(info))
  }

  /**
   * The decal `Part1SpriteFinal` builds from the components shown: their
   * textures, edited by the subscribers, padded with nulls to four.
   */
  function Decal(shown: seq<Component>, info: CardInfo, host: HostView, load: string -> Option<Texture>): Texture {
    Finished(host, info, RenderAll(shown, load))
  }

  function Finished(host: HostView, info: CardInfo, list: seq<Option<Texture>>): Texture {
    CostStrip(PadRight(host.updateCardCost(info, list), 4))
  }

  lemma MoxRowRender(keys: seq<string>, glyphs: seq<Option<Texture>>, load: string -> Option<Texture>)
    requires |keys| <= 3 && |glyphs| == |keys|
    requires forall i :: 0 <= i < |keys| ==> glyphs[i] == load(FileName(keys[i]))
    ensures Render(MoxBlock(PadLeft(SomeAll(keys), 3)), load) == Some(MoxStrip(Nulls(3 - |glyphs|) + glyphs))
  {
    var row := PadLeft(SomeAll(keys), 3);
    var strip := Nulls<Texture>(3 - |glyphs|) + glyphs;
    assert |row| == 3 == |strip|;
    forall i | 0 <= i < 3
      ensures strip[i] == (if row[i].Some? then load(FileName(row[i].value)) else None)
    {
      if i >= 3 - |keys| {
        assert row[i] == Some(keys[i - (3 - |keys|)]);
        assert strip[i] == glyphs[i - (3 - |keys|)];
      }
    }
    assert Render(MoxBlock(row), load).value.glyphs == strip;
  }

  /**
   * The cost textures of a decal in the order `Part1SpriteFinal` gathers
   * them: the mox block when there are gems, then the energy, bones and
   * blood glyphs of the positive costs, each fetched through the cache.
   */
  method CostTextures(cache: TextureCache, gemsCost: seq<GemType>, energyCost: int, bonesCost: int, bloodCost: int)
    returns (list: seq<Option<Texture>>)
    requires cache.Valid()
    modifies cache`assembledTextures
    ensures cache.Valid()
    ensures list == RenderAll(CostComponents(gemsCost, energyCost, bonesCost, bloodCost), cache.load)
  {
    list := [];
    if |gemsCost| > 0 {
      var mox := MoxTexture(cache, gemsCost);
      list := list + [Some(mox)];
    }
    ghost var shown := MoxPart(gemsCost);
    RenderAllAppend([], shown, cache.load);
    list := AppendGlyph(cache, list, shown, EnergyPart(energyCost));
    shown := shown + EnergyPart(energyCost);
    list := AppendGlyph(cache, list, shown, BonesPart(bonesCost));
    shown := shown + BonesPart(bonesCost);
    list := AppendGlyph(cache, list, shown, BloodPart(bloodCost));
    shown := shown + BloodPart(bloodCost);
    assert shown == CostComponents(gemsCost, energyCost, bonesCost, bloodCost);
  }

  /** One mox glyph, fetched through the cache and appended when its colour is wanted. */
  method AppendMox(cache: TextureCache, gemCost: seq<Option<Texture>>, ghost keys: seq<string>, wanted: bool, key: string)
    returns (gemCost': seq<Option<Texture>>, ghost keys': seq<string>)
    requires cache.Valid() && |gemCost| == |keys|
    requires forall i :: 0 <= i < |keys| ==> gemCost[i] == cache.load(FileName(keys[i]))
    modifies cache`assembledTextures
    ensures cache.Valid() && keys' == keys + (if wanted then [key] else []) && |gemCost'| == |keys'|
    ensures forall i :: 0 <= i < |keys'| ==> gemCost'[i] == cache.load(FileName(keys'[i]))
  {
    gemCost', keys' := gemCost, keys;
    if wanted {
      var g := cache.GetTextureByName(key);
      gemCost', keys' := gemCost' + [g], keys' + [key];
    }
  }

  /** Nulls inserted at the front of the mox glyphs until there are three. */
  method PadMoxFront(glyphs: seq<Option<Texture>>) returns (gemCost: seq<Option<Texture>>)
    requires |glyphs| <= 3
    ensures gemCost == Nulls(3 - |glyphs|) + glyphs
  {
    gemCost := glyphs;
    while |gemCost| < 3
      invariant gemCost == Nulls(|gemCost| - |glyphs|) + glyphs && |glyphs| <= |gemCost| <= 3
      decreases 3 - |gemCost|
    {
      assert [None] + Nulls<Texture>(|gemCost| - |glyphs|) == Nulls<Texture>(|gemCost| + 1 - |glyphs|);
      gemCost := [None] + gemCost;
    }
  }

  /**
   * The mox block of `Part1SpriteFinal`: one glyph per colour present in
   * the fixed order, nulls inserted in front up to three, then combined.
   */
  method MoxTexture(cache: TextureCache, gemsCost: seq<GemType>) returns (t: Texture)
    requires cache.Valid() && |gemsCost| > 0
    modifies cache`assembledTextures
    ensures cache.Valid()
    ensures Some(t) == Render(MoxBlock(MoxRow(gemsCost)), cache.load)
  {
    var gemCost: seq<Option<Texture>>;
    ghost var keys: seq<string>;
    gemCost, keys := AppendMox(cache, [], [], Green in gemsCost, "mox_cost_g");
    gemCost, keys := AppendMox(cache, gemCost, keys, Blue in gemsCost, "mox_cost_b");
    gemCost, keys := AppendMox(cache, gemCost, keys, Orange in gemsCost, "mox_cost_o");
    assert keys == MoxKeys(gemsCost);
    MoxKeysSpec(gemsCost);
    var padded := PadMoxFront(gemCost);
    MoxRowRender(keys, gemCost, cache.load);
    t := CombineMoxTextures(padded);
  }

  /** Each cost `Part1SpriteFinal` shows: from the card in play when there is one, otherwise from the definition. */
  method ShownCosts(playableCard: PlayableCard?, cardInfo: CardInfo, host: HostView)
    returns (gemsCost: seq<GemType>, energyCost: int, bonesCost: int, bloodCost: int)
    ensures CostComponents(gemsCost, energyCost, bonesCost, bloodCost) == ShownComponents(playableCard, cardInfo, host)
  {
    if playableCard != null {
      gemsCost := GemsCost(playableCard, host.pools);
      energyCost := playableCard.energyCost;
      bonesCost := BonesCost(playableCard, host.pools, host.originalBonesCost);
      bloodCost := BloodCost(playableCard, host.pools, host.originalBloodCost);
      assert ShownComponents(playableCard, cardInfo, host) == CostComponents(gemsCost, energyCost, bonesCost, bloodCost);
    } else {
      gemsCost, energyCost, bonesCost, bloodCost :=
        host.gemsCostOf(cardInfo), host.energyCostOf(cardInfo), host.bonesCostOf(cardInfo), host.bloodCostOf(cardInfo);
    }
  }

  /** The last step of `Part1SpriteFinal`: the subscribers edit the list, which is padded to four and combined. */
  method FinishDecal(host: HostView, cardInfo: CardInfo, list: seq<Option<Texture>>) returns (sprite: Texture)
    ensures sprite == Finished(host, cardInfo, list)
  {
    var costs := new TextureList(host.updateCardCost(cardInfo, list));
    sprite := CombineCostTextures(costs);
  }

  /** The card in play for a definition, pruning the dead references on the way. */
  method FindPlayableCard(registry: CostProperties, cardInfo: CardInfo) returns (playableCard: PlayableCard?)
    modifies registry`cardInfoToCard
    ensures playableCard == LivePlayableCard(old(registry.cardInfoToCard), cardInfo)
    ensures registry.cardInfoToCard == PrunedRegistry(old(registry.cardInfoToCard), cardInfo)
  {
    playableCard := registry.GetPlayableCard(cardInfo);
  }

  /** The decal for a definition once the card in play (or null) is known. */
  method DecalFor(cache: TextureCache, host: HostView, cardInfo: CardInfo, playableCard: PlayableCard?)
    returns (sprite: Texture)
    requires cache.Valid()
    modifies cache`assembledTextures
    ensures cache.Valid()
    ensures sprite == Decal(old(ShownComponents(playableCard, cardInfo, host)), cardInfo, host, cache.load)
  {
    var gemsCost, energyCost, bonesCost, bloodCost := ShownCosts(playableCard, cardInfo, host);
    var list := CostTextures(cache, gemsCost, energyCost, bonesCost, bloodCost);
    sprite := FinishDecal(host, cardInfo, list);
  }

  method Part1SpriteFinal(cache: TextureCache, registry: CostProperties, host: HostView, cardInfo: CardInfo)
    returns (sprite: Texture)
    requires cache.Valid()
    modifies cache`assembledTextures, registry`cardInfoToCard
    ensures cache.Valid()
    ensures sprite == Decal(old(ShownComponents(LivePlayableCard(registry.cardInfoToCard, cardInfo), cardInfo, host)),
                            cardInfo, host, cache.load)
    ensures registry.cardInfoToCard == PrunedRegistry(old(registry.cardInfoToCard), cardInfo)
  {
    var playableCard := FindPlayableCard(registry, cardInfo);
    assert ShownComponents(playableCard, cardInfo, host) == old(ShownComponents(playableCard, cardInfo, host));
    sprite := DecalFor(cache, host, cardInfo, playableCard);
  }

  /** The kind of card displayer asking for a cost sprite. */
  datatype CardDisplayer = CardDisplayer3D | OtherDisplayer(id: int)

  /** The patch takes over only for the 3D displayer in an Act-1 scene. */
  function OverridesCostSprite(displayer: CardDisplayer, activeSceneName: string): (r: bool)
    ensures r <==> displayer == CardDisplayer3D && StartsWith(activeSceneName, "Part1")
  {
    displayer.CardDisplayer3D? && StartsWith(activeSceneName, "Part1")
  }

  /**
   * Every Act-1 scene of the 3D displayer is taken over, whatever follows
   * the "Part1" prefix; no other displayer, and no scene whose name does not
   * begin with "Part1", ever is.
   */
  lemma SceneGuard(displayer: CardDisplayer, activeSceneName: string, rest: string)
    ensures OverridesCostSprite(CardDisplayer3D, "Part1" + rest)
    ensures !displayer.CardDisplayer3D? ==> !OverridesCostSprite(displayer, activeSceneName)
    ensures OverridesCostSprite(displayer, activeSceneName) ==>
      |activeSceneName| >= 5 && activeSceneName[..5] == "Part1"
    ensures !OverridesCostSprite(CardDisplayer3D, "Part3" + rest)
  {
    assert ("Part1" + rest)[..5] == "Part1";
    assert ("Part3" + rest)[4] == '3';
  }

  /**
   * The cost-sprite prefix: in Leshy's cabin it sets the result to the
   * Act-1 decal and skips the host (returns false); elsewhere it changes
   * nothing and lets the host run.
   */
  method Part1CardCostDisplayerPatch(cache: TextureCache, registry: CostProperties, host: HostView,
                                     displayer: CardDisplayer, activeSceneName: string, card: CardInfo,
                                     result: Option<Texture>)
    returns (runOriginal: bool, newResult: Option<Texture>)
    requires cache.Valid()
    modifies cache`assembledTextures, registry`cardInfoToCard
    ensures cache.Valid()
    ensures runOriginal <==> !OverridesCostSprite(displayer, activeSceneName)
    ensures runOriginal ==> (newResult == result
      && cache.assembledTextures == old(cache.assembledTextures) && registry.cardInfoToCard == old(registry.cardInfoToCard))
    ensures !runOriginal ==>
      newResult == Some(Decal(old(ShownComponents(LivePlayableCard(registry.cardInfoToCard, card), card, host)),
                              card, host, cache.load))
      && registry.cardInfoToCard == PrunedRegistry(old(registry.cardInfoToCard), card)
  {
    if displayer.CardDisplayer3D? && StartsWith(activeSceneName, "Part1") {
      var sprite := Part1SpriteFinal(cache, registry, host, card);
      return false, Some(sprite);
    }
    return true, result;
  }
}
