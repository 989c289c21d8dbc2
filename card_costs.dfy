/**
 * A card in play (the host's `PlayableCard`) and what the extensions compute
 * from it: its blood, bone and gem costs, whether it uses the blue gem, the
 * predicates that look through to its definition, and the lookup from a
 * definition to a card in play that prunes dead weak references.
 */
module PlayableCards {
  import opened Wrappers
  import opened ListOps
  import opened Cards

  /** The gems each side currently holds (the resource and opponent-gem managers). */
  datatype GemPools = GemPools(playerGems: set<GemType>, opponentGems: set<GemType>)

  /** The same pools with the blue gem taken away from both sides. */
  function WithoutBlue(pools: GemPools): GemPools {
    GemPools(pools.playerGems - {Blue}, pools.opponentGems - {Blue})
  }

  class PlayableCard {
    var info: CardInfo?
    var temporaryMods: seq<CardModificationInfo>
    var opponentCard: bool
    /** The host's `EnergyCost` getter, taken as stored. */
    var energyCost: int

    constructor (info: CardInfo?, opponentCard: bool, energyCost: int)
      ensures this.info == info && temporaryMods == [] && this.opponentCard == opponentCard
      ensures this.energyCost == energyCost
    {
      this.info := info;
      temporaryMods := [];
      this.opponentCard := opponentCard;
      this.energyCost := energyCost;
    }

    /** Either the definition or one of the temporary modifications gemifies the card. */
    predicate IsGemified()
      requires info != null
      reads this, info
    {
      info.Gemified() || AnyGemify(temporaryMods)
    }

    /** The blue gem is held by whichever side owns the card. */
    predicate OwnerHasBlueGem(pools: GemPools)
      reads this
    {
      if opponentCard then Blue in pools.opponentGems else Blue in pools.playerGems
    }

    predicate IsUsingBlueGem(pools: GemPools)
      requires info != null
      reads this, info
    {
      IsGemified() && OwnerHasBlueGem(pools)
    }

    function IsPlayerCard(): (r: bool)
      reads this
      ensures r <==> !opponentCard
    {
      !opponentCard
    }

    // -------------------------------------------------------------------
    // Predicates that look through to the definition (a null definition
    // is a null dereference in the host, hence the preconditions)
    // -------------------------------------------------------------------

    function HasTrait(t: Trait): (r: bool)
      requires info != null
      reads this, info
      ensures r <==> t in info.traits
    {
      info.HasTrait(t)
    }

    function LacksTrait(t: Trait): (r: bool)
      requires info != null
      reads this, info
      ensures r <==> t !in info.traits
    {
      info.LacksTrait(t)
    }

    function HasAllTraits(items: seq<Trait>): (r: bool)
      requires info != null
      reads this, info
      ensures r <==> forall t :: t in items ==> t in info.traits
    {
      HasAll(info.traits, items)
    }

    function LacksAllTraits(items: seq<Trait>): (r: bool)
      requires info != null
      reads this, info
      ensures r <==> forall t :: t in items ==> t !in info.traits
    {
      LacksAll(info.traits, items)
    }

    function HasAnyOfTraits(items: seq<Trait>): (r: bool)
      requires info != null
      reads this, info
      ensures r <==> exists t :: t in items && t in info.traits
    {
      HasAny(info.traits, items)
    }

    function IsOfTribe(t: Tribe): (r: bool)
      requires info != null
      reads this, info
      ensures r <==> t in info.tribes
    {
      info.IsOfTribe(t)
    }

    function IsNotOfTribe(t: Tribe): (r: bool)
      requires info != null
      reads this, info
      ensures r <==> t !in info.tribes
    {
      info.IsNotOfTribe(t)
    }

    function HasAllAbilities(items: seq<Ability>): (r: bool)
      requires info != null
      reads this, info
      ensures r <==> forall a :: a in items ==> a in info.abilities
    {
      HasAll(info.abilities, items)
    }

    function LacksAllAbilities(items: seq<Ability>): (r: bool)
      requires info != null
      reads this, info
      ensures r <==> forall a :: a in items ==> a !in info.abilities
    {
      LacksAll(info.abilities, items)
    }

    function HasAnyOfAbilities(items: seq<Ability>): (r: bool)
      requires info != null
      reads this, info
      ensures r <==> exists a :: a in items && a in info.abilities
    {
      HasAny(info.abilities, items)
    }

    /** Unlike the quantified forms below, this one also looks at the temporary modifications. */
    function HasSpecialAbility(a: SpecialTriggeredAbility): (r: bool)
      requires info != null
      reads this, info
      ensures r <==> (exists i :: 0 <= i < |temporaryMods| && a in temporaryMods[i].specialAbilities)
                     || a in info.specialAbilities
    {
      (exists i :: 0 <= i < |temporaryMods| && a in temporaryMods[i].specialAbilities)
      || info.HasSpecialAbility(a)
    }

    function LacksSpecialAbility(a: SpecialTriggeredAbility): (r: bool)
      requires info != null
      reads this, info
      ensures r <==> !HasSpecialAbility(a)
    {
      !HasSpecialAbility(a)
    }

    function HasAllSpecialAbilities(items: seq<SpecialTriggeredAbility>): (r: bool)
      requires info != null
      reads this, info
      ensures r <==> forall a :: a in items ==> a in info.specialAbilities
    {
      HasAll(info.specialAbilities, items)
    }

    function LacksAllSpecialAbilities(items: seq<SpecialTriggeredAbility>): (r: bool)
      requires info != null
      reads this, info
      ensures r <==> forall a :: a in items ==> a !in info.specialAbilities
    {
      LacksAll(info.specialAbilities, items)
    }

    function HasAnyOfSpecialAbilities(items: seq<SpecialTriggeredAbility>): (r: bool)
      requires info != null
      reads this, info
      ensures r <==> exists a :: a in items && a in info.specialAbilities
    {
      HasAny(info.specialAbilities, items)
    }

    /** The special abilities of every modification, temporary ones first. */
    function AllSpecialAbilities(): (r: seq<SpecialTriggeredAbility>)
      requires info != null
      reads this, info
      ensures forall a :: a in r <==> exists i :: 0 <= i < |temporaryMods + info.mods| && a in (temporaryMods + info.mods)[i].specialAbilities
    {
      ModSpecialAbilities(temporaryMods + info.mods)
    }

    /**
     * The list the source's documentation promises: the special abilities
     * of every modification followed by the definition's own, as
     * `AllAbilities` does for abilities.
     */
    function AllSpecialAbilitiesIntended(): (r: seq<SpecialTriggeredAbility>)
      requires info != null
      reads this, info
      ensures forall a :: a in r <==> a in AllSpecialAbilities() || a in info.specialAbilities
    {
      AllSpecialAbilities() + info.specialAbilities
    }
  }

  /** The special abilities listed by each modification, concatenated in order. */
  function ModSpecialAbilities(mods: seq<CardModificationInfo>): (r: seq<SpecialTriggeredAbility>)
    ensures forall a :: a in r <==> exists i :: 0 <= i < |mods| && a in mods[i].specialAbilities
  {
    if mods == [] then []
    else
      var rest := ModSpecialAbilities(mods[1..]);
      assert forall i :: 1 <= i < |mods| ==> mods[i] == mods[1..][i - 1];
      mods[0].specialAbilities + rest
  }

  /**
   * A special ability granted only by a temporary modification counts for
   * `HasSpecialAbility` but not for the quantified forms, which look at the
   * definition alone.
   */
  lemma TemporarySpecialAbilityOnlySeenSingly(card: PlayableCard, a: SpecialTriggeredAbility)
    requires card.info != null
    requires a !in card.info.specialAbilities && |card.temporaryMods| > 0 && a in card.temporaryMods[0].specialAbilities
    ensures card.HasSpecialAbility(a) && !card.HasAllSpecialAbilities([a]) && card.LacksAllSpecialAbilities([a])
    ensures !card.HasAnyOfSpecialAbilities([a])
  {
  }

  /**
   * The in-play queries answer as the definition's own queries do, except
   * that a temporary modification can grant a special ability; a player
   * card draws on the player's gems and any other on the opponent's.
   */
  lemma PlayableQueriesLookThrough(card: PlayableCard, pools: GemPools, a: SpecialTriggeredAbility, t: Trait,
                                   tribe: Tribe, traits: seq<Trait>, abilities: seq<Ability>,
                                   specials: seq<SpecialTriggeredAbility>)
    requires card.info != null
    ensures card.HasTrait(t) == card.info.HasTrait(t) && card.LacksTrait(t) == card.info.LacksTrait(t)
    ensures card.IsOfTribe(tribe) == card.info.IsOfTribe(tribe) && card.IsNotOfTribe(tribe) == card.info.IsNotOfTribe(tribe)
    ensures card.HasAllTraits(traits) == card.info.HasAllTraits(traits)
    ensures card.LacksAllTraits(traits) == card.info.LacksAllTraits(traits)
    ensures card.HasAnyOfTraits(traits) == card.info.HasAnyOfTraits(traits)
    ensures card.HasAllAbilities(abilities) == card.info.HasAllAbilities(abilities)
    ensures card.LacksAllAbilities(abilities) == card.info.LacksAllAbilities(abilities)
    ensures card.HasAnyOfAbilities(abilities) == card.info.HasAnyOfAbilities(abilities)
    ensures card.HasAllSpecialAbilities(specials) == card.info.HasAllSpecialAbilities(specials)
    ensures card.LacksAllSpecialAbilities(specials) == card.info.LacksAllSpecialAbilities(specials)
    ensures card.HasAnyOfSpecialAbilities(specials) == card.info.HasAnyOfSpecialAbilities(specials)
    ensures card.HasSpecialAbility(a) <==> card.info.HasSpecialAbility(a) || a in ModSpecialAbilities(card.temporaryMods)
    ensures card.LacksSpecialAbility(a) ==> card.info.LacksSpecialAbility(a) && card.LacksAllSpecialAbilities([a])
    ensures card.IsPlayerCard() ==> (card.OwnerHasBlueGem(pools) <==> Blue in pools.playerGems)
    ensures !card.IsPlayerCard() ==> (card.OwnerHasBlueGem(pools) <==> Blue in pools.opponentGems)
  {
  }

  /**
   * As written, `AllSpecialAbilities` misses a special ability the
   * definition lists when no modification grants it, though
   * `HasSpecialAbility` reports it.
   */
  lemma AllSpecialAbilitiesMissesDefinition(card: PlayableCard, a: SpecialTriggeredAbility)
    requires card.info != null && card.temporaryMods == [] && card.info.mods == []
    requires a in card.info.specialAbilities
    ensures card.HasSpecialAbility(a) && a !in card.AllSpecialAbilities()
  {
    assert card.temporaryMods + card.info.mods == [];
  }

  /**
   * The corrected list holds every special ability `HasSpecialAbility`
   * reports, and everything the as-written list holds.
   */
  lemma AllSpecialAbilitiesIntendedSpec(card: PlayableCard, a: SpecialTriggeredAbility)
    requires card.info != null
    ensures card.HasSpecialAbility(a) ==> a in card.AllSpecialAbilitiesIntended()
    ensures a in card.AllSpecialAbilities() ==> a in card.AllSpecialAbilitiesIntended()
    ensures a in card.info.specialAbilities ==> a in card.AllSpecialAbilitiesIntended()
  {
    if exists i :: 0 <= i < |card.temporaryMods| && a in card.temporaryMods[i].specialAbilities {
      var i :| 0 <= i < |card.temporaryMods| && a in card.temporaryMods[i].specialAbilities;
      assert (card.temporaryMods + card.info.mods)[i] == card.temporaryMods[i];
    }
  }

  // ---------------------------------------------------------------------
  // Costs
  // ---------------------------------------------------------------------

  function SumBloodAdjustments(mods: seq<CardModificationInfo>): int {
    if mods == [] then 0 else SumBloodAdjustments(mods[..|mods| - 1]) + mods[|mods| - 1].bloodCostAdjustment
  }

  function SumBonesAdjustments(mods: seq<CardModificationInfo>): int {
    if mods == [] then 0 else SumBonesAdjustments(mods[..|mods| - 1]) + mods[|mods| - 1].bonesCostAdjustment
  }

  /** Adjustments from two batches of modifications add up. */
  lemma {:induction false} SumAdjustmentsConcat(a: seq<CardModificationInfo>, b: seq<CardModificationInfo>)
    ensures SumBloodAdjustments(a + b) == SumBloodAdjustments(a) + SumBloodAdjustments(b)
    ensures SumBonesAdjustments(a + b) == SumBonesAdjustments(a) + SumBonesAdjustments(b)
    decreases |b|
  {
    if b == [] {
      assert a + b == a;
    } else {
      var b' := b[..|b| - 1];
      assert (a + b)[..|a + b| - 1] == a + b';
      assert (a + b)[|a + b| - 1] == b[|b| - 1];
      SumAdjustmentsConcat(a, b');
    }
  }

  /** `BloodCost`: no card or no definition gives 0 (after logging an error). */
  function BloodCostOf(card: PlayableCard?, pools: GemPools, originalBloodCost: CardInfo -> int): int
    reads card, if card == null then null else card.info
  {
    if card == null || card.info == null then 0
    else originalBloodCost(card.info) - (if card.IsUsingBlueGem(pools) then 1 else 0)
         + SumBloodAdjustments(card.temporaryMods)
  }

  function BonesCostOf(card: PlayableCard?, pools: GemPools, originalBonesCost: CardInfo -> int): int
    reads card, if card == null then null else card.info
  {
    if card == null || card.info == null then 0
    else originalBonesCost(card.info) - (if card.IsUsingBlueGem(pools) then 1 else 0)
         + SumBonesAdjustments(card.temporaryMods)
  }

  /**
   * `originalBloodCost` stands for the cost-properties lookup of the
   * definition's own blood cost.
   */
  method BloodCost(card: PlayableCard?, pools: GemPools, originalBloodCost: CardInfo -> int) returns (r: int)
    ensures r == BloodCostOf(card, pools, originalBloodCost)
  {
    if card != null && card.info != null {
      r := originalBloodCost(card.info);
      if card.IsUsingBlueGem(pools) {
        r := r - 1;
      }
      ghost var base := r;
      for i := 0 to |card.temporaryMods|
        invariant r == base + SumBloodAdjustments(card.temporaryMods[..i])
      {
        assert card.temporaryMods[..i + 1][..i] == card.temporaryMods[..i];
        r := r + card.temporaryMods[i].bloodCostAdjustment;
      }
      assert card.temporaryMods[..|card.temporaryMods|] == card.temporaryMods;
      return;
    }
    return 0;
  }

  method BonesCost(card: PlayableCard?, pools: GemPools, originalBonesCost: CardInfo -> int) returns (r: int)
    ensures r == BonesCostOf(card, pools, originalBonesCost)
  {
    if card != null && card.info != null {
      r := originalBonesCost(card.info);
      if card.IsUsingBlueGem(pools) {
        r := r - 1;
      }
      ghost var base := r;
      for i := 0 to |card.temporaryMods|
        invariant r == base + SumBonesAdjustments(card.temporaryMods[..i])
      {
        assert card.temporaryMods[..i + 1][..i] == card.temporaryMods[..i];
        r := r + card.temporaryMods[i].bonesCostAdjustment;
      }
      assert card.temporaryMods[..|card.temporaryMods|] == card.temporaryMods;
      return;
    }
    return 0;
  }

  /**
   * The blue gem discounts each of blood and bones by exactly one, and only
   * when it is in use; without it the cost is the original plus the
   * temporary adjustments.
   */
  lemma BlueGemDiscount(card: PlayableCard, pools: GemPools, originalBloodCost: CardInfo -> int, originalBonesCost: CardInfo -> int)
    requires card.info != null
    ensures !card.IsUsingBlueGem(WithoutBlue(pools))
    ensures BloodCostOf(card, WithoutBlue(pools), originalBloodCost)
         == originalBloodCost(card.info) + SumBloodAdjustments(card.temporaryMods)
    ensures BloodCostOf(card, pools, originalBloodCost)
         == BloodCostOf(card, WithoutBlue(pools), originalBloodCost) - (if card.IsUsingBlueGem(pools) then 1 else 0)
    ensures BonesCostOf(card, pools, originalBonesCost)
         == BonesCostOf(card, WithoutBlue(pools), originalBonesCost) - (if card.IsUsingBlueGem(pools) then 1 else 0)
  {
  }

  /** A card that is not gemified anywhere pays full price whatever gems its owner holds. */
  lemma UngemifiedPaysFull(card: PlayableCard, pools: GemPools, originalBloodCost: CardInfo -> int)
    requires card.info != null && !AnyGemify(card.info.mods) && !AnyGemify(card.temporaryMods)
    ensures !card.IsUsingBlueGem(pools)
    ensures BloodCostOf(card, pools, originalBloodCost)
         == originalBloodCost(card.info) + SumBloodAdjustments(card.temporaryMods)
  {
  }

  /**
   * With the blue gem not in use, temporary modifications added after the
   * existing ones add their blood adjustments on top of the cost.
   */
  lemma TemporaryModAdds(card: PlayableCard, pools: GemPools, originalBloodCost: CardInfo -> int,
                         before: seq<CardModificationInfo>, extra: seq<CardModificationInfo>)
    requires card.info != null && card.temporaryMods == before + extra
    requires !card.IsUsingBlueGem(pools)
    ensures BloodCostOf(card, pools, originalBloodCost)
         == originalBloodCost(card.info) + SumBloodAdjustments(before) + SumBloodAdjustments(extra)
  {
    SumAdjustmentsConcat(before, extra);
  }

  predicate AnyNullify(mods: seq<CardModificationInfo>) {
    exists i :: 0 <= i < |mods| && mods[i].nullifyGemsCost
  }

  /** The gems every modification adds, in order (a null `addGemCost` adds none). */
  function AddedGems(mods: seq<CardModificationInfo>): seq<GemType> {
    if mods == [] then [] else AddedGems(mods[..|mods| - 1]) + mods[|mods| - 1].addGemCost.GetOr([])
  }

  lemma {:induction false} AddedGemsMember(mods: seq<CardModificationInfo>, g: GemType)
    ensures g in AddedGems(mods) <==> exists i :: 0 <= i < |mods| && g in mods[i].addGemCost.GetOr([])
    decreases |mods|
  {
    if mods != [] {
      var init := mods[..|mods| - 1];
      AddedGemsMember(init, g);
      assert forall i :: 0 <= i < |init| ==> init[i] == mods[i];
    }
  }

  /** `GemsCost` before the blue-gem discount. */
  function UndiscountedGems(info: CardInfo, temporaryMods: seq<CardModificationInfo>): seq<GemType>
    reads info
  {
    AddDistinct(info.gemsCost, AddedGems(temporaryMods + info.mods))
  }

  function GemsCostOf(card: PlayableCard?, pools: GemPools): seq<GemType>
    reads card, if card == null then null else card.info
  {
    if card == null || card.info == null then []
    else if AnyNullify(card.temporaryMods + card.info.mods) then []
    else
      var g := UndiscountedGems(card.info, card.temporaryMods);
      if |g| > 0 && card.IsUsingBlueGem(pools) then g[1..] else g
  }

  method GemsCost(card: PlayableCard?, pools: GemPools) returns (r: seq<GemType>)
    ensures r == GemsCostOf(card, pools)
  {
    if card == null || card.info == null {
      return [];
    }
    var mods := card.temporaryMods + card.info.mods;
    if AnyNullify(mods) {
      return [];
    }
    r := card.info.gemsCost;
    for i := 0 to |mods|
      invariant r == AddDistinct(card.info.gemsCost, AddedGems(mods[..i]))
    {
      assert mods[..i + 1][..i] == mods[..i];
      if mods[i].addGemCost.Some? {
        var items := mods[i].addGemCost.value;
        ghost var before := r;
        for j := 0 to |items|
          invariant r == AddDistinct(before, items[..j])
        {
          assert items[..j + 1][..j] == items[..j];
          if items[j] !in r {
            r := r + [items[j]];
          }
        }
        assert items[..|items|] == items;
        assert mods[..i + 1][i] == mods[i];
        assert AddedGems(mods[..i + 1]) == AddedGems(mods[..i]) + items;
        AddDistinctConcat(card.info.gemsCost, AddedGems(mods[..i]), items);
      } else {
        assert mods[..i + 1][i] == mods[i];
        assert AddedGems(mods[..i + 1]) == AddedGems(mods[..i]) + [] == AddedGems(mods[..i]);
      }
    }
    assert mods[..|mods|] == mods;
    if |r| > 0 && card.IsUsingBlueGem(pools) {
      r := r[1..];
    }
  }

  /**
   * What a card in play costs in gems: nothing once any modification
   * nullifies gems; otherwise its own gems followed by every added gem
   * not yet present, less the first one when the blue gem is in use.
   */
  lemma GemsCostSpec(card: PlayableCard, pools: GemPools)
    requires card.info != null
    ensures AnyNullify(card.temporaryMods + card.info.mods) ==> GemsCostOf(card, pools) == []
    ensures !AnyNullify(card.temporaryMods + card.info.mods) ==>
      var g := UndiscountedGems(card.info, card.temporaryMods);
      && card.info.gemsCost <= g
      && (forall x :: x in g <==> (x in card.info.gemsCost
            || exists i :: 0 <= i < |card.temporaryMods + card.info.mods| && x in (card.temporaryMods + card.info.mods)[i].addGemCost.GetOr([])))
      && NoDuplicates(g[|card.info.gemsCost|..])
      && GemsCostOf(card, pools) == (if |g| > 0 && card.IsUsingBlueGem(pools) then g[1..] else g)
      && GemsCostOf(card, WithoutBlue(pools)) == g
    ensures NoDuplicates(card.info.gemsCost) ==> NoDuplicates(GemsCostOf(card, pools))
  {
    var mods := card.temporaryMods + card.info.mods;
    var g := UndiscountedGems(card.info, card.temporaryMods);
    AddDistinctSpec(card.info.gemsCost, AddedGems(mods));
    forall x ensures x in AddedGems(mods) <==> exists i :: 0 <= i < |mods| && x in mods[i].addGemCost.GetOr([]) {
      AddedGemsMember(mods, x);
    }
    if NoDuplicates(card.info.gemsCost) && !AnyNullify(mods) {
      AddDistinctNoDuplicates(card.info.gemsCost, AddedGems(mods));
      var r := GemsCostOf(card, pools);
      if |g| > 0 && card.IsUsingBlueGem(pools) {
        forall i, j | 0 <= i < j < |r| ensures r[i] != r[j] {
          assert r[i] == g[i + 1] && r[j] == g[j + 1];
        }
      }
    }
  }

  // ---------------------------------------------------------------------
  // From a definition to a card in play
  // ---------------------------------------------------------------------

  /**
   * The index of the last live reference, or -1; a `None` entry is a weak
   * reference whose target is gone (or null).
   */
  function LastLive(refs: seq<Option<PlayableCard>>): (r: int)
    ensures -1 <= r < |refs|
    ensures r >= 0 ==> refs[r].Some?
    ensures forall j :: r < j < |refs| ==> refs[j].None?
  {
    if refs == [] then -1
    else if refs[|refs| - 1].Some? then |refs| - 1
    else LastLive(refs[..|refs| - 1])
  }

  /** The card `GetPlayableCard` returns from a registry in this state (null for none). */
  function LivePlayableCard(cardInfoToCard: map<CardInfo, seq<Option<PlayableCard>>>, info: CardInfo): PlayableCard? {
    if info in cardInfoToCard && LastLive(cardInfoToCard[info]) >= 0
    then cardInfoToCard[info][LastLive(cardInfoToCard[info])].value
    else null
  }

  /** The registry after `GetPlayableCard(info)`: the definition's list cut just after its last live reference. */
  function PrunedRegistry(cardInfoToCard: map<CardInfo, seq<Option<PlayableCard>>>, info: CardInfo)
    : map<CardInfo, seq<Option<PlayableCard>>>
  {
    if info in cardInfoToCard
    then cardInfoToCard[info := cardInfoToCard[info][..LastLive(cardInfoToCard[info]) + 1]]
    else cardInfoToCard
  }

  lemma {:induction false} LastLiveOfPruned(refs: seq<Option<PlayableCard>>)
    ensures LastLive(refs[..LastLive(refs) + 1]) == LastLive(refs)
  {
    var k := LastLive(refs);
    if k >= 0 {
      assert refs[..k + 1][k] == refs[k];
    }
  }

  /**
   * Pruning touches only the definition asked about, keeps a prefix of its
   * list that is empty or ends in a live reference, finds the same card in
   * play as before, and does nothing the second time.
   */
  lemma PrunedRegistrySpec(cardInfoToCard: map<CardInfo, seq<Option<PlayableCard>>>, info: CardInfo)
    ensures forall c :: c != info ==> (c in PrunedRegistry(cardInfoToCard, info) <==> c in cardInfoToCard)
    ensures forall c :: c != info && c in cardInfoToCard ==> PrunedRegistry(cardInfoToCard, info)[c] == cardInfoToCard[c]
    ensures info in cardInfoToCard ==>
      var p := PrunedRegistry(cardInfoToCard, info)[info];
      p <= cardInfoToCard[info] && (p == [] || p[|p| - 1].Some?)
    ensures LivePlayableCard(PrunedRegistry(cardInfoToCard, info), info) == LivePlayableCard(cardInfoToCard, info)
    ensures PrunedRegistry(PrunedRegistry(cardInfoToCard, info), info) == PrunedRegistry(cardInfoToCard, info)
  {
    if info in cardInfoToCard {
      var refs := cardInfoToCard[info];
      var k := LastLive(refs);
      LastLiveOfPruned(refs);
      assert refs[..k + 1][..k + 1] == refs[..k + 1];
      if k >= 0 {
        assert refs[..k + 1][k] == refs[k];
      }
    }
  }

  /** The registry from definitions to the cards in play that use them. */
  class CostProperties {
    var cardInfoToCard: map<CardInfo, seq<Option<PlayableCard>>>

    constructor ()
      ensures cardInfoToCard == map[]
    {
      cardInfoToCard := map[];
    }

    /**
     * Scans the definition's list from the end, dropping dead references
     * until it meets a live one, which it returns.
     */
    method GetPlayableCard(info: CardInfo) returns (r: PlayableCard?)
      modifies this`cardInfoToCard
      ensures info !in old(cardInfoToCard) ==> r == null && cardInfoToCard == old(cardInfoToCard)
      ensures info in old(cardInfoToCard) ==>
        var refs := old(cardInfoToCard)[info];
        var k := LastLive(refs);
        && cardInfoToCard == old(cardInfoToCard)[info := refs[..k + 1]]
        && r == (if k >= 0 then refs[k].value else null)
      ensures r == LivePlayableCard(old(cardInfoToCard), info)
      ensures cardInfoToCard == PrunedRegistry(old(cardInfoToCard), info)
    {
      if info !in cardInfoToCard {
        return null;
      }
      ghost var refs := cardInfoToCard[info];
      var list := cardInfoToCard[info];
      var i := |list| - 1;
      while i >= 0
        invariant -1 <= i < |refs|
        invariant list == refs[..i + 1]
        invariant cardInfoToCard == old(cardInfoToCard)[info := list]
        invariant forall j :: i < j < |refs| ==> refs[j].None?
        invariant LastLive(refs) == LastLive(list)
        decreases i
      {
        if list[i].Some? {
          return list[i].value;
        }
        assert list[..i] == refs[..i];
        list := list[..i];
        cardInfoToCard := cardInfoToCard[info := list];
        i := i - 1;
      }
      assert list == [];
      return null;
    }
  }
}
