/**
 * A card definition (the host's `CardInfo`) and the chainable extension
 * methods that edit it in place: list editing, setters, presets, the
 * quantifier helpers and the string-keyed extended-property table.
 *
 * Each list field is a plain sequence. A null list behaves like an empty one
 * for the adders (they allocate it) and the removers (they skip it); the few
 * operations that would throw on a null list see an empty one here.
 */
module Cards {
  import opened Wrappers
  import opened ListOps
  import opened Text

  // ---------------------------------------------------------------------
  // Host enumerations: the members the extensions name, plus an id for
  // every other value (including ones added by mods).
  // ---------------------------------------------------------------------

  datatype Ability = Ability(id: int)
  datatype SpecialTriggeredAbility = SpawnLice | SpecialAbility(id: int)
  datatype Appearance = RareCardBackground | TerrainBackground | TerrainLayout | OtherAppearance(id: int)
  datatype CardMetaCategory =
    | ChoiceNode | TraderOffer | Rare | GBCPack | GBCPlayable | Part3Random
    | CustomMetaCategory(id: int)
  datatype Trait = Terrain | Pelt | OtherTrait(id: int)
  datatype Tribe = Tribe(id: int)
  datatype GemType = Green | Orange | Blue
  datatype CardTemple = Nature | Undead | Tech | Wizard
  datatype CardComplexity = Vanilla | Simple | Intermediate | Advanced

  /** A decal texture; `List.Contains` compares textures by identity. */
  datatype Decal = Decal(textureId: int)

  /** A card modification (the host's `CardModificationInfo`), the fields the extensions read. */
  datatype CardModificationInfo = CardModificationInfo(
    gemify: bool,
    nullifyGemsCost: bool,
    addGemCost: Option<seq<GemType>>,
    bloodCostAdjustment: int,
    bonesCostAdjustment: int,
    specialAbilities: seq<SpecialTriggeredAbility>)

  /** `new CardModificationInfo() { gemify = true }` */
  const GemifyMod := CardModificationInfo(true, false, None, 0, 0, [])

  /** At least one modification gemifies the card. */
  predicate AnyGemify(mods: seq<CardModificationInfo>) {
    exists i :: 0 <= i < |mods| && mods[i].gemify
  }

  /** `FindAll(x => x.gemify).ForEach(y => y.gemify = false)` */
  function ClearGemify(mods: seq<CardModificationInfo>): (r: seq<CardModificationInfo>)
    ensures |r| == |mods|
    ensures forall i :: 0 <= i < |r| ==> r[i] == mods[i].(gemify := false)
  {
    if mods == [] then [] else [mods[0].(gemify := false)] + ClearGemify(mods[1..])
  }

  /** The modification list after `SetGemify(gemify)`. */
  function GemifiedMods(mods: seq<CardModificationInfo>, gemify: bool): seq<CardModificationInfo> {
    if gemify && !AnyGemify(mods) then mods + [GemifyMod]
    else if !gemify then ClearGemify(mods)
    else mods
  }

  /**
   * `SetGemify` makes the card gemified exactly when asked to, keeps every
   * existing modification otherwise as it was, and adds at most one.
   */
  lemma GemifiedModsSpec(mods: seq<CardModificationInfo>, gemify: bool)
    ensures AnyGemify(GemifiedMods(mods, gemify)) == gemify
    ensures |mods| <= |GemifiedMods(mods, gemify)| <= |mods| + 1
    ensures forall i :: 0 <= i < |mods| ==> GemifiedMods(mods, gemify)[i].(gemify := mods[i].gemify) == mods[i]
  {
    var r := GemifiedMods(mods, gemify);
    if gemify && !AnyGemify(mods) {
      assert r[|mods|].gemify;
    }
  }

  /** A value handed to `SetExtendedProperty`, with what its `ToString()` gives. */
  datatype PropertyValue = NullValue | BoolValue(b: bool) | StringValue(s: string) {
    /** `value?.ToString()` */
    function ToNullableString(): Option<string> {
      match this
      case NullValue => None
      case BoolValue(b) => Some(BoolToString(b))
      case StringValue(s) => Some(s)
    }
  }

  const BaseGameCardKey: string := "BaseGameCard"
  const ModTagKey: string := "CallStackModGUID"
  const ModPrefixKey: string := "ModPrefix"
  const OldApiKey: string := "AddedByOldApi"

  /** `GetExtendedProperty` over a table: a missing key and a stored null both read as null. */
  function Lookup(table: map<string, Option<string>>, key: string): Option<string> {
    if key in table then table[key] else None
  }

  /** The card name after `SetName(name, modPrefix)`. */
  function PrefixedName(name: string, modPrefix: Option<string>): string {
    if !IsNullOrEmpty(modPrefix) && !StartsWith(name, modPrefix.value)
    then modPrefix.value + "_" + name
    else name
  }

  /**
   * The prefix is added, with an underscore, exactly when it is non-empty
   * and the name does not already start with it.
   */
  lemma PrefixedNameSpec(name: string, modPrefix: Option<string>)
    ensures !IsNullOrEmpty(modPrefix) ==> StartsWith(PrefixedName(name, modPrefix), modPrefix.value)
    ensures PrefixedName(name, modPrefix) != name <==> !IsNullOrEmpty(modPrefix) && !StartsWith(name, modPrefix.value)
    ensures PrefixedName(name, modPrefix) != name ==> PrefixedName(name, modPrefix) == modPrefix.value + "_" + name
  {
    if !IsNullOrEmpty(modPrefix) && !StartsWith(name, modPrefix.value) {
      var p := modPrefix.value;
      assert (p + "_" + name)[..|p|] == p;
      assert |p + "_" + name| != |name|;
    }
  }

  /** Naming twice with the same prefix is naming once. */
  lemma PrefixedNameIdempotent(name: string, modPrefix: Option<string>)
    ensures PrefixedName(PrefixedName(name, modPrefix), modPrefix) == PrefixedName(name, modPrefix)
  {
    PrefixedNameSpec(name, modPrefix);
  }

  /** The meta-categories after `SetRare`. */
  function RareMetaCategories(categories: seq<CardMetaCategory>): seq<CardMetaCategory> {
    RemoveFirstOf(AddDistinct(categories, [Rare]), [ChoiceNode, TraderOffer, Part3Random])
  }

  /**
   * After `SetRare` the card is Rare, and the first ChoiceNode,
   * TraderOffer and Part3Random entries are gone; on a duplicate-free
   * list that leaves none of them.
   */
  lemma RareMetaCategoriesSpec(categories: seq<CardMetaCategory>)
    ensures Rare in RareMetaCategories(categories)
    ensures multiset(RareMetaCategories(categories))
         == multiset(AddDistinct(categories, [Rare])) - multiset{ChoiceNode, TraderOffer, Part3Random}
    ensures NoDuplicates(categories) ==>
              ChoiceNode !in RareMetaCategories(categories) && TraderOffer !in RareMetaCategories(categories)
              && Part3Random !in RareMetaCategories(categories)
  {
    var added := AddDistinct(categories, [Rare]);
    var removed := [ChoiceNode, TraderOffer, Part3Random];
    AddDistinctSpec(categories, [Rare]);
    RemoveFirstOfMultiset(added, removed);
    assert multiset(removed) == multiset{ChoiceNode, TraderOffer, Part3Random};
    assert Rare in multiset(added);
    assert multiset(RareMetaCategories(categories))[Rare] == multiset(added)[Rare];
    if NoDuplicates(categories) {
      AddDistinctNoDuplicates(categories, [Rare]);
      NoDuplicatesCount(added, ChoiceNode);
      NoDuplicatesCount(added, TraderOffer);
      NoDuplicatesCount(added, Part3Random);
    }
  }

  /** The meta-categories after `SetDefaultPart1Card`. */
  function DefaultPart1Categories(categories: seq<CardMetaCategory>): seq<CardMetaCategory> {
    if Rare in categories then categories else AddDistinct(categories, [ChoiceNode, TraderOffer])
  }

  /** The meta-categories after `SetDefaultPart3Card`. */
  function DefaultPart3Categories(categories: seq<CardMetaCategory>): seq<CardMetaCategory> {
    if Rare in categories then categories else AddDistinct(categories, [ChoiceNode, Part3Random])
  }

  /**
   * A default Act-1 card is either Rare or offered at choice and trader
   * nodes; a card made Rare first is left untouched.
   */
  lemma DefaultPart1CategoriesSpec(categories: seq<CardMetaCategory>)
    ensures var r := DefaultPart1Categories(categories);
      Rare in r || (ChoiceNode in r && TraderOffer in r)
    ensures DefaultPart1Categories(RareMetaCategories(categories)) == RareMetaCategories(categories)
  {
    AddDistinctSpec(categories, [ChoiceNode, TraderOffer]);
    RareMetaCategoriesSpec(categories);
  }

  /** The Act-3 counterpart: Rare, or offered at choice nodes and as a random Part 3 card. */
  lemma DefaultPart3CategoriesSpec(categories: seq<CardMetaCategory>)
    ensures var r := DefaultPart3Categories(categories);
      Rare in r || (ChoiceNode in r && Part3Random in r)
    ensures DefaultPart3Categories(RareMetaCategories(categories)) == RareMetaCategories(categories)
  {
    AddDistinctSpec(categories, [ChoiceNode, Part3Random]);
    RareMetaCategoriesSpec(categories);
  }

  /**
   * Removing anything from an empty list leaves it empty, so guarding the
   * single-removal loop on a non-empty list does not change its result.
   */
  lemma {:induction false} RemoveFirstOfEmpty<T>(items: seq<T>)
    ensures RemoveFirstOf([], items) == []
    decreases |items|
  {
    if items != [] {
      RemoveFirstOfEmpty(items[..|items| - 1]);
    }
  }

  /** The tribes the source's `RemoveTribes` leaves: nothing is removed unless the card has traits. */
  function TribesLeftAsWritten(traits: seq<Trait>, tribes: seq<Tribe>, items: seq<Tribe>): seq<Tribe> {
    if |traits| > 0 then RemoveFirstOf(tribes, items) else tribes
  }

  /**
   * A card with one tribe and no traits: asking to remove that tribe
   * leaves it in place, where one copy per listed tribe should go.
   */
  lemma RemoveTribesAsWrittenKeepsTribe()
    ensures TribesLeftAsWritten([], [Tribe(0)], [Tribe(0)]) == [Tribe(0)]
    ensures multiset(TribesLeftAsWritten([], [Tribe(0)], [Tribe(0)])) != multiset([Tribe(0)]) - multiset([Tribe(0)])
  {
    assert multiset([Tribe(0)]) - multiset([Tribe(0)]) == multiset{};
  }

  /** Without the traits guard, the removal keeps its promise for every card. */
  lemma RemoveTribesIntended(traits: seq<Trait>, tribes: seq<Tribe>, items: seq<Tribe>)
    ensures |traits| > 0 ==> TribesLeftAsWritten(traits, tribes, items) == RemoveFirstOf(tribes, items)
    ensures multiset(RemoveFirstOf(tribes, items)) == multiset(tribes) - multiset(items)
    ensures IsSubsequence(RemoveFirstOf(tribes, items), tribes)
  {
    RemoveFirstOfMultiset(tribes, items);
    RemoveFirstOfSubsequence(tribes, items);
  }

  class CardInfo {
    var name: string
    var displayedName: string
    var description: Option<string>
    var baseAttack: int
    var baseHealth: int
    /** The blood cost. */
    var cost: int
    var bonesCost: int
    var energyCost: int
    var gemsCost: seq<GemType>
    var abilities: seq<Ability>
    var appearanceBehaviour: seq<Appearance>
    var decals: seq<Decal>
    var metaCategories: seq<CardMetaCategory>
    var specialAbilities: seq<SpecialTriggeredAbility>
    var traits: seq<Trait>
    var tribes: seq<Tribe>
    var temple: CardTemple
    var cardComplexity: CardComplexity
    var mods: seq<CardModificationInfo>
    /** The card's extended-property table; a value may be null. */
    var extensionTable: map<string, Option<string>>

    /** A blank card definition. */
    constructor (name: string)
      ensures this.name == name && displayedName == "" && description.None?
      ensures baseAttack == 0 && baseHealth == 0 && cost == 0 && bonesCost == 0 && energyCost == 0
      ensures gemsCost == [] && abilities == [] && appearanceBehaviour == [] && decals == []
      ensures metaCategories == [] && specialAbilities == [] && traits == [] && tribes == []
      ensures temple == Nature && cardComplexity == Vanilla && mods == [] && extensionTable == map[]
    {
      this.name := name;
      displayedName := "";
      description := None;
      baseAttack, baseHealth := 0, 0;
      cost, bonesCost, energyCost := 0, 0, 0;
      gemsCost, abilities, appearanceBehaviour, decals := [], [], [], [];
      metaCategories, specialAbilities, traits, tribes := [], [], [], [];
      temple, cardComplexity := Nature, Vanilla;
      mods, extensionTable := [], map[];
    }

    // -------------------------------------------------------------------
    // Adders
    // -------------------------------------------------------------------

    /** Abilities stack: they are appended as given, duplicates included. */
    method AddAbilities(items: seq<Ability>)
      modifies this`abilities
      ensures abilities == old(abilities) + items
      ensures HasAllAbilities(items)
    {
      abilities := abilities + items;
    }

    method AddAppearances(items: seq<Appearance>)
      modifies this`appearanceBehaviour
      ensures appearanceBehaviour == AddDistinct(old(appearanceBehaviour), items)
    {
      appearanceBehaviour := AddEachDistinct(appearanceBehaviour, items);
    }

    method AddDecal(items: seq<Decal>)
      modifies this`decals
      ensures decals == AddDistinct(old(decals), items)
    {
      decals := AddEachDistinct(decals, items);
    }

    /**
     * The overload taking image paths: a null array changes nothing, and
     * otherwise each path is loaded (by `loadImage`) and added as above.
     */
    method AddDecalPaths(paths: Option<seq<string>>, loadImage: string -> Decal)
      modifies this`decals
      ensures decals == if paths.None? then old(decals) else AddDistinct(old(decals), seq(|paths.value|, i requires 0 <= i < |paths.value| => loadImage(paths.value[i])))
    {
      if paths.Some? {
        AddDecal(seq(|paths.value|, i requires 0 <= i < |paths.value| => loadImage(paths.value[i])));
      }
    }

    method AddMetaCategories(items: seq<CardMetaCategory>)
      modifies this`metaCategories
      ensures metaCategories == AddDistinct(old(metaCategories), items)
      ensures forall c :: c in items ==> HasCardMetaCategory(c)
    {
      metaCategories := AddEachDistinct(metaCategories, items);
      AddDistinctSpec(old(metaCategories), items);
    }

    method AddSpecialAbilities(items: seq<SpecialTriggeredAbility>)
      modifies this`specialAbilities
      ensures specialAbilities == AddDistinct(old(specialAbilities), items)
      ensures HasAllSpecialAbilities(items)
    {
      specialAbilities := AddEachDistinct(specialAbilities, items);
      AddDistinctSpec(old(specialAbilities), items);
    }

    method AddTraits(items: seq<Trait>)
      modifies this`traits
      ensures traits == AddDistinct(old(traits), items)
      ensures HasAllTraits(items)
    {
      traits := AddEachDistinct(traits, items);
      AddDistinctSpec(old(traits), items);
    }

    method AddTribes(items: seq<Tribe>)
      modifies this`tribes
      ensures tribes == AddDistinct(old(tribes), items)
      ensures forall t :: t in items ==> IsOfTribe(t)
    {
      tribes := AddEachDistinct(tribes, items);
      AddDistinctSpec(old(tribes), items);
    }

    // -------------------------------------------------------------------
    // Removers: each acts only when its list is non-empty
    // -------------------------------------------------------------------

    method RemoveAbilities(items: seq<Ability>)
      modifies this`abilities
      ensures abilities == if |old(abilities)| > 0 then RemoveAllOf(old(abilities), items) else old(abilities)
      ensures LacksAllAbilities(items)
    {
      if |abilities| > 0 {
        abilities := RemoveEachAll(abilities, items);
        RemoveAllOfSpec(old(abilities), items);
      }
    }

    method RemoveAbilitiesSingle(items: seq<Ability>)
      modifies this`abilities
      ensures abilities == if |old(abilities)| > 0 then RemoveFirstOf(old(abilities), items) else old(abilities)
      ensures NoDuplicates(old(abilities)) ==> LacksAllAbilities(items)
    {
      if |abilities| > 0 {
        abilities := RemoveEachFirst(abilities, items);
        if NoDuplicates(old(abilities)) {
          RemoveFirstOfClears(old(abilities), items);
        }
      }
    }

    method RemoveSpecialAbilities(items: seq<SpecialTriggeredAbility>)
      modifies this`specialAbilities
      ensures specialAbilities ==
        if |old(specialAbilities)| > 0 then RemoveAllOf(old(specialAbilities), items) else old(specialAbilities)
      ensures LacksAllSpecialAbilities(items)
    {
      if |specialAbilities| > 0 {
        specialAbilities := RemoveEachAll(specialAbilities, items);
        RemoveAllOfSpec(old(specialAbilities), items);
      }
    }

    method RemoveSpecialAbilitiesSingle(items: seq<SpecialTriggeredAbility>)
      modifies this`specialAbilities
      ensures specialAbilities ==
        if |old(specialAbilities)| > 0 then RemoveFirstOf(old(specialAbilities), items) else old(specialAbilities)
      ensures NoDuplicates(old(specialAbilities)) ==> LacksAllSpecialAbilities(items)
    {
      if |specialAbilities| > 0 {
        specialAbilities := RemoveEachFirst(specialAbilities, items);
        if NoDuplicates(old(specialAbilities)) {
          RemoveFirstOfClears(old(specialAbilities), items);
        }
      }
    }

    method RemoveAppearances(items: seq<Appearance>)
      modifies this`appearanceBehaviour
      ensures appearanceBehaviour ==
        if |old(appearanceBehaviour)| > 0 then RemoveAllOf(old(appearanceBehaviour), items) else old(appearanceBehaviour)
    {
      if |appearanceBehaviour| > 0 {
        appearanceBehaviour := RemoveEachAll(appearanceBehaviour, items);
      }
    }

    method RemoveAppearancesSingle(items: seq<Appearance>)
      modifies this`appearanceBehaviour
      ensures appearanceBehaviour ==
        if |old(appearanceBehaviour)| > 0 then RemoveFirstOf(old(appearanceBehaviour), items) else old(appearanceBehaviour)
    {
      if |appearanceBehaviour| > 0 {
        appearanceBehaviour := RemoveEachFirst(appearanceBehaviour, items);
      }
    }

    method RemoveDecals(items: seq<Decal>)
      modifies this`decals
      ensures decals == if |old(decals)| > 0 then RemoveAllOf(old(decals), items) else old(decals)
    {
      if |decals| > 0 {
        decals := RemoveEachAll(decals, items);
      }
    }

    method RemoveDecalsSingle(items: seq<Decal>)
      modifies this`decals
      ensures decals == if |old(decals)| > 0 then RemoveFirstOf(old(decals), items) else old(decals)
    {
      if |decals| > 0 {
        decals := RemoveEachFirst(decals, items);
      }
    }

    method RemoveMetaCategories(items: seq<CardMetaCategory>)
      modifies this`metaCategories
      ensures metaCategories ==
        if |old(metaCategories)| > 0 then RemoveAllOf(old(metaCategories), items) else old(metaCategories)
      ensures LacksAllCardMetaCategories(items)
    {
      if |metaCategories| > 0 {
        metaCategories := RemoveEachAll(metaCategories, items);
        RemoveAllOfSpec(old(metaCategories), items);
      }
    }

    method RemoveMetaCategoriesSingle(items: seq<CardMetaCategory>)
      modifies this`metaCategories
      ensures metaCategories ==
        if |old(metaCategories)| > 0 then RemoveFirstOf(old(metaCategories), items) else old(metaCategories)
      ensures NoDuplicates(old(metaCategories)) ==> LacksAllCardMetaCategories(items)
    {
      if |metaCategories| > 0 {
        metaCategories := RemoveEachFirst(metaCategories, items);
        if NoDuplicates(old(metaCategories)) {
          RemoveFirstOfClears(old(metaCategories), items);
        }
      }
    }

    /** Removes one trait per argument; the `HasTrait` guard only skips absent ones. */
    method RemoveTraits(items: seq<Trait>)
      modifies this`traits
      ensures traits == if |old(traits)| > 0 then RemoveFirstOf(old(traits), items) else old(traits)
      ensures NoDuplicates(old(traits)) ==> LacksAllTraits(items)
    {
      if |traits| > 0 {
        for i := 0 to |items|
          invariant traits == RemoveFirstOf(old(traits), items[..i])
        {
          assert items[..i + 1][..i] == items[..i];
          if HasTrait(items[i]) {
            traits := RemoveFirst(traits, items[i]);
          } else {
            RemoveFirstAbsent(traits, items[i]);
          }
        }
        assert items[..|items|] == items;
        if NoDuplicates(old(traits)) {
          RemoveFirstOfClears(old(traits), items);
        }
      }
    }

    /**
     * `RemoveTribes` as the source writes it: the guard tests the card's
     * traits, not its tribes, so a card without traits keeps every tribe.
     */
    method RemoveTribesAsWritten(items: seq<Tribe>)
      modifies this`tribes
      ensures tribes == TribesLeftAsWritten(traits, old(tribes), items)
    {
      if |traits| > 0 {
        for i := 0 to |items|
          invariant tribes == RemoveFirstOf(old(tribes), items[..i])
        {
          assert items[..i + 1][..i] == items[..i];
          if IsOfTribe(items[i]) {
            tribes := RemoveFirst(tribes, items[i]);
          } else {
            RemoveFirstAbsent(tribes, items[i]);
          }
        }
        assert items[..|items|] == items;
      }
    }

    /**
     * `RemoveTribes` as its siblings do it, guarded on the tribe list
     * itself: one copy of each listed tribe goes, whatever the traits.
     */
    method RemoveTribes(items: seq<Tribe>)
      modifies this`tribes
      ensures tribes == RemoveFirstOf(old(tribes), items)
      ensures NoDuplicates(old(tribes)) ==> forall t :: t in items ==> IsNotOfTribe(t)
    {
      if |tribes| > 0 {
        for i := 0 to |items|
          invariant tribes == RemoveFirstOf(old(tribes), items[..i])
        {
          assert items[..i + 1][..i] == items[..i];
          if IsOfTribe(items[i]) {
            tribes := RemoveFirst(tribes, items[i]);
          } else {
            RemoveFirstAbsent(tribes, items[i]);
          }
        }
        assert items[..|items|] == items;
      } else {
        RemoveFirstOfEmpty(items);
      }
      if NoDuplicates(old(tribes)) {
        RemoveFirstOfClears(old(tribes), items);
      }
    }

    method RemoveCardMetaCategories(items: seq<CardMetaCategory>)
      modifies this`metaCategories
      ensures metaCategories ==
        if |old(metaCategories)| > 0 then RemoveFirstOf(old(metaCategories), items) else old(metaCategories)
      ensures NoDuplicates(old(metaCategories)) ==> LacksAllCardMetaCategories(items)
    {
      if |metaCategories| > 0 {
        for i := 0 to |items|
          invariant metaCategories == RemoveFirstOf(old(metaCategories), items[..i])
        {
          assert items[..i + 1][..i] == items[..i];
          if HasCardMetaCategory(items[i]) {
            metaCategories := RemoveFirst(metaCategories, items[i]);
          } else {
            RemoveFirstAbsent(metaCategories, items[i]);
          }
        }
        assert items[..|items|] == items;
        if NoDuplicates(old(metaCategories)) {
          RemoveFirstOfClears(old(metaCategories), items);
        }
      }
    }

    // -------------------------------------------------------------------
    // Setters
    // -------------------------------------------------------------------

    method SetBasic(displayed: string, attack: int, health: int, desc: Option<string> := None)
      modifies this`displayedName, this`baseAttack, this`baseHealth, this`description
      ensures displayedName == displayed && baseAttack == attack && baseHealth == health && description == desc
    {
      displayedName, baseAttack, baseHealth, description := displayed, attack, health, desc;
    }

    method SetCardTemple(cardTemple: CardTemple)
      modifies this`temple
      ensures temple == cardTemple
    {
      temple := cardTemple;
    }

    /** A null argument leaves its stat as it was. */
    method SetBaseAttackAndHealth(attack: Option<int> := Some(0), health: Option<int> := Some(0))
      modifies this`baseAttack, this`baseHealth
      ensures baseAttack == attack.GetOr(old(baseAttack))
      ensures baseHealth == health.GetOr(old(baseHealth))
    {
      if attack.Some? {
        baseAttack := attack.value;
      }
      if health.Some? {
        baseHealth := health.value;
      }
    }

    /** A null or blank displayed name is stored as the empty string. */
    method SetDisplayedName(name: Option<string>)
      modifies this`displayedName
      ensures displayedName == if IsNullOrWhiteSpace(name) then "" else name.value
    {
      displayedName := if IsNullOrWhiteSpace(name) then "" else name.value;
    }

    method SetName(name: string, modPrefix: Option<string>)
      modifies this`name
      ensures this.name == PrefixedName(name, modPrefix)
      ensures !IsNullOrEmpty(modPrefix) ==> StartsWith(this.name, modPrefix.value)
    {
      this.name := PrefixedName(name, modPrefix);
      PrefixedNameSpec(name, modPrefix);
    }

    method SetNames(name: string, displayed: Option<string>, modPrefix: Option<string>)
      modifies this`name, this`displayedName
      ensures this.name == PrefixedName(name, modPrefix)
      ensures displayedName == if IsNullOrWhiteSpace(displayed) then "" else displayed.value
    {
      SetDisplayedName(displayed);
      SetName(name, modPrefix);
    }

    /** `abilities?.ToList()`: a null argument empties the list. */
    method SetSpecialAbilities(items: Option<seq<SpecialTriggeredAbility>>)
      modifies this`specialAbilities
      ensures specialAbilities == items.GetOr([])
    {
      specialAbilities := items.GetOr([]);
    }

    method SetTraits(items: Option<seq<Trait>>)
      modifies this`traits
      ensures traits == items.GetOr([])
    {
      traits := items.GetOr([]);
    }

    method SetTribes(items: Option<seq<Tribe>>)
      modifies this`tribes
      ensures tribes == items.GetOr([])
    {
      tribes := items.GetOr([]);
    }

    method SetGemify(gemify: bool := true)
      modifies this`mods
      ensures mods == GemifiedMods(old(mods), gemify)
      ensures Gemified() == gemify
    {
      if gemify && !AnyGemify(mods) {
        mods := mods + [GemifyMod];
      } else if !gemify {
        mods := ClearGemify(mods);
      }
      GemifiedModsSpec(old(mods), gemify);
    }

    method SetBloodCost(blood: Option<int> := Some(0))
      modifies this`cost
      ensures cost == blood.GetOr(old(cost))
    {
      if blood.Some? {
        cost := blood.value;
      }
    }

    method SetBonesCost(bones: Option<int> := Some(0))
      modifies this`bonesCost
      ensures bonesCost == bones.GetOr(old(bonesCost))
    {
      if bones.Some? {
        bonesCost := bones.value;
      }
    }

    method SetEnergyCost(energy: Option<int> := Some(0))
      modifies this`energyCost
      ensures energyCost == energy.GetOr(old(energyCost))
    {
      if energy.Some? {
        energyCost := energy.value;
      }
    }

    /** Unlike the numeric costs, a null gem list is not ignored: it clears the gems. */
    method SetGemsCost(gems: Option<seq<GemType>> := None)
      modifies this`gemsCost
      ensures gemsCost == gems.GetOr([])
    {
      gemsCost := gems.GetOr([]);
    }

    /** The `params` overload: the gems given, in order, as the new list. */
    method SetGemsCostOf(gems: seq<GemType>)
      modifies this`gemsCost
      ensures gemsCost == gems
    {
      SetGemsCost(Some(gems));
    }

    method SetCost(blood: Option<int> := Some(0), bones: Option<int> := Some(0), energy: Option<int> := Some(0),
                   gems: Option<seq<GemType>> := None)
      modifies this`cost, this`bonesCost, this`energyCost, this`gemsCost
      ensures cost == blood.GetOr(old(cost)) && bonesCost == bones.GetOr(old(bonesCost))
      ensures energyCost == energy.GetOr(old(energyCost)) && gemsCost == gems.GetOr([])
    {
      SetBloodCost(blood);
      SetBonesCost(bones);
      SetEnergyCost(energy);
      SetGemsCost(gems);
    }

    // -------------------------------------------------------------------
    // Presets
    // -------------------------------------------------------------------

    method SetRare()
      modifies this`metaCategories, this`appearanceBehaviour, this`cardComplexity
      ensures metaCategories == RareMetaCategories(old(metaCategories))
      ensures appearanceBehaviour == AddDistinct(old(appearanceBehaviour), [RareCardBackground])
      ensures cardComplexity == Intermediate
      ensures Rare in metaCategories && RareCardBackground in appearanceBehaviour
    {
      AddMetaCategories([Rare]);
      AddAppearances([RareCardBackground]);
      metaCategories := RemoveFirst(metaCategories, ChoiceNode);
      metaCategories := RemoveFirst(metaCategories, TraderOffer);
      metaCategories := RemoveFirst(metaCategories, Part3Random);
      cardComplexity := Intermediate;
      assert [ChoiceNode, TraderOffer, Part3Random][..2] == [ChoiceNode, TraderOffer];
      assert [ChoiceNode, TraderOffer][..1] == [ChoiceNode];
      assert [ChoiceNode][..0] == [];
      RareMetaCategoriesSpec(old(metaCategories));
      AddDistinctSpec(old(appearanceBehaviour), [RareCardBackground]);
    }

    method SetDefaultPart1Card()
      modifies this`metaCategories, this`cardComplexity, this`temple
      ensures metaCategories == DefaultPart1Categories(old(metaCategories))
      ensures cardComplexity == if Rare in old(metaCategories) then old(cardComplexity) else Simple
      ensures temple == Nature
    {
      if Rare !in metaCategories {
        AddMetaCategories([ChoiceNode, TraderOffer]);
        cardComplexity := Simple;
      }
      temple := Nature;
    }

    method SetDefaultPart3Card()
      modifies this`metaCategories, this`cardComplexity, this`temple
      ensures metaCategories == DefaultPart3Categories(old(metaCategories))
      ensures cardComplexity == if Rare in old(metaCategories) then old(cardComplexity) else Simple
      ensures temple == Tech
    {
      if Rare !in metaCategories {
        AddMetaCategories([ChoiceNode, Part3Random]);
        cardComplexity := Simple;
      }
      temple := Tech;
    }

    method SetGBCPlayable(cardTemple: CardTemple)
      modifies this`metaCategories, this`temple
      ensures metaCategories == AddDistinct(old(metaCategories), [GBCPack, GBCPlayable])
      ensures temple == cardTemple
    {
      AddMetaCategories([GBCPack, GBCPlayable]);
      temple := cardTemple;
    }

    /** The parameterless overload: terrain trait, background and layout. */
    method SetTerrain()
      modifies this`traits, this`appearanceBehaviour
      ensures traits == AddDistinct(old(traits), [Terrain])
      ensures appearanceBehaviour == AddDistinct(old(appearanceBehaviour), [TerrainBackground, TerrainLayout])
      ensures IsTerrain()
    {
      AddTraits([Terrain]);
      AddAppearances([TerrainBackground, TerrainLayout]);
    }

    /** The overload taking `useTerrainLayout`; with `true` it equals `SetTerrain()`. */
    method SetTerrainLayout(useTerrainLayout: bool)
      modifies this`traits, this`appearanceBehaviour
      ensures traits == AddDistinct(old(traits), [Terrain])
      ensures appearanceBehaviour == AddDistinct(old(appearanceBehaviour),
        if useTerrainLayout then [TerrainBackground, TerrainLayout] else [TerrainBackground])
      ensures IsTerrain()
    {
      AddTraits([Terrain]);
      AddAppearances([TerrainBackground]);
      if useTerrainLayout {
        AddAppearances([TerrainLayout]);
        AddDistinctConcat(old(appearanceBehaviour), [TerrainBackground], [TerrainLayout]);
        assert [TerrainBackground] + [TerrainLayout] == [TerrainBackground, TerrainLayout];
      }
    }

    method SetPelt(spawnLice: bool := true)
      modifies this`traits, this`appearanceBehaviour, this`specialAbilities
      ensures traits == AddDistinct(old(traits), [Pelt])
      ensures appearanceBehaviour == AddDistinct(old(appearanceBehaviour), [TerrainBackground, TerrainLayout])
      ensures specialAbilities == if spawnLice then AddDistinct(old(specialAbilities), [SpawnLice]) else old(specialAbilities)
      ensures IsPelt() && (spawnLice ==> HasSpecialAbility(SpawnLice))
    {
      AddTraits([Pelt]);
      AddAppearances([TerrainBackground, TerrainLayout]);
      if spawnLice {
        AddSpecialAbilities([SpawnLice]);
      }
    }

    // -------------------------------------------------------------------
    // Predicates (HasAbility, HasTrait and IsOfTribe are host members,
    // taken as membership in the card's own lists)
    // -------------------------------------------------------------------

    /** The host's `Gemified` property: some modification of the card gemifies it. */
    predicate Gemified() reads this { AnyGemify(mods) }

    predicate HasAbility(a: Ability) reads this { a in abilities }

    function LacksAbility(a: Ability): (r: bool)
      reads this
      ensures r <==> a !in abilities
    {
      !HasAbility(a)
    }

    function HasAllAbilities(items: seq<Ability>): (r: bool)
      reads this
      ensures r <==> forall a :: a in items ==> a in abilities
    {
      HasAll(abilities, items)
    }

    function LacksAllAbilities(items: seq<Ability>): (r: bool)
      reads this
      ensures r <==> forall a :: a in items ==> a !in abilities
    {
      LacksAll(abilities, items)
    }

    function HasAnyOfAbilities(items: seq<Ability>): (r: bool)
      reads this
      ensures r <==> exists a :: a in items && a in abilities
    {
      HasAny(abilities, items)
    }

    predicate HasSpecialAbility(a: SpecialTriggeredAbility) reads this { a in specialAbilities }

    function LacksSpecialAbility(a: SpecialTriggeredAbility): (r: bool)
      reads this
      ensures r <==> a !in specialAbilities
    {
      !HasSpecialAbility(a)
    }

    function HasAllSpecialAbilities(items: seq<SpecialTriggeredAbility>): (r: bool)
      reads this
      ensures r <==> forall a :: a in items ==> a in specialAbilities
    {
      HasAll(specialAbilities, items)
    }

    function LacksAllSpecialAbilities(items: seq<SpecialTriggeredAbility>): (r: bool)
      reads this
      ensures r <==> forall a :: a in items ==> a !in specialAbilities
    {
      LacksAll(specialAbilities, items)
    }

    function HasAnyOfSpecialAbilities(items: seq<SpecialTriggeredAbility>): (r: bool)
      reads this
      ensures r <==> exists a :: a in items && a in specialAbilities
    {
      HasAny(specialAbilities, items)
    }

    predicate HasTrait(t: Trait) reads this { t in traits }

    function LacksTrait(t: Trait): (r: bool)
      reads this
      ensures r <==> t !in traits
    {
      !HasTrait(t)
    }

    function HasAllTraits(items: seq<Trait>): (r: bool)
      reads this
      ensures r <==> forall t :: t in items ==> t in traits
    {
      HasAll(traits, items)
    }

    function LacksAllTraits(items: seq<Trait>): (r: bool)
      reads this
      ensures r <==> forall t :: t in items ==> t !in traits
    {
      LacksAll(traits, items)
    }

    function HasAnyOfTraits(items: seq<Trait>): (r: bool)
      reads this
      ensures r <==> exists t :: t in items && t in traits
    {
      HasAny(traits, items)
    }

    predicate IsPelt() reads this { HasTrait(Pelt) }

    predicate IsTerrain() reads this { HasTrait(Terrain) }

    predicate HasCardMetaCategory(c: CardMetaCategory) reads this { c in metaCategories }

    function LacksCardMetaCategory(c: CardMetaCategory): (r: bool)
      reads this
      ensures r <==> c !in metaCategories
    {
      !HasCardMetaCategory(c)
    }

    function HasAnyOfCardMetaCategories(items: seq<CardMetaCategory>): (r: bool)
      reads this
      ensures r <==> exists c :: c in items && c in metaCategories
    {
      HasAny(metaCategories, items)
    }

    function LacksAllCardMetaCategories(items: seq<CardMetaCategory>): (r: bool)
      reads this
      ensures r <==> forall c :: c in items ==> c !in metaCategories
    {
      LacksAll(metaCategories, items)
    }

    predicate IsOfTribe(t: Tribe) reads this { t in tribes }

    function IsNotOfTribe(t: Tribe): (r: bool)
      reads this
      ensures r <==> t !in tribes
    {
      !IsOfTribe(t)
    }

    // -------------------------------------------------------------------
    // Extended properties
    // -------------------------------------------------------------------

    /** Stores `value?.ToString()` under the key, replacing what was there. */
    method SetExtendedProperty(key: string, value: PropertyValue)
      modifies this`extensionTable
      ensures extensionTable == old(extensionTable)[key := value.ToNullableString()]
      ensures GetExtendedProperty(key) == value.ToNullableString()
      ensures forall k :: k != key ==> Lookup(extensionTable, k) == Lookup(old(extensionTable), k)
    {
      extensionTable := extensionTable[key := value.ToNullableString()];
    }

    /** Null when the key is missing or holds null. */
    function GetExtendedProperty(key: string): (r: Option<string>)
      reads this
      ensures r.Some? ==> key in extensionTable && extensionTable[key] == r
      ensures r.None? <==> key !in extensionTable || extensionTable[key].None?
    {
      Lookup(extensionTable, key)
    }

    function GetExtendedPropertyAsBool(key: string): Option<bool>
      reads this
    {
      ParseBool(GetExtendedProperty(key))
    }

    method SetBaseGameCard(isBaseGameCard: bool := true)
      modifies this`extensionTable
      ensures extensionTable == old(extensionTable)[BaseGameCardKey := Some(BoolToString(isBaseGameCard))]
      ensures IsBaseGameCard() == isBaseGameCard
    {
      SetExtendedProperty(BaseGameCardKey, BoolValue(isBaseGameCard));
      ParseBoolRoundTrip(isBaseGameCard);
    }

    /** True only when the stored text parses as the boolean true. */
    function IsBaseGameCard(): (r: bool)
      reads this
      ensures r ==> GetExtendedProperty(BaseGameCardKey).Some?
      ensures r <==> GetExtendedPropertyAsBool(BaseGameCardKey) == Some(true)
    {
      GetExtendedPropertyAsBool(BaseGameCardKey) == Some(true)
    }

    method SetOldApiCard(isOldApiCard: bool := true)
      modifies this`extensionTable
      ensures extensionTable == old(extensionTable)[OldApiKey := Some(BoolToString(isOldApiCard))]
      ensures IsOldApiCard() == isOldApiCard
    {
      SetExtendedProperty(OldApiKey, BoolValue(isOldApiCard));
      ParseBoolRoundTrip(isOldApiCard);
    }

    function IsOldApiCard(): (r: bool)
      reads this
      ensures r ==> GetExtendedProperty(OldApiKey).Some?
      ensures r <==> GetExtendedPropertyAsBool(OldApiKey) == Some(true)
    {
      GetExtendedPropertyAsBool(OldApiKey) == Some(true)
    }

    method SetModTag(modGuid: Option<string>)
      modifies this`extensionTable
      ensures extensionTable == old(extensionTable)[ModTagKey := modGuid]
      ensures GetModTag() == modGuid
    {
      SetExtendedProperty(ModTagKey, if modGuid.Some? then StringValue(modGuid.value) else NullValue);
    }

    function GetModTag(): Option<string>
      reads this
    {
      GetExtendedProperty(ModTagKey)
    }

    method SetModPrefix(modPrefix: Option<string>)
      modifies this`extensionTable
      ensures extensionTable == old(extensionTable)[ModPrefixKey := modPrefix]
      ensures GetModPrefix() == modPrefix && ModPrefixIs(modPrefix)
    {
      SetExtendedProperty(ModPrefixKey, if modPrefix.Some? then StringValue(modPrefix.value) else NullValue);
    }

    function GetModPrefix(): Option<string>
      reads this
    {
      GetExtendedProperty(ModPrefixKey)
    }

    /** String equality in C#, where null equals only null. */
    predicate ModPrefixIs(prefix: Option<string>)
      reads this
    {
      GetModPrefix() == prefix
    }
  }

  /**
   * The quantifier helpers fit together: "has any of" is the negation of
   * "lacks all of", a one-element query is the single test, and a list of
   * items is required (or excluded) exactly when each of its parts is.
   */
  lemma CardPredicatesAgree(card: CardInfo, a: Ability, s: SpecialTriggeredAbility, t: Trait,
                            c: CardMetaCategory, abilities: seq<Ability>, traits: seq<Trait>, more: seq<Trait>)
    ensures card.HasAnyOfAbilities(abilities) <==> !card.LacksAllAbilities(abilities)
    ensures card.HasAnyOfTraits(traits) <==> !card.LacksAllTraits(traits)
    ensures card.HasAllAbilities([a]) == card.HasAnyOfAbilities([a]) == card.HasAbility(a)
    ensures card.LacksAllAbilities([a]) == card.LacksAbility(a)
    ensures card.HasAllSpecialAbilities([s]) == card.HasAnyOfSpecialAbilities([s]) == card.HasSpecialAbility(s)
    ensures card.LacksAllSpecialAbilities([s]) == card.LacksSpecialAbility(s)
    ensures card.HasAllTraits([t]) == card.HasAnyOfTraits([t]) == card.HasTrait(t)
    ensures card.LacksAllTraits([t]) == card.LacksTrait(t)
    ensures card.HasAnyOfCardMetaCategories([c]) == card.HasCardMetaCategory(c)
    ensures card.LacksAllCardMetaCategories([c]) == card.LacksCardMetaCategory(c)
    ensures card.HasAllTraits(traits + more) == (card.HasAllTraits(traits) && card.HasAllTraits(more))
    ensures card.LacksAllTraits(traits + more) == (card.LacksAllTraits(traits) && card.LacksAllTraits(more))
  {
  }

  // ---------------------------------------------------------------------
  // Lookup by name
  // ---------------------------------------------------------------------

  /** `cards.FirstOrDefault(c => c.name.Equals(name))` */
  function CardByName(cards: seq<CardInfo>, name: string): (r: Option<CardInfo>)
    reads set c | c in cards
    ensures r.Some? ==> exists i :: 0 <= i < |cards| && cards[i] == r.value && cards[i].name == name
                          && forall j :: 0 <= j < i ==> cards[j].name != name
    ensures r.None? <==> forall i :: 0 <= i < |cards| ==> cards[i].name != name
  {
    if cards == [] then None
    else if cards[0].name == name then Some(cards[0])
    else
      var rest := CardByName(cards[1..], name);
      assert forall i :: 1 <= i < |cards| ==> cards[i] == cards[1..][i - 1];
      rest
  }

  // ---------------------------------------------------------------------
  // Custom unlock checks (the CardManager's CustomCardUnlocks table)
  // ---------------------------------------------------------------------

  /** An unlock-check delegate, compared by identity. */
  datatype UnlockCheck = UnlockCheck(id: int)

  /** The table after `SetCustomUnlockCheck(card named name, check)`. */
  function UnlocksAfter(unlocks: map<string, Option<UnlockCheck>>, name: string, check: Option<UnlockCheck>)
    : map<string, Option<UnlockCheck>>
  {
    if check.None? && name in unlocks then unlocks - {name} else unlocks[name := check]
  }

  /**
   * A non-null check is installed under the card's name, overwriting any
   * earlier one; a null check removes an existing entry, but for a name
   * with no entry it is stored as a null entry. No other name changes.
   */
  lemma UnlocksAfterSpec(unlocks: map<string, Option<UnlockCheck>>, name: string, check: Option<UnlockCheck>)
    ensures check.Some? ==> name in UnlocksAfter(unlocks, name, check) && UnlocksAfter(unlocks, name, check)[name] == check
    ensures check.None? && name in unlocks ==> name !in UnlocksAfter(unlocks, name, check)
    ensures check.None? && name !in unlocks ==> UnlocksAfter(unlocks, name, check) == unlocks[name := None]
    ensures forall k :: k != name ==>
              (k in UnlocksAfter(unlocks, name, check) <==> k in unlocks)
              && (k in unlocks ==> UnlocksAfter(unlocks, name, check)[k] == unlocks[k])
  {
  }

  class CardManager {
    var customCardUnlocks: map<string, Option<UnlockCheck>>

    constructor ()
      ensures customCardUnlocks == map[]
    {
      customCardUnlocks := map[];
    }

    method SetCustomUnlockCheck(card: CardInfo, check: Option<UnlockCheck>)
      modifies this`customCardUnlocks
      ensures customCardUnlocks == UnlocksAfter(old(customCardUnlocks), card.name, check)
    {
      if check.None? && card.name in customCardUnlocks {
        customCardUnlocks := customCardUnlocks - {card.name};
      } else {
        if card.name !in customCardUnlocks {
          customCardUnlocks := customCardUnlocks[card.name := check];
        } else {
          customCardUnlocks := customCardUnlocks[card.name := check];
        }
      }
    }
  }
}
