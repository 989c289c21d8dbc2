# InscryptionAPI card, dialogue and cost-render core in Dafny

This project models three parts of the Inscryption modding API and its
community patch. It then proves what each part promises.

- **Card definitions** (`CardExtensions.cs`).
  - A `CardInfo` class holds the card's lists of abilities, appearances,
    decals, meta-categories, special abilities, traits and tribes.
  - The `Add*` and `Remove*` extension methods edit those lists in place.
    There are three list rules:
    - set-like insertion, which skips values already present;
    - plain append, used for abilities;
    - remove-every-occurrence versus remove-the-first-occurrence.
  - The presets (`SetRare`, `SetDefaultPart1Card`, `SetDefaultPart3Card`,
    `SetGBCPlayable`, `SetTerrain`, `SetPelt`, `SetGemify`) are built from
    these edits.
  - The numeric setters keep the old value for a null argument. Their
    parameters default to 0, so a call that leaves them out sets 0.
  - The flag arguments of `SetGemify`, `SetPelt`, `SetBaseGameCard` and
    `SetOldApiCard` default to true.
  - `SetName` applies the mod-prefix rule.
  - The extended-property table is a string-keyed map. The base-game,
    old-API, mod-tag and mod-prefix entries sit on top of it.
  - The `Has*`/`Lacks*`/`HasAll*`/`LacksAll*`/`HasAnyOf*` queries are
    functions.
  - The custom unlock-check registry is a map.
  - `CardByName` returns the first card with a given name.
- **Cost arithmetic on a card in play** (`CardExtensions.cs`).
  - `BloodCost` and `BonesCost` take the original cost, apply the blue-gem
    discount and add each temporary modification's adjustment, in a loop.
  - `GemsCost` builds the gem list in a loop: nullification, the union of
    added gems, and dropping the first gem when the blue gem is in use.
  - `GetPlayableCard` prunes dead weak references from the end of its list.
- **Dialogue registry** (`DialogueManager.cs`).
  - `Dialogues.DialogueManager` holds the custom dialogue list, the colour
    log and the colour lookup.
  - `Add` replaces an entry by id, in the registry and in the host's event
    list.
  - `AddColor` overwrites the lookup entry and appends to the log.
  - `GenerateEvent` and its trader-pelts and region-introduction wrappers
    build events under a naming rule.
  - The `ReadDialogueData` postfix appends the custom events and warns
    about duplicate ids.
  - The `GetColorFromCode` prefix is the hit-or-fall-through decision.
- **Act 1 cost decal** (`Part1CardCostRender.cs`).
  - `CostRender.TextureCache` is the `AssembledTextures` cache, which
    evicts null entries.
  - `CombineCostTextures` pads its argument in place to four entries.
  - The mox row is the present gems, in the fixed order green, blue,
    orange, left-padded with nulls to three.
  - The cost list is the mox block, then energy (clamped to 6), then bones
    (clamped to 14), then blood (clamped to 14), each one only when present.
  - `Part1SpriteFinal` draws each cost from the card in play when there is
    one.
  - The displayer patch overrides the sprite only for a 3D displayer in a
    scene whose name starts with "Part1".

Textures are symbolic:
- loading a file is a fixed function `load` of the file name;
- combining a strip of textures yields a `CostStrip` or `MoxStrip` value
  that records its parts.

Host state enters as explicit inputs:
- the gems each side holds, `GemPools`;
- the original blood and bones cost getters;
- the definition's own `GemsCost`, `EnergyCost`, `BonesCost` and
  `BloodCost` getters, shown when no card is in play;
- the `UpdateCardCost` subscribers, as one function;
- what `CustomLine.ToLine` does to the shared speaker list;
- the host's dialogue event list, `hostEvents`, where `None` stands for a
  null list.

Files:
- `wrappers.dfy`: `Option`.
- `text.dfy`: the .NET string rules used, such as prefix and whitespace
  tests, decimal rendering and `bool` parsing.
- `list_ops.dfy`: the generic list edits and their `foreach` loops.
- `card_info.dfy`: `CardInfo` and the unlock registry.
- `card_costs.dfy`: `PlayableCard`, the costs and `GetPlayableCard`.
- `dialogue.dfy`: the dialogue registry.
- `part1_cost_render.dfy`: the cost decal.

## Model

| member | source | states |
|---|---|---|
| ListOps.AddDistinctSpec | InscryptionAPI/Card/CardExtensions.cs:49-146 | The old list is a prefix of the result. Something is in the result exactly when it was in the list or among the items. Nothing appended was already there, and the appended part has no duplicates. |
| ListOps.AddDistinctPresent | InscryptionAPI/Card/CardExtensions.cs:49-146 | Adding only values already present leaves the list unchanged. |
| ListOps.AddDistinctNoDuplicates | InscryptionAPI/Card/CardExtensions.cs:49-146 | A list without duplicates stays without duplicates, even when the items repeat. |
| ListOps.AddDistinctConcat | InscryptionAPI/Card/CardExtensions.cs:49-146 | Adding `a + b` is adding `a` and then `b`. |
| ListOps.AddDistinctIdempotent | InscryptionAPI/Card/CardExtensions.cs:49-146 | Adding the same items twice is adding them once. |
| ListOps.AddEachDistinct | InscryptionAPI/Card/CardExtensions.cs:124-131 | The `foreach`/`Contains`/`Add` loop computes the set-like insertion `AddDistinct`. |
| ListOps.RemoveAllWithout | InscryptionAPI/Card/CardExtensions.cs:158-168 | One more `RemoveAll` pass filters one more value out. |
| ListOps.RemoveAllOfIsFilter | InscryptionAPI/Card/CardExtensions.cs:158-168 | Removing every occurrence of each argument in turn equals filtering out all the arguments at once. |
| ListOps.WithoutNothing | InscryptionAPI/Card/CardExtensions.cs:158-168 | Filtering out values the list does not hold changes nothing. |
| ListOps.WithoutSpec | InscryptionAPI/Card/CardExtensions.cs:158-168 | The filtered list holds exactly the old values that are not arguments, in their old relative order. |
| ListOps.RemoveAllOfSpec | InscryptionAPI/Card/CardExtensions.cs:158-311 | After the `Remove*` family, no argument is left. Every other value stays, in its old relative order. |
| ListOps.RemoveEachAll | InscryptionAPI/Card/CardExtensions.cs:158-168 | The `foreach`/`RemoveAll` loop computes `RemoveAllOf`. |
| ListOps.RemoveFirstAt | InscryptionAPI/Card/CardExtensions.cs:175-185 | `Remove(x)` deletes exactly the first occurrence of `x`. |
| ListOps.RemoveFirstAbsent | InscryptionAPI/Card/CardExtensions.cs:175-185 | `Remove(x)` of an absent value changes nothing. |
| ListOps.RemoveFirstMultiset | InscryptionAPI/Card/CardExtensions.cs:175-185 | `Remove(x)` takes away one copy of `x` when there is one. |
| ListOps.RemoveFirstSubsequence | InscryptionAPI/Card/CardExtensions.cs:175-185 | `Remove(x)` keeps the order of what is left. |
| ListOps.RemoveFirstLength | InscryptionAPI/Card/CardExtensions.cs:175-185 | `Remove(x)` shortens the list by one exactly when `x` was present. |
| ListOps.RemoveFirstOfMultiset | InscryptionAPI/Card/CardExtensions.cs:175-329 | The `*Single` removers take away one copy per listed argument: the multiset of what remains is the old multiset minus the arguments'. |
| ListOps.RemoveFirstOfLength | InscryptionAPI/Card/CardExtensions.cs:175-329 | The `*Single` removers shrink the list by at most the number of arguments. |
| ListOps.RemoveFirstOfSubsequence | InscryptionAPI/Card/CardExtensions.cs:175-329 | The `*Single` removers keep the order of what is left. |
| ListOps.NoDuplicatesCount | InscryptionAPI/Card/CardExtensions.cs:49-146 | A list without duplicates, such as one built only by set-like insertion, holds each value at most once. |
| ListOps.RemoveFirstOfClears | InscryptionAPI/Card/CardExtensions.cs:175-386 | On a duplicate-free list, the `*Single` removers leave none of the listed values. |
| ListOps.RemoveEachFirst | InscryptionAPI/Card/CardExtensions.cs:175-185 | The `foreach`/`Remove` loop computes `RemoveFirstOf`. |
| ListOps.HasAll | InscryptionAPI/Card/CardExtensions.cs:1527-1535 | True exactly when every item is in the list. |
| ListOps.LacksAll | InscryptionAPI/Card/CardExtensions.cs:1543-1551 | True exactly when no item is in the list. |
| ListOps.HasAny | InscryptionAPI/Card/CardExtensions.cs:1559-1567 | True exactly when some item is in the list. |
| ListOps.SubsequenceTrans | InscryptionAPI/Card/CardExtensions.cs:337-348 | "Keeps relative order" composes across successive removals. |
| Text.NatToStringInjective | InscryptionCommunityPatch/Card/Part1CardCostRender.cs:86-94 | Different cost levels render to different decimal strings, so no two glyph file names collide. |
| Text.ParseBool | InscryptionAPI/Card/CardExtensions.cs:2265-2269 | `TryParse` yields true exactly for "true" and false exactly for "false", in any letter case. In this model it fails for null and for every other text, untrimmed (see "## Left out"). |
| Text.ParseBoolRoundTrip | InscryptionAPI/Card/CardExtensions.cs:416-431 | What `bool.ToString` writes, `TryParse` reads back as the same value. |
| Cards.ClearGemify | InscryptionAPI/Card/CardExtensions.cs:560-568 | Every modification is kept, with its gemify flag cleared. |
| Cards.GemifiedModsSpec | InscryptionAPI/Card/CardExtensions.cs:560-568 | `SetGemify` makes the card gemified exactly when asked to. It adds at most one modification and changes nothing else in the existing ones. |
| Cards.PrefixedNameSpec | InscryptionAPI/Card/CardExtensions.cs:484-488 | The name becomes `prefix + "_" + name` exactly when the prefix is non-empty and the name does not already start with it. Otherwise the name is kept. With a non-empty prefix, the result always starts with the prefix. |
| Cards.PrefixedNameIdempotent | InscryptionAPI/Card/CardExtensions.cs:484-488 | Setting the name twice with the same prefix equals setting it once. |
| Cards.RareMetaCategoriesSpec | InscryptionAPI/Card/CardExtensions.cs:623-635 | Rare becomes present. One occurrence each of ChoiceNode, TraderOffer and Part3Random is removed. On a duplicate-free list, none of the three is left. |
| Cards.DefaultPart1CategoriesSpec | InscryptionAPI/Card/CardExtensions.cs:577-586 | Afterwards the card is Rare or has both ChoiceNode and TraderOffer. A list made rare first is left as it is. |
| Cards.DefaultPart3CategoriesSpec | InscryptionAPI/Card/CardExtensions.cs:593-602 | Afterwards the card is Rare or has both ChoiceNode and Part3Random. A list made rare first is left as it is. |
| Cards.RemoveTribesAsWrittenKeepsTribe | InscryptionAPI/Card/CardExtensions.cs:356-367 | A card with no traits and one tribe keeps that tribe when it is removed, contrary to one-copy-per-argument removal. |
| Cards.RemoveTribesIntended | InscryptionAPI/Card/CardExtensions.cs:356-367 | The code as written agrees with the corrected removal whenever the card has traits. The corrected removal takes away one copy per argument and keeps order. |
| Cards.CardInfo.AddAbilities | InscryptionAPI/Card/CardExtensions.cs:36-41 | Abilities stack: the new list is the old list followed by the arguments, in order. Afterwards `HasAllAbilities` holds for the arguments. |
| Cards.CardInfo.AddAppearances | InscryptionAPI/Card/CardExtensions.cs:49-56 | The appearances become the set-like insertion of the arguments. |
| Cards.CardInfo.AddDecal | InscryptionAPI/Card/CardExtensions.cs:64-72 | The decals become the set-like insertion of the arguments. |
| Cards.CardInfo.AddDecalPaths | InscryptionAPI/Card/CardExtensions.cs:80-86 | Each path is loaded, in order, and inserted set-like. A null path list changes nothing. |
| Cards.CardInfo.AddMetaCategories | InscryptionAPI/Card/CardExtensions.cs:94-101 | The meta-categories become the set-like insertion of the arguments. Afterwards the card has each of them. |
| Cards.CardInfo.AddSpecialAbilities | InscryptionAPI/Card/CardExtensions.cs:109-116 | The special abilities become the set-like insertion of the arguments. Afterwards `HasAllSpecialAbilities` holds for them. |
| Cards.CardInfo.AddTraits | InscryptionAPI/Card/CardExtensions.cs:124-131 | The traits become the set-like insertion of the arguments. Afterwards `HasAllTraits` holds for them. |
| Cards.CardInfo.AddTribes | InscryptionAPI/Card/CardExtensions.cs:139-146 | The tribes become the set-like insertion of the arguments. Afterwards the card is of each tribe. |
| Cards.CardInfo.RemoveAbilities | InscryptionAPI/Card/CardExtensions.cs:158-168 | A non-empty ability list loses every occurrence of each argument. An empty one is left alone. Either way, `LacksAllAbilities` then holds for the arguments. |
| Cards.CardInfo.RemoveAbilitiesSingle | InscryptionAPI/Card/CardExtensions.cs:175-185 | A non-empty ability list loses the first occurrence of each argument. On a duplicate-free list, `LacksAllAbilities` then holds for them. |
| Cards.CardInfo.RemoveSpecialAbilities | InscryptionAPI/Card/CardExtensions.cs:193-203 | A non-empty special-ability list loses every occurrence of each argument. `LacksAllSpecialAbilities` then holds for them. |
| Cards.CardInfo.RemoveSpecialAbilitiesSingle | InscryptionAPI/Card/CardExtensions.cs:211-221 | A non-empty special-ability list loses the first occurrence of each argument. On a duplicate-free list, `LacksAllSpecialAbilities` then holds for them. |
| Cards.CardInfo.RemoveAppearances | InscryptionAPI/Card/CardExtensions.cs:229-239 | A non-empty appearance list loses every occurrence of each argument. |
| Cards.CardInfo.RemoveAppearancesSingle | InscryptionAPI/Card/CardExtensions.cs:247-257 | A non-empty appearance list loses the first occurrence of each argument. |
| Cards.CardInfo.RemoveDecals | InscryptionAPI/Card/CardExtensions.cs:265-275 | A non-empty decal list loses every occurrence of each argument. |
| Cards.CardInfo.RemoveDecalsSingle | InscryptionAPI/Card/CardExtensions.cs:283-293 | A non-empty decal list loses the first occurrence of each argument. |
| Cards.CardInfo.RemoveMetaCategories | InscryptionAPI/Card/CardExtensions.cs:301-311 | A non-empty meta-category list loses every occurrence of each argument. `LacksAllCardMetaCategories` then holds for them. |
| Cards.CardInfo.RemoveMetaCategoriesSingle | InscryptionAPI/Card/CardExtensions.cs:319-329 | A non-empty meta-category list loses the first occurrence of each argument. On a duplicate-free list, `LacksAllCardMetaCategories` then holds for them. |
| Cards.CardInfo.RemoveTraits | InscryptionAPI/Card/CardExtensions.cs:337-348 | A non-empty trait list loses the first occurrence of each argument. On a duplicate-free list, `LacksAllTraits` then holds for them. |
| Cards.CardInfo.RemoveTribesAsWritten | InscryptionAPI/Card/CardExtensions.cs:356-367 | As written: the tribes lose the first occurrence of each argument only when the card has traits. |
| Cards.CardInfo.RemoveTribes | InscryptionAPI/Card/CardExtensions.cs:356-367 | Corrected: the tribes lose the first occurrence of each argument. On a duplicate-free list, `IsNotOfTribe` then holds for each. |
| Cards.CardInfo.RemoveCardMetaCategories | InscryptionAPI/Card/CardExtensions.cs:375-386 | A non-empty meta-category list loses the first occurrence of each argument. On a duplicate-free list, `LacksAllCardMetaCategories` then holds for them. |
| Cards.CardInfo.SetBasic | InscryptionAPI/Card/CardExtensions.cs:401-408 | Displayed name, attack, health and description take the given values. A left-out description is null. |
| Cards.CardInfo.SetCardTemple | InscryptionAPI/Card/CardExtensions.cs:459-463 | The temple takes the given value. |
| Cards.CardInfo.SetBaseAttackAndHealth | InscryptionAPI/Card/CardExtensions.cs:442-451 | Each stat takes the given value, and a null argument keeps the old value. A left-out argument is 0. |
| Cards.CardInfo.SetDisplayedName | InscryptionAPI/Card/CardExtensions.cs:471-475 | A null or all-whitespace name becomes the empty string. Otherwise the given name is used. |
| Cards.CardInfo.SetName | InscryptionAPI/Card/CardExtensions.cs:484-488 | The name follows the prefix rule and starts with any non-empty prefix. |
| Cards.CardInfo.SetNames | InscryptionAPI/Card/CardExtensions.cs:498-502 | Both the prefix rule for the name and the whitespace rule for the displayed name apply. |
| Cards.CardInfo.SetSpecialAbilities | InscryptionAPI/Card/CardExtensions.cs:510-514 | The list is replaced by the arguments, or emptied for null. |
| Cards.CardInfo.SetTraits | InscryptionAPI/Card/CardExtensions.cs:535-539 | The list is replaced by the arguments, or emptied for null. |
| Cards.CardInfo.SetTribes | InscryptionAPI/Card/CardExtensions.cs:548-552 | The list is replaced by the arguments, or emptied for null. |
| Cards.CardInfo.SetGemify | InscryptionAPI/Card/CardExtensions.cs:560-568 | The modifications become `GemifiedMods`, and the card is gemified exactly when asked. |
| Cards.CardInfo.SetBloodCost | InscryptionAPI/Card/CardExtensions.cs:985-990 | The blood cost takes the given value, and null keeps the old one. A left-out argument is 0. |
| Cards.CardInfo.SetBonesCost | InscryptionAPI/Card/CardExtensions.cs:998-1003 | The bones cost takes the given value, and null keeps the old one. A left-out argument is 0. |
| Cards.CardInfo.SetEnergyCost | InscryptionAPI/Card/CardExtensions.cs:1011-1016 | The energy cost takes the given value, and null keeps the old one. A left-out argument is 0. |
| Cards.CardInfo.SetGemsCost | InscryptionAPI/Card/CardExtensions.cs:1024-1028 | The gem list is replaced by the given list, or emptied for null or a left-out argument. |
| Cards.CardInfo.SetGemsCostOf | InscryptionAPI/Card/CardExtensions.cs:1035-1039 | The `params` overload: the gems become the arguments, in order. |
| Cards.CardInfo.SetCost | InscryptionAPI/Card/CardExtensions.cs:971-977 | All four costs follow their single setters. Left-out numeric costs are 0, and left-out gems empty the list. |
| Cards.CardInfo.SetRare | InscryptionAPI/Card/CardExtensions.cs:623-635 | The meta-categories follow `RareMetaCategories`, the rare background is inserted set-like, and the complexity becomes Intermediate. Afterwards Rare and the rare background are present. |
| Cards.CardInfo.SetDefaultPart1Card | InscryptionAPI/Card/CardExtensions.cs:577-586 | Without Rare, the card gets the choice-node and trader categories and Simple complexity. With Rare, the complexity is kept. The temple is always Nature. |
| Cards.CardInfo.SetDefaultPart3Card | InscryptionAPI/Card/CardExtensions.cs:593-602 | Without Rare, the card gets the choice-node and Part3Random categories and Simple complexity. With Rare, the complexity is kept. The temple is always Tech. |
| Cards.CardInfo.SetGBCPlayable | InscryptionAPI/Card/CardExtensions.cs:610-615 | GBCPack and GBCPlayable are inserted set-like, and the temple is set. |
| Cards.CardInfo.SetTerrain | InscryptionAPI/Card/CardExtensions.cs:645-650 | The Terrain trait and the terrain background and layout are inserted set-like, so `IsTerrain` holds afterwards. |
| Cards.CardInfo.SetTerrainLayout | InscryptionAPI/Card/CardExtensions.cs:656-663 | The Terrain trait is inserted, so `IsTerrain` holds, and the layout is inserted only when asked. |
| Cards.CardInfo.SetPelt | InscryptionAPI/Card/CardExtensions.cs:670-677 | The Pelt trait and the terrain appearances are inserted, so `IsPelt` holds. SpawnLice is inserted, and then present, only when asked (the default). |
| Cards.CardInfo.HasAllAbilities | InscryptionAPI/Card/CardExtensions.cs:1527-1535 | True exactly when every listed ability is present. |
| Cards.CardInfo.LacksAllAbilities | InscryptionAPI/Card/CardExtensions.cs:1543-1551 | True exactly when no listed ability is present. |
| Cards.CardInfo.HasAnyOfAbilities | InscryptionAPI/Card/CardExtensions.cs:1559-1567 | True exactly when some listed ability is present. |
| Cards.CardInfo.HasAllSpecialAbilities | InscryptionAPI/Card/CardExtensions.cs:1601-1609 | True exactly when every listed special ability is present. |
| Cards.CardInfo.LacksAllSpecialAbilities | InscryptionAPI/Card/CardExtensions.cs:1617-1625 | True exactly when no listed special ability is present. |
| Cards.CardInfo.HasAnyOfSpecialAbilities | InscryptionAPI/Card/CardExtensions.cs:1633-1641 | True exactly when some listed special ability is present. |
| Cards.CardInfo.HasAllTraits | InscryptionAPI/Card/CardExtensions.cs:1662-1670 | True exactly when every listed trait is present. |
| Cards.CardInfo.LacksAllTraits | InscryptionAPI/Card/CardExtensions.cs:1678-1686 | True exactly when no listed trait is present. |
| Cards.CardInfo.HasAnyOfTraits | InscryptionAPI/Card/CardExtensions.cs:1694-1702 | True exactly when some listed trait is present. |
| Cards.CardInfo.HasAnyOfCardMetaCategories | InscryptionAPI/Card/CardExtensions.cs:1737-1745 | True exactly when some listed category is present. |
| Cards.CardInfo.LacksAllCardMetaCategories | InscryptionAPI/Card/CardExtensions.cs:1753-1761 | True exactly when no listed category is present. |
| Cards.CardPredicatesAgree | InscryptionAPI/Card/CardExtensions.cs:1516-1761 | `HasAnyOf*` is the negation of `LacksAll*`. A one-element `HasAll*`, `HasAnyOf*` or `LacksAll*` query is the single `Has*` or `Lacks*` test. `HasAllTraits` and `LacksAllTraits` split over a concatenated list. |
| Cards.CardInfo.SetExtendedProperty | InscryptionAPI/Card/CardExtensions.cs:2217-2221 | The key maps to the value's text, or to null. Reading it back returns that, and every other key reads as before. |
| Cards.CardInfo.GetExtendedProperty | InscryptionAPI/Card/CardExtensions.cs:2229-2233 | Null exactly when the key is missing or holds null. Otherwise the stored text. |
| Cards.CardInfo.SetBaseGameCard | InscryptionAPI/Card/CardExtensions.cs:416-420 | The flag's text is stored, and `IsBaseGameCard` then reads back the flag. |
| Cards.CardInfo.IsBaseGameCard | InscryptionAPI/Card/CardExtensions.cs:427-431 | True exactly when the stored text parses (`GetExtendedPropertyAsBool`) as true. |
| Cards.CardInfo.SetOldApiCard | InscryptionAPI/Card/CardExtensions.cs:2332-2336 | The flag's text is stored, and `IsOldApiCard` then reads back the flag. |
| Cards.CardInfo.IsOldApiCard | InscryptionAPI/Card/CardExtensions.cs:2338-2342 | True exactly when the stored text parses as true. |
| Cards.CardInfo.SetModTag | InscryptionAPI/Card/CardExtensions.cs:2281-2285 | The tag is stored, and `GetModTag` returns it. |
| Cards.CardInfo.SetModPrefix | InscryptionAPI/Card/CardExtensions.cs:2303-2307 | The prefix is stored, and `GetModPrefix` returns it, so `ModPrefixIs` holds for it. |
| Cards.CardByName | InscryptionAPI/Card/CardExtensions.cs:21 | Returns a card with the given name that no earlier card shares. Null exactly when no card has that name. |
| Cards.UnlocksAfterSpec | InscryptionAPI/Card/CardExtensions.cs:1491-1503 | A given check is stored under the card's name. A null check removes an existing entry, or records null when there was none. Other names are untouched. |
| Cards.CardManager.SetCustomUnlockCheck | InscryptionAPI/Card/CardExtensions.cs:1491-1503 | The registry becomes `UnlocksAfter` of the old registry. |
| PlayableCards.PlayableCard.HasAllTraits | InscryptionAPI/Card/CardExtensions.cs:1925-1933 | True exactly when every listed trait is in the definition. |
| PlayableCards.PlayableCard.LacksAllTraits | InscryptionAPI/Card/CardExtensions.cs:1943-1951 | True exactly when no listed trait is in the definition. |
| PlayableCards.PlayableCard.HasAnyOfTraits | InscryptionAPI/Card/CardExtensions.cs:1961-1969 | True exactly when some listed trait is in the definition. |
| PlayableCards.PlayableCard.HasAllAbilities | InscryptionAPI/Card/CardExtensions.cs:2032-2040 | True exactly when every listed ability is in the definition. |
| PlayableCards.PlayableCard.LacksAllAbilities | InscryptionAPI/Card/CardExtensions.cs:2050-2058 | True exactly when no listed ability is in the definition. |
| PlayableCards.PlayableCard.HasAnyOfAbilities | InscryptionAPI/Card/CardExtensions.cs:2068-2076 | True exactly when some listed ability is in the definition. |
| PlayableCards.PlayableCard.HasAllSpecialAbilities | InscryptionAPI/Card/CardExtensions.cs:2113-2121 | True exactly when every listed special ability is in the definition. |
| PlayableCards.PlayableCard.LacksAllSpecialAbilities | InscryptionAPI/Card/CardExtensions.cs:2131-2139 | True exactly when no listed special ability is in the definition. |
| PlayableCards.PlayableCard.HasAnyOfSpecialAbilities | InscryptionAPI/Card/CardExtensions.cs:2149-2157 | True exactly when some listed special ability is in the definition. |
| PlayableCards.PlayableCard.AllSpecialAbilities | InscryptionAPI/Card/CardExtensions.cs:1878-1883 | A special ability is listed exactly when some temporary or definition modification grants it. |
| PlayableCards.PlayableCard.AllSpecialAbilitiesIntended | InscryptionAPI/Card/CardExtensions.cs:1872-1883 | Corrected: a special ability is listed exactly when a modification grants it or the definition lists it. |
| PlayableCards.AllSpecialAbilitiesMissesDefinition | InscryptionAPI/Card/CardExtensions.cs:1872-1883 | As written: a special ability only the definition lists is reported by `HasSpecialAbility` but missing from `AllSpecialAbilities`. |
| PlayableCards.AllSpecialAbilitiesIntendedSpec | InscryptionAPI/Card/CardExtensions.cs:1872-1883 | The corrected list holds every special ability `HasSpecialAbility` reports, every definition special ability, and everything the as-written list holds. |
| PlayableCards.ModSpecialAbilities | InscryptionAPI/Card/CardExtensions.cs:1878-1883 | The collected list holds exactly the special abilities some modification grants. |
| PlayableCards.TemporarySpecialAbilityOnlySeenSingly | InscryptionAPI/Card/CardExtensions.cs:2099-2157 | A special ability granted only by a temporary modification satisfies `HasSpecialAbility`, but the `HasAll*`/`HasAnyOf*` queries do not see it. |
| PlayableCards.PlayableQueriesLookThrough | InscryptionAPI/Card/CardExtensions.cs:1901-2157 | Each trait, tribe and `HasAll*`/`LacksAll*`/`HasAnyOf*` query on a card in play equals the same query on its definition. `HasSpecialAbility` holds exactly when the definition or a temporary modification grants the ability, and `LacksSpecialAbility` implies the definition lacks it. A player card uses the player's gems, any other the opponent's. |
| PlayableCards.SumAdjustmentsConcat | InscryptionAPI/Card/CardExtensions.cs:2371-2414 | The adjustment sums add over concatenated modification lists. |
| PlayableCards.BloodCost | InscryptionAPI/Card/CardExtensions.cs:2371-2390 | The loop computes `BloodCostOf`: the original cost, less one when the blue gem is in use, plus every temporary adjustment. A null card costs 0. |
| PlayableCards.BonesCost | InscryptionAPI/Card/CardExtensions.cs:2397-2414 | The loop computes `BonesCostOf` by the same rule for bones. |
| PlayableCards.BlueGemDiscount | InscryptionAPI/Card/CardExtensions.cs:2371-2414 | Without the blue gem, the cost is the original plus the adjustments. With it in use, blood and bones are each exactly one less. |
| PlayableCards.UngemifiedPaysFull | InscryptionAPI/Card/CardExtensions.cs:2371-2390 | A card gemified nowhere pays the original cost plus the adjustments, whatever gems its owner holds. |
| PlayableCards.TemporaryModAdds | InscryptionAPI/Card/CardExtensions.cs:2371-2390 | Extra temporary modifications add their adjustments to the cost. |
| PlayableCards.AddedGemsMember | InscryptionAPI/Card/CardExtensions.cs:2421-2448 | A gem is among the added gems exactly when some modification adds it. |
| PlayableCards.GemsCost | InscryptionAPI/Card/CardExtensions.cs:2421-2448 | The loop-and-append computes `GemsCostOf`. |
| PlayableCards.GemsCostSpec | InscryptionAPI/Card/CardExtensions.cs:2421-2448 | Any nullifying modification gives no gems. Otherwise the result is the base gems followed by each added gem not yet present, with the first dropped when non-empty and the blue gem is in use. A duplicate-free base stays duplicate-free. |
| PlayableCards.LastLive | InscryptionAPI/Card/CardExtensions.cs:2352-2365 | The index found is live, and every later reference is dead. |
| PlayableCards.CostProperties.GetPlayableCard | InscryptionAPI/Card/CardExtensions.cs:2352-2365 | The result is the last live reference registered for the definition, or null. The registry becomes `PrunedRegistry` of the old one: the list is truncated just after its last live reference. An unknown definition changes nothing. |
| PlayableCards.PrunedRegistrySpec | InscryptionAPI/Card/CardExtensions.cs:2352-2365 | Pruning touches only the card's own list. It keeps a prefix ending in a live reference, or nothing, and the live card found stays the same. Pruning twice equals pruning once. |
| Dialogues.DropIdSpec | InscryptionAPI/Dialogue/DialogueManager.cs:38 | `RemoveAll` by id leaves no entry with that id. It keeps exactly the other entries, in order, and shortens the list by their count. |
| Dialogues.DropIdIdempotent | InscryptionAPI/Dialogue/DialogueManager.cs:38 | Removing by the same id twice equals removing once. |
| Dialogues.DropIdAppend | InscryptionAPI/Dialogue/DialogueManager.cs:38 | Removing by id distributes over an appended entry. |
| Dialogues.ReplaceByIdSpec | InscryptionAPI/Dialogue/DialogueManager.cs:38-42 | After replacing, the new entry is last and is the only one with its id. The entries with other ids are those before, in the same order. |
| Dialogues.ReplaceByIdTwice | InscryptionAPI/Dialogue/DialogueManager.cs:38-39 | Adding twice under one id leaves the length one addition gives. |
| Dialogues.MakeEventSpec | InscryptionAPI/Dialogue/DialogueManager.cs:60-73 | The event is named `name`. Main line `i` is given line `i` with the default speaker, and line `j` of repeat set `i` is line `j` of given set `i` with the default speaker. A null argument gives no lines, and the given repeat behaviour is kept. |
| Dialogues.MakeEventSpeakers | InscryptionAPI/Dialogue/DialogueManager.cs:64-69 | The event's speakers are the list seeded with `Single` and handed to every `ToLine` call, main lines first. With no lines, or a `ToLine` that adds nothing, the list is `[Single]`. With a `ToLine` that only adds, it starts with `Single`. |
| Dialogues.EventIdsDistinct | InscryptionAPI/Dialogue/DialogueManager.cs:79-91 | The trader-pelts ids start with "TraderPelts" and the region ids with "Region". Each family is injective, and the two never collide. |
| Dialogues.ColorDecision | InscryptionAPI/Dialogue/DialogueManager.cs:134-144 | The original runs exactly when the code is not registered. On a hit, the result is the registered colour. On a miss, it is untouched. |
| Dialogues.RegisteredColorWins | InscryptionAPI/Dialogue/DialogueManager.cs:47-58 | After `AddColor`, the prefix overrides with the newest colour for that code. |
| Dialogues.DuplicateWarnings | InscryptionAPI/Dialogue/DialogueManager.cs:118-127 | There is at most one warning per custom dialogue. |
| Dialogues.DuplicateWarningsSpec | InscryptionAPI/Dialogue/DialogueManager.cs:118-127 | A warning is issued exactly for each custom dialogue whose id the host list already had. There are none when no id clashes. |
| Dialogues.EventsOf | InscryptionAPI/Dialogue/DialogueManager.cs:120-125 | Event `i` is the event of custom dialogue `i`, one per dialogue, in order. |
| Dialogues.DialogueManager.constructor | InscryptionAPI/Dialogue/DialogueManager.cs:26-28 | The registry, colour log and lookup start empty, and the host list and the `ToLine` speaker effect are the given ones. |
| Dialogues.DialogueManager.Add | InscryptionAPI/Dialogue/DialogueManager.cs:30-45 | The new entry holds the plug-in and event. The registry is replaced by id, so the new entry is last and the only one with its id. The host list is replaced by id too, and left null when null. |
| Dialogues.DialogueManager.AddColor | InscryptionAPI/Dialogue/DialogueManager.cs:47-58 | The lookup maps the code to the new colour and keeps the other codes. The log grows by exactly the new record. |
| Dialogues.DialogueManager.GenerateEvent | InscryptionAPI/Dialogue/DialogueManager.cs:60-73 | The result is `MakeEvent` of the arguments with id `name`, and it is registered through `Add`. Left-out repeat lines are null, the repeat behaviour defaults to RandomDefinedRepeat and the default speaker to Single. |
| Dialogues.DialogueManager.GenerateTraderPeltsEvent | InscryptionAPI/Dialogue/DialogueManager.cs:79-82 | The event is named `"TraderPelts" + tier` and registered. |
| Dialogues.DialogueManager.GenerateTraderPeltsEventForPelt | InscryptionAPI/Dialogue/DialogueManager.cs:75-78 | The tier is the pelt's own name when set, and the host's derived name otherwise. |
| Dialogues.DialogueManager.GenerateRegionIntroductionEvent | InscryptionAPI/Dialogue/DialogueManager.cs:88-91 | The event is named `"Region" + name` and registered. |
| Dialogues.DialogueManager.GenerateRegionIntroductionEventForRegion | InscryptionAPI/Dialogue/DialogueManager.cs:84-87 | The event is named after the region's object name. |
| Dialogues.DialogueManager.ReadDialogueDataPostfix | InscryptionAPI/Dialogue/DialogueManager.cs:116-128 | Every custom event is appended, duplicates included, so the host list grows by the registry's length. The warnings are those `DuplicateWarnings` gives for the ids present beforehand. |
| Dialogues.DialogueManager.GetColorFromCodePrefix | InscryptionAPI/Dialogue/DialogueManager.cs:134-144 | Returns false with the stored colour exactly when the parsed code is registered. Otherwise returns true and leaves the result untouched. |
| CostRender.PadSpec | InscryptionCommunityPatch/Card/Part1CardCostRender.cs:26-27 | Padding reaches the target length. Left padding keeps the list as a suffix and right padding as a prefix, only nulls are added, and a long list is untouched. |
| CostRender.MoxKeysSpec | InscryptionCommunityPatch/Card/Part1CardCostRender.cs:68-75 | The mox glyphs keep the order green, blue, orange. Each appears exactly when that gem is in the cost. There are at most three, and some whenever there are gems. |
| CostRender.ConcatRankSorted | InscryptionCommunityPatch/Card/Part1CardCostRender.cs:61-94 | Joining ordered runs whose ranks increase across the join keeps them ordered. |
| CostRender.CostComponentsOrder | InscryptionCommunityPatch/Card/Part1CardCostRender.cs:61-94 | The components run mox, energy, bones, blood, in that order, with at most four. |
| CostRender.CostComponentsMox | InscryptionCommunityPatch/Card/Part1CardCostRender.cs:61-82 | The mox block appears exactly when there are gems, and it is the three-slot row. |
| CostRender.CostComponentsGlyphs | InscryptionCommunityPatch/Card/Part1CardCostRender.cs:84-94 | Each of energy, bones and blood appears exactly when positive, at level `min(6, energy)`, `min(14, bones)` or `min(14, blood)`. |
| CostRender.CostComponentsMembers | InscryptionCommunityPatch/Card/Part1CardCostRender.cs:61-94 | A component is present exactly when it is the mox block or one of the three positive glyphs. |
| CostRender.MoxRowLength | InscryptionCommunityPatch/Card/Part1CardCostRender.cs:77-78 | The mox row always has three slots. |
| CostRender.GlyphKeyInjective | InscryptionCommunityPatch/Card/Part1CardCostRender.cs:86-94 | Different glyphs have different texture keys, so the cache never confuses them. |
| CostRender.RenderAll | InscryptionCommunityPatch/Card/Part1CardCostRender.cs:61-94 | One texture per component, in order. |
| CostRender.RenderAllAppend | InscryptionCommunityPatch/Card/Part1CardCostRender.cs:81-94 | Each `list.Add` extends the rendered list by the new component's texture. |
| CostRender.MoxRowRender | InscryptionCommunityPatch/Card/Part1CardCostRender.cs:65-81 | The loaded mox glyphs, left-padded with nulls, are the mox block's texture row. |
| CostRender.TextureCache.constructor | InscryptionCommunityPatch/Card/Part1CardCostRender.cs:18 | The cache starts empty. |
| CostRender.TextureCache.GetTextureByName | InscryptionCommunityPatch/Card/Part1CardCostRender.cs:38-51 | A cached non-null texture is returned and the cache is unchanged. A null or missing entry is (re)loaded. Afterwards the key maps to the returned texture, other keys are unchanged, and the result is always the file's texture. |
| CostRender.AppendGlyph | InscryptionCommunityPatch/Card/Part1CardCostRender.cs:84-94 | Appending a glyph's cached texture extends the list to the rendering of one more component. |
| CostRender.TextureList.constructor | InscryptionCommunityPatch/Card/Part1CardCostRender.cs:58 | A texture list holding the given entries. |
| CostRender.CombineCostTextures | InscryptionCommunityPatch/Card/Part1CardCostRender.cs:24-30 | The argument is padded in place with nulls to four, keeping what it held, and the strip is built from the padded list. |
| CostRender.CostTextures | InscryptionCommunityPatch/Card/Part1CardCostRender.cs:58-94 | The list built is the rendering of `CostComponents` for the four costs. |
| CostRender.AppendMox | InscryptionCommunityPatch/Card/Part1CardCostRender.cs:68-75 | Each present gem appends its cached glyph. |
| CostRender.PadMoxFront | InscryptionCommunityPatch/Card/Part1CardCostRender.cs:77-78 | The `Insert(0, null)` loop yields `3 - n` nulls followed by the glyphs. |
| CostRender.MoxTexture | InscryptionCommunityPatch/Card/Part1CardCostRender.cs:62-82 | The mox texture is the render of the three-slot mox row. |
| CostRender.ShownCosts | InscryptionCommunityPatch/Card/Part1CardCostRender.cs:61-92 | Each cost comes from the card in play when there is one. Otherwise it comes from the definition's cost getters. |
| CostRender.FinishDecal | InscryptionCommunityPatch/Card/Part1CardCostRender.cs:97-100 | The subscribers edit the list, which is then padded to four and combined. |
| CostRender.FindPlayableCard | InscryptionCommunityPatch/Card/Part1CardCostRender.cs:55 | The card in play is the last live reference registered for the definition. The registry is pruned as `GetPlayableCard` prunes it. |
| CostRender.DecalFor | InscryptionCommunityPatch/Card/Part1CardCostRender.cs:58-100 | The sprite is the `Decal` of the components shown for that card. |
| CostRender.Part1SpriteFinal | InscryptionCommunityPatch/Card/Part1CardCostRender.cs:53-104 | The sprite is the `Decal` of the components shown for the definition's live card in play. The texture cache stays consistent, and the registry is pruned as `GetPlayableCard` prunes it. |
| CostRender.SceneGuard | InscryptionCommunityPatch/Card/Part1CardCostRender.cs:111 | The 3D displayer is taken over in every scene named "Part1" followed by anything, and never in a "Part3" scene. No other displayer is taken over, and a scene that is taken over has a name beginning with "Part1". |
| CostRender.Part1CardCostDisplayerPatch | InscryptionCommunityPatch/Card/Part1CardCostRender.cs:108-119 | The original runs exactly when the override does not apply, and then the result, cache and registry are untouched. Otherwise the result is the Act 1 decal, and the registry is pruned as `GetPlayableCard` prunes it. |

## Left out

- Pixels: textures, `CombineTextures` and `ConvertTexture` are engine image work.
  - A texture is symbolic: a loaded file or a combined strip.
  - The base images "empty_cost.png" and "mox_cost_empty.png" and the offsets `COST_OFFSET` (28) and `MOX_OFFSET` (21) live only in the strip constructors.
- `CostRender.CombineMoxTextures`: is the symbolic `MoxStrip` of its argument and carries no contract of its own.
- `CostRender.Part1SpriteFinal`: computes the four costs before fetching any texture. The source interleaves them. The cost computations read no cache state, so the result and the final cache agree with the source's order.
- `CostRender.MoxTexture`: requires a non-empty gem list, because the source runs that block only under `gemsCost.Count > 0`.
- `UpdateCardCost` subscribers are a single function from the card and list to a new list. Multicast delegates and in-place edits by handlers are not modelled.
- Host getters are not modelled:
  - `PlayableCard.EnergyCost` is a stored field;
  - `CostProperties.OriginalBloodCost` and `OriginalBonesCost` are function inputs;
  - `OwnerHasBlueGem`'s queries of the resource and opponent gem managers are the `GemPools` input.
- `PlayableCards.CostProperties.GetPlayableCard`: garbage collection of `WeakReference` targets is not modelled. Dead references are `None` entries given in the input.
- `PlayableCards.BloodCost`, `PlayableCards.BonesCost`: the error logging for a null card is left out. The returned 0 is modelled.
- `Dialogues.DialogueManager.ReadDialogueDataPostfix`: requires the host's event list to be non-null, because the source dereferences it unconditionally. The warnings are returned instead of logged.
- `Dialogues.DialogueManager.GetColorFromCodePrefix`: `DialogueParser.GetStringValue` is host code, so its result enters as the `parsedCode` argument.
- `CustomLine.ToLine` is API code outside the modelled files. A converted line is modelled as the custom line plus the default speaker. Its effect on the shared speaker list is an input (`SpeakerStep`), so the speakers it adds are not modelled.
- Null lists on a card are identified with empty lists. For the `Add*` and `Remove*` methods this loses nothing: the adders allocate a list where the source finds null, and the removers skip a null list as they skip an empty one.
- `Cards.CardInfo.SetDefaultPart1Card`, `Cards.CardInfo.SetDefaultPart3Card`: the source calls `metaCategories.Contains` and throws on a null list. The model treats that list as empty.
- `Cards.CardInfo.RemoveTribesAsWritten`: when the card has traits, the source's tribe test throws on a null tribe list. The model treats that list as empty.
- `PlayableCards.GemsCost`: `new(card.Info.gemsCost)` throws on a null gem list. The model treats that list as empty.
- `Cards.CardInfo.SetGemsCostOf`: `gemsCost.ToList()` throws when null is passed explicitly for the `params` array. The model takes a sequence, which is never null.
- Other throw paths are not modelled; each argument below is a sequence or a value that cannot be null:
  - every `Add*` and `Remove*` method throws on an explicit null `params` array (`AddRange(null)` in `AddAbilities`, the `foreach` in the others);
  - `Cards.CardByName` throws on a card with a null name before the match, because it calls `c.name.Equals(name)`, and card names here are never null;
  - `Dialogues.DialogueManager.GenerateEvent` throws on a null line or a null inner repeat set.
- `CostRender.Part1SpriteFinal`, `CostRender.Part1CardCostDisplayerPatch`: a cached texture the engine has since destroyed is outside the model. Their `cache.Valid()` precondition rules that state out. Only `GetTextureByName`'s own contract covers the eviction branch.
- `Cards.CardInfo.SetGemify`: the source clears the flag on the modification objects themselves, so other holders of the same objects see the change too. The model replaces the card's list of values, so no other holder can observe it.
- `Cards.CardInfo.SetGemsCost`: the source stores the caller's list object, so later edits through either reference are shared. The model stores a copy of the values.
- `PlayableCards.BloodCost`, `PlayableCards.BonesCost`: the sums use unbounded integers. The source's 32-bit `int` arithmetic would wrap past 2147483647. Card costs and adjustments stay far below that bound.
- `Cards.CardInfo.HasSpecialAbility`: the host's `SpecialAbilities` getter is not part of this model. The queries read the card's own `specialAbilities` list in its place.
- `Cards.CardInfo.Gemified`: the host's `Gemified` property, which `PlayableCard.IsGemified` reads, is not part of this model. It is taken as "some modification of the definition gemifies it" (`AnyGemify`).
- `CostRender.ShownComponents`: the definition's cost getters that the decal falls back on are opaque `HostView` functions, as the getters for a card in play are. How the host derives them from the stored fields is not modelled.
- `string.StartsWith` is modelled as an ordinal prefix test. `bool.TryParse` is modelled as an ASCII case-insensitive match of "true"/"false", without trimming whitespace.
- `GetExtendedPropertyAsInt` and `GetExtendedPropertyAsFloat` are left out: they parse numbers with the host's culture rules.
- `SetStatIcon`, the evolve, ice-cube and tail setters with their delayed loading, the portrait families, `SpawnInHand` and `PlayDialogueEventSafe` are left out. They are engine assets, host event plumbing or coroutines.
- The host predicates `CardInfo.HasAbility`, `HasTrait` and `IsOfTribe`, and `PlayableCard.HasAbility`/`LacksAbility`, are host or `AbilitiesUtil` code. The card's own predicates are modelled as list membership, and the two `PlayableCard` ability checks are left out.
- Harmony patching is left out. The prefix and postfix bodies are modelled as methods over explicit inputs.
- Colours and mods' extra fields are opaque values.

## Findings

| source | as written | input that shows it | evidently intended | confidence | as-written member | corrected member |
|---|---|---|---|---|---|---|
| InscryptionAPI/Card/CardExtensions.cs:1872-1883 | `AllSpecialAbilities` collects only the modifications' special abilities and never reads the definition's own | a card in play with no modifications whose definition lists `a`: `HasSpecialAbility(a)` holds, but `a` is not in `AllSpecialAbilities()` | what the method's documentation promises: the modifications' special abilities and the definition's own, as `AllAbilities` at 1868 appends `Info.Abilities` | not executed | PlayableCards.PlayableCard.AllSpecialAbilities, PlayableCards.AllSpecialAbilitiesMissesDefinition | PlayableCards.PlayableCard.AllSpecialAbilitiesIntended, PlayableCards.AllSpecialAbilitiesIntendedSpec |
| InscryptionAPI/Card/CardExtensions.cs:356-367 | `RemoveTribes` tests whether `traits` is non-empty before removing tribes | a card with no traits and tribes `[t]`, then `RemoveTribes(t)`: the tribe stays | test the tribe list, so each listed tribe loses one copy | not executed | Cards.CardInfo.RemoveTribesAsWritten, Cards.RemoveTribesAsWrittenKeepsTribe | Cards.CardInfo.RemoveTribes, Cards.RemoveTribesIntended |
