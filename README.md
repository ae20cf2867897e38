# RPG Maker MZ gameplay plugins, modelled in Dafny

This project models the gameplay cores of a set of RPG Maker MZ plugins.

**Quest ledger** (`QuestSystem.dfy`). `QuestManager` keeps two dictionaries:
- a status per quest id: active, ready to turn in, or completed;
- a progress count per quest id.

Three calls change the ledger:
- `addQuest` starts a quest;
- `addProgress` advances it, clamped at its requirement;
- `completeQuest` ends it. On completion every party member gains the quest's experience and the quest's rewards are handed out in list order.

Around the ledger sit the party's own `addQuest` guard, the quest-list filter and the turn-in button. Each operation returns the names of the sound effects it plays, in order.

**Item storage** (`BankStorage.dfy`). A storage box counts items per id and drops an id once its count is no longer positive. Deposit and withdraw each move one unit between the party and the box. Loading a save that has no box gives an empty one.

**Crafting** (`Crafting.dfy`). This covers the learned-recipe set, the `canCraft` check, and the consumption of ingredients and grant of the result in `onCraft`. It also covers each workbench's recipe list and title.

**Custom equipment slots** (`EquipSlots.dfy`). This covers:
- the fourteen-slot table and its slot names;
- the two equip checks;
- the parameter-sum evaluation and the best-item search;
- the list of equippable items;
- the `optimizeEquip` and `clearEquip` loops.

**Item rarity** (`ItemRarity.dfy`). This covers:
- the `<rarity:…>` note tag;
- the colour of each rarity;
- the pass that annotates the item, weapon and armor databases on load;
- the colour `drawItemName` draws a name in.

**Map lighting** (`Lighting.dfy`). This covers:
- hex colour decoding, with JavaScript's `parseInt(…, 16)` spelled out;
- the three comment-tag scanners of an event page (`<lightRadius:N>`, `<lightColor:#hhhhhh>`, `<lightFlicker:true>`);
- the one-shot creation of event lights.

**Battle lighting** (`BattleLighting.dfy`). This covers:
- the darkness opacity, read from the map note;
- the deferred, one-shot creation of one light per battler sprite;
- the per-frame loop that shows or hides each light.

**Region blocker** (`RegionBlocker.dfy`). This covers the blocked-region list, read from the plugin parameter, and the player's passability check.

**Shared modules.**
- `Common.dfy` holds the database records and item keys, the collecting loop over optional slots, and the in-place pass over a database array.
- `PartyState.dfy` holds the host party: inventory, gold, each member's experience and its own quest table.
- `JsText.dfy` holds the string and regular-expression helpers: trimming of JavaScript white space, ASCII lower-casing, digit runs, and first-match scanning.

Engine services the plugins call are either parameters or simple state:
- the base `canEquip`, `canPass`, `regionId` and `roundX/YWithDirection` are function parameters;
- the window's `normalColor()`, which `drawItemName` calls, is the colour parameter `normalColor` of `ItemRarity.ItemNameColor`;
- `gainItem`, `loseItem`, `gainGold` and `gainExp` are plain additions on the party;
- `changeEquip` stores the item in the slot.

State that the source changes in place is a class with `modifies` clauses:
- `QuestManager`, `Party`, `SimpleItemStorage`, `CraftingManager`, `Actor`, `MapLighting`, `BattleLighting` and `Light`;
- the database table of the load pass, which is an `array`.

Each method is proved against a function of the old state. The properties are proved about those functions.

The code and its own doc comment disagree on one point, and the model follows the code. The doc comment at `JosoQuestSystem_Core.js:76` says experience is split evenly among members. The code at line 175 gives every member the full amount (`ApplyXp`).

## Model

| member | source | states |
|---|---|---|
| QuestSystem.GetStatus | JosoQuestSystem_Core.js:212-215 | the status is "none" exactly for an untracked id, and otherwise the stored status name |
| QuestSystem.ApplyXp | JosoQuestSystem_Core.js:173-176 | every member's experience grows by the full xp when xp > 0; otherwise nothing changes |
| QuestSystem.AddQuestKeepsValid | JosoQuestSystem_Core.js:149-160 | addQuest keeps the ledger invariants: the id list has no duplicates and holds exactly the tracked ids, which are catalog ids; a progress entry exists exactly for the quests not completed; a ready quest has reached its goal. With goals >= 0 it also keeps progress within each goal |
| QuestSystem.AddProgressKeepsValid | JosoQuestSystem_Core.js:232-249 | addProgress keeps the ledger invariants and the bound progress <= goal |
| QuestSystem.CompleteQuestKeepsValid | JosoQuestSystem_Core.js:162-166 | completeQuest keeps the ledger invariants and the bound progress <= goal |
| QuestSystem.ListFilter | JosoQuestSystem_Core.js:359-363 | the filtered list holds exactly the given ids whose status is active or readyToTurnIn |
| QuestSystem.QuestManager.constructor | JosoQuestSystem_Core.js:138-146 | the ledger starts empty over the given catalog |
| QuestSystem.QuestManager.AddQuest | JosoQuestSystem_Core.js:149-160 | the new ledger and the sounds played are those of the ledger function addQuest; the invariants hold |
| QuestSystem.QuestManager.AddProgress | JosoQuestSystem_Core.js:232-249 | the new ledger and the sounds played follow the ledger function addProgress, with value 1 by default; the invariants hold |
| QuestSystem.QuestManager.CompleteQuest | JosoQuestSystem_Core.js:162-200 | the ledger becomes the completed ledger; the party gains exactly the completion grants; the quest's completion sound is played when it has one; the invariants hold |
| QuestSystem.QuestManager.TurnIn | JosoQuestSystem_Core.js:672-701 | for a non-empty id of a known quest, it completes the quest only when progress >= (required or 1), granting the completion rewards; otherwise the ledger and the party are unchanged, and the buzzer is played for a known quest |
| QuestSystem.GrantXp | JosoQuestSystem_Core.js:174-176 | the loop over members gives each member xp, and leaves items, gold and quests alone |
| QuestSystem.GrantCompletion | JosoQuestSystem_Core.js:168-194 | the party gains the quest's experience, when positive, then its reward lines in order |
| QuestSystem.GrantRewards | JosoQuestSystem_Core.js:178-194 | the loop over rewards leaves the party in the state of the reward function applied in list order |
| QuestSystem.PartyAddQuestTo | JosoQuestSystem_Core.js:118-127 | the party table and the ledger follow the party's addQuest guard; inventory, gold and experience are unchanged |
| QuestSystem.AddQuestEffect | JosoQuestSystem_Core.js:149-160 | a known, untracked quest becomes active with progress 0, is appended to the id list and plays the accept sound; anything else leaves the ledger; other ids keep their status; a second call changes nothing |
| QuestSystem.AddProgressEffect | JosoQuestSystem_Core.js:232-249 | only an active quest moves; progress becomes min(old + value, goal); it is ready exactly when the goal is reached, and the ready cue plays exactly then |
| QuestSystem.CompleteQuestEffect | JosoQuestSystem_Core.js:162-166 | from active or ready, the quest becomes completed with progress reading 0; otherwise nothing changes and nothing is granted; a second call changes nothing and grants nothing |
| QuestSystem.TurnInCompletesOnlyReady | JosoQuestSystem_Core.js:679-700 | with the invariants, turn-in changes the ledger exactly when the quest is ready, which completes it; an active quest is refused |
| QuestSystem.ApplyRewardAmounts | JosoQuestSystem_Core.js:179-193 | one reward adds its gold (default 0) or its item count (default 1) to the right kind; an unknown type changes nothing |
| QuestSystem.ApplyRewardsTotals | JosoQuestSystem_Core.js:178-194 | the rewards add the sum of their gold lines and, per item key, the sum of their units |
| QuestSystem.ApplyXpTotal | JosoQuestSystem_Core.js:173-176 | the party's total experience grows by the member count times xp, not by xp once |
| QuestSystem.CompletionGrantsTotals | JosoQuestSystem_Core.js:168-194 | a completion grants full xp per member, the total gold and the total units per item |
| QuestSystem.ReadyCueAtMostOnce | JosoQuestSystem_Core.js:243-247 | over any sequence of calls, the ready cue for a quest plays at most once, and never again once the quest is ready |
| QuestSystem.CompletionAtMostOnce | JosoQuestSystem_Core.js:164-166 | over any sequence of calls, a quest is completed, and its rewards granted, at most once |
| QuestSystem.AllQuestIdsTracked | JosoQuestSystem_Core.js:222-225 | the id list holds exactly the tracked ids, completed ones included |
| QuestSystem.QuestListShowsOpen | JosoQuestSystem_Core.js:359-363 | the quest list holds exactly the active and ready quests |
| QuestSystem.ListFilterAppend | JosoQuestSystem_Core.js:360-363 | filtering distributes over concatenation, so the list keeps the ledger's order |
| QuestSystem.ListFilterSameListed | JosoQuestSystem_Core.js:360-363 | the list depends only on which ids are listed |
| QuestSystem.AddQuestAppendsToList | JosoQuestSystem_Core.js:155-157 | starting a new quest appends it at the end of the quest list |
| QuestSystem.PartyAddQuestOnce | JosoQuestSystem_Core.js:123-126 | the party forwards an id to the ledger only the first time it sees it; the call is idempotent |
| QuestSystem.GatherApplesScenario | JosoQuestSystem_QuestData.js:94-104 | for the shipped quest: four apples are refused at turn-in with the buzzer; the fifth makes it ready with the cue; turning in completes it with 100 xp each, item 7 and 200 gold |
| Party.AddItem | JosoQuestSystem_Core.js:182-188 | the host's gainItem adds the amount to one key's count and leaves every other key's count alone |
| Party.Party.GainItem | JosoCraftingSystem_Core.js:385 | the party's items become those of AddItem; nothing else changes |
| Party.Party.LoseItem | JosoCraftingSystem_Core.js:376 | the party's items lose the amount of that key; nothing else changes |
| Party.Party.GainGold | JosoQuestSystem_Core.js:191 | gold grows by the amount; nothing else changes |
| Party.Party.GainExp | JosoQuestSystem_Core.js:175 | one member's experience grows by the amount; nothing else changes |
| BankStorage.Gain | JosoBankStorageSystem.js:47-52 | no item changes nothing; otherwise one id's count moves by amount and is deleted when no longer positive; other ids are untouched; positive boxes stay positive |
| BankStorage.MinOf | JosoBankStorageSystem.js:59 | the least key of a non-empty key set |
| BankStorage.SortedKeys | JosoBankStorageSystem.js:59 | the keys of the box in strictly ascending order (the enumeration order of integer keys), each exactly once |
| BankStorage.EntriesForContents | JosoBankStorageSystem.js:58-63 | entries exist exactly for the ids with a database record, with their counts, in ascending id order |
| BankStorage.AllItemsContents | JosoBankStorageSystem.js:58-63 | allItems yields one entry per stored id with a record, with its stored count, ascending; ids without a record are dropped |
| BankStorage.SimpleItemStorage.constructor | JosoBankStorageSystem.js:43-45 | a new box is empty |
| BankStorage.SimpleItemStorage.GainItem | JosoBankStorageSystem.js:47-52 | the box becomes Gain of the old box |
| BankStorage.LoadStorage | JosoBankStorageSystem.js:31-40 | a saved box is restored; without one the box starts empty |
| BankStorage.OnItemDeposit | JosoBankStorageSystem.js:169-173 | when the party holds none, nothing changes; otherwise the party loses one, the box gains one, and the combined count is conserved |
| BankStorage.OnItemWithdraw | JosoBankStorageSystem.js:179-186 | no entry or qty <= 0 refuses and changes nothing; otherwise the box loses one, the party gains one, and the combined count is conserved |
| BankStorage.DepositThenWithdraw | JosoBankStorageSystem.js:169-186 | a deposit then a withdrawal of the same item restores both the party and the box |
| Crafting.FindRecipe | JosoCraftingSystem_Core.js:93 | finds a catalog recipe with the id, and None exactly when the catalog has none |
| Crafting.Learn | JosoCraftingSystem_Core.js:98-100 | adding to the learned set: members are the old ones plus id, no duplicates, learning twice is learning once |
| Crafting.Without | JosoCraftingSystem_Core.js:102-104 | deleting from the learned set: members are the old ones except id |
| Crafting.ResultKey | JosoCraftingSystem_Core.js:379-382 | the result is chosen by itemId, then weaponId, then armorId, and is absent when none is set or the record is missing |
| Crafting.ConsumeTakesNeeded | JosoCraftingSystem_Core.js:374-377 | consuming the lines leaves each key short by the total its lines ask for |
| Crafting.DuplicateLinesCheckedSeparately | JosoCraftingSystem_Core.js:129-132 | lines are checked one by one: two lines of 1 pass against a count of 1, though together they ask for 2 |
| Crafting.RecipeListMembers | JosoCraftingSystem_Core.js:165 | the workbench list holds exactly the learned catalog recipes of its type |
| Crafting.WorkbenchTitle | JosoCraftingSystem_Core.js:395-402 | the title is "Crafting Menu" exactly for a type other than the three known workbenches |
| Crafting.CraftingManager.constructor | JosoCraftingSystem_Core.js:89-90 | the learned set starts empty over the recipe catalog |
| Crafting.CraftingManager.LearnRecipe | JosoCraftingSystem_Core.js:98-100 | the learned set becomes Learn of the old set |
| Crafting.CraftingManager.ForgetRecipe | JosoCraftingSystem_Core.js:102-104 | the learned set becomes Without of the old set |
| Crafting.CraftingManager.GetLearnedRecipes | JosoCraftingSystem_Core.js:106-108 | lists the learned set, each id once |
| Crafting.LearnForgetEffect | JosoCraftingSystem_Core.js:92-104 | an id not in the catalog is never learned; learning makes a catalog recipe learned; forgetting leaves an auto-learn recipe learned; other ids are unaffected |
| Crafting.OnCraft | JosoCraftingSystem_Core.js:367-392 | succeeds exactly for a present, craftable recipe; a refusal changes nothing; success consumes the lines, then grants the result |
| Crafting.CraftTotals | JosoCraftingSystem_Core.js:374-386 | after a craft, each key's count is the old count minus what the lines ask for, plus the result quantity on the result key |
| Crafting.NeededOfDistinctLines | JosoCraftingSystem_Core.js:129-132 | with lines for distinct items, a key's total need is its one line's quantity, or 0 |
| Crafting.CraftKeepsCountsNonNegative | JosoCraftingSystem_Core.js:127-133 | with distinct lines, passing canCraft means consumption leaves no count negative |
| Crafting.ShippedLearning | JosoCraftingSystem_Recipes.js:101-113 | in the shipped catalog, recipes 1 and 3 are learned from the start, and recipe 2 only once it is learned |
| Crafting.ShippedBlacksmithList | JosoCraftingSystem_Recipes.js:87-129 | the blacksmith lists recipes 1 and 3, and all three once recipe 2 is learned |
| EquipSlots.EquipSlotsCopy | JosoCustomEquipSlots.js:92-114 | equipSlots returns a fresh 14-entry copy of the slot table |
| EquipSlots.SlotName | JosoCustomEquipSlots.js:119-141 | the i-th slot name for 0 <= i < 14, and "Unknown" otherwise |
| EquipSlots.CanEquip | JosoCustomEquipSlots.js:151-157 | no item is always allowed; otherwise the base check decides |
| EquipSlots.SlotSymbol | JosoCustomEquipSlots.js:167 | the slot value is a number exactly for an index inside the table, and undefined otherwise |
| EquipSlots.IsEquipChangeOkComparesWithFive | JosoCustomEquipSlots.js:162-178 | as written, the check holds exactly for no item or an item of equipment type 5, whatever the slot |
| EquipSlots.IsEquipChangeOkIntended | JosoCustomEquipSlots.js:162-178 | the intended check refuses any item for a slot outside the table |
| EquipSlots.EquipChangeCheckDiffers | JosoCustomEquipSlots.js:176-177 | the intended check accepts exactly the slot's own type; as written, a sword is refused in slot 0 and a type-5 item is accepted there |
| EquipSlots.EvalEquipItem | JosoCustomEquipSlots.js:195-207 | the loop gives 0 for no item, and otherwise the sum of the first eight parameters, with missing ones counted as 0 |
| EquipSlots.ParamSumPrefix | JosoCustomEquipSlots.js:202-204 | parameters past the eighth do not count |
| EquipSlots.ParamSumMonotone | JosoCustomEquipSlots.js:202-204 | raising parameters never lowers the evaluation |
| EquipSlots.OfTypeMembers | JosoCustomEquipSlots.js:214 | the filter keeps exactly the items whose type equals the slot value |
| EquipSlots.BestIndex | JosoCustomEquipSlots.js:220-229 | the chosen index has the greatest value, and every earlier item is worth strictly less |
| EquipSlots.BestEquipItemChoice | JosoCustomEquipSlots.js:212-231 | the best item has the slot's type, is equippable, and no equippable item of that type is worth more; there is none exactly when no item has the type |
| EquipSlots.BestEquipItem | JosoCustomEquipSlots.js:212-231 | the running-best loop returns the first item of greatest value of the type |
| EquipSlots.AcceptedMembers | JosoCustomEquipSlots.js:239-249 | keeps exactly the items the actor can equip |
| EquipSlots.EquippableItems | JosoCustomEquipSlots.js:236-252 | the accepted weapons, then the accepted armors, in the party's order |
| EquipSlots.OptimizedChoiceShifted | JosoCustomEquipSlots.js:183-190 | as written, slots 2 to 12 get the best item of the next slot's type, and the relic slot never gets one |
| EquipSlots.IntendedChoiceCorrect | JosoCustomEquipSlots.js:183-190 | the intended choice for each slot is the best equippable item of that slot's own type |
| EquipSlots.HelmetExample | JosoCustomEquipSlots.js:187 | as written, a helmet the party holds is not put on, whereas the intended choice picks it |
| EquipSlots.Actor.constructor | JosoCustomEquipSlots.js:112-114 | a new actor has fourteen empty slots |
| EquipSlots.Actor.ChangeEquip | JosoCustomEquipSlots.js:188 | the engine's changeEquip stores the item in the slot |
| EquipSlots.Actor.OptimizeEquip | JosoCustomEquipSlots.js:183-190 | as written, each slot receives the item the search returns when given that slot's type as a slot index |
| EquipSlots.Actor.OptimizeEquipBySlot | JosoCustomEquipSlots.js:183-190 | corrected, each slot receives the best item of its own type |
| EquipSlots.Actor.ClearEquip | JosoCustomEquipSlots.js:257-263 | every slot is emptied |
| ItemRarity.RarityColor | JosoItemRarity.js:66-75 | white exactly for common or an unknown rarity; the result is always one of the five colours |
| ItemRarity.LazyClose | JosoItemRarity.js:85 | the lazy (.+?)> stops at the first > after at least one character, with no line terminator in between |
| ItemRarity.LazyCloseFinds | JosoItemRarity.js:85 | the lazy match finds that first > |
| ItemRarity.RarityAtIff | JosoItemRarity.js:85 | the capture at a position is exactly the text of a rarity tag there, with the header in either letter case |
| ItemRarity.GetRarity | JosoItemRarity.js:80-87 | "common" for no entry or an empty note; the result has no upper-case letter |
| ItemRarity.GetRarityOfNote | JosoItemRarity.js:85-86 | the first tag's text, trimmed and lower-cased; "common" when the note has no tag |
| ItemRarity.RarityExample | JosoItemRarity.js:85-86 | `<Rarity: Epic >` reads as epic |
| ItemRarity.AnnotateIdempotent | JosoItemRarity.js:99 | annotating an entry twice is annotating it once |
| ItemRarity.OnLoad | JosoItemRarity.js:93-103 | for items, weapons and armors every present entry gets its rarity and empty slots stay empty; other databases are untouched |
| Common.MapPresent | JosoItemRarity.js:97-101 | the pass over a database array: in place, every present slot becomes the function of its value and every empty slot stays empty |
| ItemRarity.ItemNameColor | JosoItemRarity.js:108-117 | nothing is drawn for no item; a set rarity draws in that rarity's colour, an unset one in the normal colour |
| ItemRarity.LoadedEntryColor | JosoItemRarity.js:99-113 | after loading, an entry without a tag is drawn white, not in the normal colour |
| ItemRarity.TaggedEntryColor | JosoItemRarity.js:85-113 | after loading, an entry whose first tag reads a text is drawn in the colour of that text trimmed and lower-cased; a tag that trims to nothing leaves the normal colour |
| ItemRarity.BlankTagColor | JosoItemRarity.js:85-113 | `<rarity:   >` sets an empty rarity, so the name is drawn in the normal colour |
| Lighting.HexToRgb | JosoLightningSystem.js:290-307 | null exactly when the stripped, expanded text does not parse as hex; otherwise every channel is a byte |
| Lighting.ParseIntHexDigits | JosoLightningSystem.js:296 | parseInt of a run of hex digits is the exact value of the run (JavaScript agrees below 2^53) |
| Lighting.SixDigitHex | JosoLightningSystem.js:291-306 | for six hex digits the channels are the three digit pairs, with or without the # |
| Lighting.ThreeDigitHex | JosoLightningSystem.js:292-294 | for three hex digits each channel is 17 times its digit |
| Lighting.HexToRgbNaN | JosoLightningSystem.js:296-300 | text whose first character, after one stripped `#`, is neither white space, a sign nor a hex digit gives null |
| Lighting.PartialHexIsLenient | JosoLightningSystem.js:296 | parseInt stops at the first non-hex character: "#ff00zz" gives (0, 255, 0) |
| Lighting.HexRoundTrip | JosoLightningSystem.js:290-307 | every byte colour written as #rrggbb decodes back to itself |
| Lighting.Comments | JosoLightningSystem.js:199-200 | the comment lines are no more than the commands |
| Lighting.CommentsMembers | JosoLightningSystem.js:199-200 | the comment lines are exactly the texts of commands with code 108 or 408 |
| Lighting.CommentsAppend | JosoLightningSystem.js:199-200 | the comment lines distribute over concatenation, so they keep page order |
| Lighting.LightRadius | JosoLightningSystem.js:189-197 | no event or no page gives radius 0 |
| Lighting.LightRadiusFirstTag | JosoLightningSystem.js:202-206 | the radius is the number in the first line that carries a radius tag (tag name in any case) |
| Lighting.LightRadiusNoTag | JosoLightningSystem.js:209 | with no tag on any line the radius is 0 |
| Lighting.ColorAtIff | JosoLightningSystem.js:227 | a colour match is exactly the case-sensitive colour tag with # and six hex digits |
| Lighting.LightColor | JosoLightningSystem.js:213-234 | null with no event or page; a colour is always # followed by six hex digits |
| Lighting.LightColorFirstTag | JosoLightningSystem.js:226-231 | the colour is that of the first line carrying a colour tag |
| Lighting.LightColorDecodes | JosoLightningSystem.js:268-306 | a colour read from a tag is never rejected by hexToRgb, and decodes to its three pairs |
| Lighting.LightFlicker | JosoLightningSystem.js:237-245 | no event or no page means no flicker |
| Lighting.LightFlickerIff | JosoLightningSystem.js:247-256 | an event flickers exactly when some comment line contains the flicker tag, in any case |
| Lighting.LightForColor | JosoLightningSystem.js:144-148 | a light takes its tag's colour, and white when the event has no colour tag |
| Lighting.LightsAppend | JosoLightningSystem.js:136-152 | the lights of two runs of events are the lights of each, in order |
| Lighting.LightsContents | JosoLightningSystem.js:136-152 | the lights are exactly those of the present events with positive radius, each built from its event |
| Lighting.MapLighting.constructor | JosoLightningSystem.js:118-119 | no lights and not yet initialized |
| Lighting.MapLighting.Update | JosoLightningSystem.js:134-154 | lights are built once, when there is a map: afterwards, or without a map, nothing changes; otherwise the lights are those of the events and the flag is set |
| BattleLighting.DarknessOpacity | JosoLightningSystem_Battle.js:67-75 | always in [0, 255], and 0 without a map |
| BattleLighting.NoNoteNoDarkness | JosoLightningSystem_Battle.js:72 | a missing note gives 0 |
| BattleLighting.DarknessOfNote | JosoLightningSystem_Battle.js:72-74 | a note with no tag gives 0; otherwise the first tag's number capped at 255 |
| BattleLighting.Light.constructor | JosoLightningSystem_Battle.js:97-121 | a new light is visible at the origin with opacity 180 |
| BattleLighting.BattleLighting.constructor | JosoLightningSystem_Battle.js:81-92 | no lights, creation pending, and the darkness opacity of the map |
| BattleLighting.BattleLighting.CreateLightsLater | JosoLightningSystem_Battle.js:126-139 | nothing happens, and creation stays pending, until the actor sprites exist; then one new light per actor sprite and then per enemy sprite, in order, and never again |
| BattleLighting.BattleLighting.Update | JosoLightningSystem_Battle.js:146-169 | runs the pending creation, refreshes the darkness, and leaves each light shown over its sprite exactly when the sprite is present, visible and has a bitmap; an existing light keeps its opacity and a new one has 180 |
| BattleLighting.Light.Follow | JosoLightningSystem_Battle.js:160-166 | one light of the loop: over a shown sprite it becomes visible at the sprite's position, half its height up; otherwise it is hidden where it is, and its opacity is unchanged |
| BattleLighting.BattleLighting.UpdateLights | JosoLightningSystem_Battle.js:158-168 | a light over a shown sprite becomes visible at the sprite's position, half its height up; other lights are hidden where they were; opacity is unchanged |
| RegionBlocker.NumberOfDecimal | JosoRegionBlocker.js:64 | Number of a region id's decimal text is that id |
| RegionBlocker.BlockedRegions | JosoRegionBlocker.js:64 | a missing parameter gives the empty list; otherwise each parsed entry is converted by Number, in order |
| RegionBlocker.ListedRegionIsBlocked | JosoRegionBlocker.js:64 | a region written in the list, as text or number, is in the blocked list |
| RegionBlocker.CanPass | JosoRegionBlocker.js:66-73 | other characters keep the base check; the player passes only where the base check allows |
| RegionBlocker.PlayerCanPassIff | JosoRegionBlocker.js:67-72 | the player passes exactly when the destination's region is not blocked and the base check allows |
| RegionBlocker.OnlyDestinationMatters | JosoRegionBlocker.js:68-70 | only the region of the destination tile, one step in direction d, is looked at |
| RegionBlocker.MissingParameterBlocksNothing | JosoRegionBlocker.js:64 | with no parameter the player moves as the base check allows |
| RegionBlocker.ListedRegionStopsPlayer | JosoRegionBlocker.js:71 | a listed region stops the player, whatever the base check says |

## Left out

- Audio: an operation returns the names of the sound effects it plays. Volume, pitch and playback are not modelled.
- Window and scene layout, drawing, icons, fonts, background sprites and text wrapping are not modelled. The quest detail window is not part of this model either: it calls a party `completeQuest` that does not exist.
- `Game_Actor.maxSlots` is not modelled: it refers to a `SLOT_SYMBOLS` that the file never defines.
- The `setTimeout` that re-activates the turn-in buttons is not modelled. It only affects presentation.
- `callQuestWindow` and the offer scene's accept button are not modelled. They are scene navigation.
- Engine clamping is not modelled:
  - `Party.Party.GainItem`: counts are plain addition, without the engine's clamp to [0, max];
  - `Party.Party.GainGold`: gold is plain addition, without the engine's clamp to [0, max];
  - `Party.Party.LoseItem`: counts are plain subtraction, without the engine's stop at 0;
  - `Party.Party.GainExp`: experience is plain addition, without levels or experience rates.
  - Two proved statements depend on this. With duplicate ingredient lines, `Crafting.CraftTotals` lets a count of 1 end at -1, where the game's second `loseItem` stops at 0. `BankStorage.OnItemWithdraw` conserves the combined count, but in the game a withdrawal into a party already at the maximum loses the unit.
- Dictionaries keyed by id are Dafny maps:
  - a quest id spelled like an `Object.prototype` member (such as "constructor") reads as untracked;
  - the quest id list is kept in insertion order, so integer-like quest ids are not moved ahead of the others the way JavaScript's key order would move them.
- Text is handled per character:
  - lower-casing and the `/i` flag fold ASCII letters only;
  - strings are sequences of characters, not UTF-16 code units.
- Save files are not modelled beyond the "missing box gives an empty box" fallback. `makeSaveContents` and `Object.assign` of saved fields are not modelled.
- JSON and plugin parameters are given rather than parsed: `JSON.parse` and `PluginManager.parameters` are abstract, and the parsed array is an input of `RegionBlocker.BlockedRegions`.
- `RegionBlocker.JsonEntry`: a parsed entry is a string or an integer. JSON `null`, `true`, `false` and fractions such as `1.5`, which `Number` turns into 0, 1, 0 and 1.5, cannot be written. The editor's `number[]` parameter always stores strings.
- `Lighting.HexToRgb`: `parseInt` gives the exact value of the digit run, not the double JavaScript rounds it to above 2^53, and the shifts apply to that exact value. So from 14 hex digits on the channels can differ: `"#ffffffffffffff"` is white here but `{0, 0, 0}` in JavaScript. The lighting code itself only passes 7-character colours.
- `Lighting.ParseIntHexDigits`: the value of a digit run is exact, which JavaScript's `parseInt` matches only below 2^53.
- `Lighting.LightRadius`: the radius of a `<lightRadius:N>` tag is the exact value of its digits. `Number` rounds a run worth more than 2^53 to a double, and a very long run becomes `Infinity`. Only the stored radius is affected.
- `ItemRarity.ItemNameColor`: the normal colour is a value the caller supplies in place of `this.normalColor()`. Whether the engine's windows have that method is not modelled; the engine's window classes are not part of this model. If a window lacks it, the unset-rarity branch throws instead of drawing, and `ItemRarity.BlankTagColor` then describes a name that is never drawn.
- `RegionBlocker.NumberOfText`: only signed decimal integers are read. Hex, octal and binary literals, fractions, exponents and `Infinity` count as NaN. Numbers beyond 2^53 keep their exact value.
- Floating point is not modelled:
  - the map darkness level `parseFloat(...).clamp(0, 1)` and the map darkness sprite's opacity;
  - the flicker scale and alpha from `performance.now()` and `Math.sin`;
  - the per-frame positions of map event lights;
  - the radial-gradient bitmaps of all lights.
- `BattleLighting`: positions are Dafny reals, not doubles.
- Display-tree calls (`addChild`) and the `console.log` line are not modelled.
- `Lighting.CreateLightSprite`: a light sprite is reduced to its radius, colour and flicker flag.
- `BattleLighting.BattleLighting.Update`: the darkness layer is taken to exist, as `createAllWindows` always makes it before `update` runs. The engine clamps a sprite's opacity; this model stores the computed value.
- `BattleLighting.BattleLighting.CreateLightsLater`: a spriteset whose enemy sprite list is missing is not modelled.
- `Crafting.OnCraft`: the buzzer, the OK sound and the detail-window refresh are given only as the `ok` and `granted` results.
- `EquipSlots.Actor.ChangeEquip`: the engine's trade of the old item back to the party, and its check of the equipment type, are not modelled: it only stores the item.
- `EquipSlots.Actor.OptimizeEquip`: the equippable items are taken once, before the loop. The source recomputes them for each slot. The engine's `changeEquip` does not change the party's items in this model, so the two agree here.
- `BankStorage.OnItemWithdraw`: the entry is whatever the storage window shows. A stale entry whose count is not the box's is accepted just as the source accepts it. The conservation clause is stated only for an entry that reflects the box.

## Findings

| source | as written | input that shows it | evidently intended | confidence | as-written member | corrected member |
|---|---|---|---|---|---|---|
| JosoCustomEquipSlots.js:167-177 | `etypeIdMap[slotSymbol] \|\| 5`, looked up with the numeric slot value, so every slot is compared with equipment type 5 | slot 0 with a weapon of type 1: refused; slot 0 with a type-5 accessory: accepted | the item's equipment type equals the slot's type | not executed | EquipSlots.EquipChangeCheckDiffers | EquipSlots.IsEquipChangeOkIntended |
| JosoCustomEquipSlots.js:183-231 | `optimizeEquip` (lines 183-190) passes the slot's equipment type to `bestEquipItem`, which reads its argument as a slot index (line 213, in `bestEquipItem` at lines 212-231) | a party holding only a helmet (type 3): slot 2 (Head) is searched for type 4 and stays empty | each slot gets the best equippable item of its own type | not executed | EquipSlots.HelmetExample | EquipSlots.Actor.OptimizeEquipBySlot |
