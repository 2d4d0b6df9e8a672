# Group dungeons: a Dafny model

A model of the group-dungeon plugin for a Minecraft (Bukkit) server, with
proofs about it. Parties of players pick a dungeon from chest menus or
commands, or by right-clicking a portal block. The leader's party must meet
the dungeon's entry rules and may need a key item. On entry the leader is
sent to the dungeon's warp. Administrators can edit the list of possible
drops of each dungeon in an editor menu.

The model covers:

* **The catalogue.** There are six categories and thirty dungeons, built in a fixed order and
  kept in two maps by id. Every dungeon is filed in its category's list. Dungeon
  `mythology_odyssey` is the only one that needs a key.
* **Entering a dungeon.** The checks run in the source's order: the dungeon exists, the player
  leads a party, the player is in a party, the party size fits, and every member's
  level is high enough. Level is the fixed placeholder 100. Then comes the key: its material is
  derived from the key id, and one key item is taken from the lowest inventory slot that
  holds it. Last, the warp command is derived from the dungeon id.
* **The party stub.** Its answers are fixed: not in a party, size 1, always leader.
  Together these mean that no dungeon can be entered and the party
  command never opens a menu. Both facts are proved.
* **Commands.** `/dungeon`, `/dropedit` and `/partydungeon` are modelled with their argument
  handling and tab completion.
* **Menus.** The category list, the tiered dungeon list, the drop preview and the drop
  editor are each modelled in three parts:
  * the screen they fill, slot by slot;
  * the slot maps they keep;
  * what each click does.
* **Listeners.**
  * The inventory-click listener routes clicks by window title and acts on the clicked item.
  * The portal listener loads portal locations from the configuration, falls back to a table
    of 30 default portals, saves them back, and finds which dungeon a clicked End Portal Frame
    belongs to.

Messages, warps, menu openings and database writes are not performed. Each is
returned as a value that names the action and its data.

Java objects whose fields change become Dafny classes. These are `Dungeon`,
`DungeonCategory`, `DungeonManager`, the four menus, the listeners and the
configuration. Immutable values become datatypes. A chest inventory is an
`array<Option<ItemStack>>`, and a Bukkit material is its enum name as a
string.

Each file holds one Dafny module and models one Java file:

| file | module | Java source |
|---|---|---|
| `dungeon_drop.dfy` | `DungeonDrops` | `DungeonDrop` |
| `dungeon.dfy` | `Dungeons` | `Dungeon` |
| `dungeon_key.dfy` | `DungeonKeys` | `DungeonKey` |
| `dungeon_category.dfy` | `DungeonCategories` | `DungeonCategory` |
| `dungeon_manager.dfy` | `DungeonManagement` | `DungeonManager` |
| `party_integration.dfy` | `PartyIntegration` | `PartyIntegrationAPI` |
| `dungeon_command.dfy` | `DungeonCommands` | `DungeonCommand` |
| `drop_edit_command.dfy` | `DropEditCommands` | `DropEditCommand` |
| `party_dungeon_command.dfy` | `PartyDungeonCommands` | `PartyDungeonCommand` |
| `category_selection_gui.dfy` | `CategorySelection` | `CategorySelectionGUI` |
| `dungeon_selection_gui.dfy` | `DungeonSelection` | `DungeonSelectionGUI` |
| `preview_gui.dfy` | `Preview` | `PreviewGUI` |
| `drop_edit_gui.dfy` | `DropEdit` | `DropEditGUI` |
| `gui_construction.dfy` | `GuiConstruction` | `GUI` (the constructor order) |
| `gui_listener.dfy` | `GuiListener` | `GUIListener` |
| `portal_listener.dfy` | `Portals` | `PortalListener` |

The remaining modules support the others:

* `Catalogue` (`dungeon_catalogue.dfy`) holds the catalogue tables from `DungeonManager`.
* `Completions` holds the shared `filterCompletions`.
* `Text` covers Java string operations on ASCII.
* `Seqs` and `GuiLayout` hold facts about sequences and slot layouts.
* `Host` holds the Bukkit stand-ins.

## Model

| member | source | states |
|---|---|---|
| DungeonDrops.DungeonDrop.constructor | src/main/java/maks/com/groupDungeonPlugin/models/DungeonDrop.java:21-24 | a drop holds exactly the material and display name it was built with |
| DungeonDrops.DungeonDrop.FromItem | src/main/java/maks/com/groupDungeonPlugin/models/DungeonDrop.java:31-39 | a drop built from an item keeps the item's material; it takes the item's display name when the item has one, otherwise the readable form of the material name |
| DungeonDrops.DungeonDrop.ToItemStack | src/main/java/maks/com/groupDungeonPlugin/models/DungeonDrop.java:64-74 | the item shown for a drop is one item of the drop's material with no lore; when the material has item meta, its name is the display name with every `&` replaced by the two-character code the source writes, so no `&` is left |
| DungeonDrops.Capitalize | src/main/java/maks/com/groupDungeonPlugin/models/DungeonDrop.java:87-89 | a word keeps its length and its tail; only the first letter is upper-cased |
| DungeonDrops.AppendWords | src/main/java/maks/com/groupDungeonPlugin/models/DungeonDrop.java:86-92 | appending words with no underscore never introduces one |
| DungeonDrops.FormatMaterialName | src/main/java/maks/com/groupDungeonPlugin/models/DungeonDrop.java:82-95 | a formatted material name contains no underscore and neither starts nor ends with a space |
| DungeonDrops.FormatMaterialNameReadable | src/main/java/maks/com/groupDungeonPlugin/models/DungeonDrop.java:82-95 | for an enum name made of non-empty words joined by `_`, the result is exactly those words lower-cased, each capitalised, joined by single spaces (also `DropEditGUI.formatMaterialName`, lines 362-375, which is the same code) |
| Dungeons.RemovedAt | src/main/java/maks/com/groupDungeonPlugin/models/Dungeon.java:194-198 | removing at a valid index shortens the list by one and shifts the later elements down; an index outside the list leaves it unchanged |
| Dungeons.RemovedAtRestores | src/main/java/maks/com/groupDungeonPlugin/models/Dungeon.java:194-198 | putting the removed element back at its index restores the original list |
| Dungeons.RemoveFirst | src/main/java/maks/com/groupDungeonPlugin/listeners/GUIListener.java:284 | `List.remove(Object)` removes the first occurrence only: one element fewer and multiset minus that object, with nothing before it equal to it; a list without the object is unchanged |
| Dungeons.Dungeon.constructor | src/main/java/maks/com/groupDungeonPlugin/models/Dungeon.java:42-56 | a new dungeon holds the given fields, requires no key, and has no drops or preview items |
| Dungeons.Dungeon.WithKey | src/main/java/maks/com/groupDungeonPlugin/models/Dungeon.java:73-87 | the constructor with a key holds the given fields and key id and key name, and starts with no drops |
| Dungeons.Dungeon.AddDrop | src/main/java/maks/com/groupDungeonPlugin/models/Dungeon.java:185-187 | the drop is appended at the end and the earlier drops are kept in order |
| Dungeons.Dungeon.RemoveDrop | src/main/java/maks/com/groupDungeonPlugin/models/Dungeon.java:194-198 | the drop at the index is removed; an index outside the list changes nothing |
| Dungeons.Dungeon.ClearDrops | src/main/java/maks/com/groupDungeonPlugin/models/Dungeon.java:203-205 | no drops remain |
| Dungeons.Dungeon.SetKeyId | src/main/java/maks/com/groupDungeonPlugin/models/Dungeon.java:221-223 | the key id becomes the given value, with null as `None` |
| Dungeons.Dungeon.SetKeyDisplayName | src/main/java/maks/com/groupDungeonPlugin/models/Dungeon.java:239-241 | the key display name becomes the given value |
| DungeonKeys.Colored | src/main/java/maks/com/groupDungeonPlugin/models/DungeonKey.java:144 | a translated key name contains no `&`, and every other character comes from the configured name |
| DungeonKeys.DungeonKey.FirstKeyIndex | src/main/java/maks/com/groupDungeonPlugin/models/DungeonKey.java:98-112 | finds the lowest slot holding the key; no result exactly when no slot holds it |
| DungeonKeys.DungeonKey.HasKey | src/main/java/maks/com/groupDungeonPlugin/models/DungeonKey.java:74-90 | true exactly when the inventory exists and some slot holds the key's material under the key's translated name |
| DungeonKeys.DungeonKey.ConsumeKey | src/main/java/maks/com/groupDungeonPlugin/models/DungeonKey.java:98-125 | succeeds exactly when the inventory exists and holds the key; the new contents are the old ones with one key taken from the lowest key slot |
| DungeonKeys.DungeonKey.KeyIndexIsFirst | src/main/java/maks/com/groupDungeonPlugin/models/DungeonKey.java:101-112 | the slot where the scan stops is the lowest key slot |
| DungeonKeys.DungeonKey.ConsumeChangesOneSlot | src/main/java/maks/com/groupDungeonPlugin/models/DungeonKey.java:98-125 | consuming changes only the lowest key slot: its amount drops by one, or the slot empties when it held a single item; with no key, nothing changes |
| DungeonKeys.DungeonKey.KeyCount | src/main/java/maks/com/groupDungeonPlugin/models/DungeonKey.java:74-90 | an inventory without key items holds zero keys; when every key stack holds at least one item, the count is zero exactly when no slot holds a key item, and is at least the amount of each key stack |
| DungeonKeys.DungeonKey.ConsumeTakesOne | src/main/java/maks/com/groupDungeonPlugin/models/DungeonKey.java:98-125 | consuming a key lowers the number of key items in the inventory by exactly one |
| DungeonKeys.TakeOne | src/main/java/maks/com/groupDungeonPlugin/models/DungeonKey.java:106-110 | a stack of more than one loses one item and is otherwise unchanged; a stack of one becomes an empty slot |
| DungeonCategories.WithoutId | src/main/java/maks/com/groupDungeonPlugin/models/DungeonCategory.java:96-98 | removal by id keeps exactly the dungeons whose id differs; they are picked out at their own positions, in increasing order, so they keep their relative order, and each occurs as often as before |
| DungeonCategories.KeptPositions | src/main/java/maks/com/groupDungeonPlugin/models/DungeonCategory.java:96-98 | the positions of exactly the dungeons whose id differs, in increasing order |
| DungeonCategories.WithoutAbsentId | src/main/java/maks/com/groupDungeonPlugin/models/DungeonCategory.java:96-98 | removing an id that is not listed leaves the list unchanged |
| DungeonCategories.FirstWithId | src/main/java/maks/com/groupDungeonPlugin/models/DungeonCategory.java:106-111 | the first listed dungeon with the id; none exactly when no listed dungeon has it |
| DungeonCategories.DungeonCategory.constructor | src/main/java/maks/com/groupDungeonPlugin/models/DungeonCategory.java:29-35 | a new category holds the given fields and an empty dungeon list |
| DungeonCategories.DungeonCategory.AddDungeon | src/main/java/maks/com/groupDungeonPlugin/models/DungeonCategory.java:87-89 | the dungeon is appended to the category's list |
| DungeonCategories.DungeonCategory.RemoveDungeon | src/main/java/maks/com/groupDungeonPlugin/models/DungeonCategory.java:96-98 | every dungeon with the id is removed and the rest keep their order; afterwards a lookup of that id finds nothing |
| DungeonCategories.DungeonCategory.GetDungeon | src/main/java/maks/com/groupDungeonPlugin/models/DungeonCategory.java:106-111 | the first listed dungeon with the id, or none exactly when no listed dungeon has it |
| Catalogue.MythologyIds | src/main/java/maks/com/groupDungeonPlugin/api/DungeonManager.java:110-181 | the mythology block's ids are distinct and start with `m` |
| Catalogue.MythologyWellFormed | src/main/java/maks/com/groupDungeonPlugin/api/DungeonManager.java:110-181 | every mythology dungeon has tier 1 to 5, a minimum party size no larger than its maximum, and a known category |
| Catalogue.MythologyPrefixed | src/main/java/maks/com/groupDungeonPlugin/api/DungeonManager.java:110-181 | every mythology id starts with its category id and `_` |
| Catalogue.AncientIds | src/main/java/maks/com/groupDungeonPlugin/api/DungeonManager.java:183-252 | the ancient block's ids are distinct and start with `a` |
| Catalogue.AncientWellFormed | src/main/java/maks/com/groupDungeonPlugin/api/DungeonManager.java:183-252 | the ancient block is well formed (tier, party sizes, category) |
| Catalogue.AncientPrefixed | src/main/java/maks/com/groupDungeonPlugin/api/DungeonManager.java:183-252 | every ancient id starts with its category id and `_` |
| Catalogue.FantasyIds | src/main/java/maks/com/groupDungeonPlugin/api/DungeonManager.java:254-323 | the fantasy block's ids are distinct and start with `f` |
| Catalogue.FantasyWellFormed | src/main/java/maks/com/groupDungeonPlugin/api/DungeonManager.java:254-323 | the fantasy block is well formed |
| Catalogue.FantasyPrefixed | src/main/java/maks/com/groupDungeonPlugin/api/DungeonManager.java:254-323 | every fantasy id starts with its category id and `_` |
| Catalogue.ElementalIds | src/main/java/maks/com/groupDungeonPlugin/api/DungeonManager.java:325-394 | the elemental block's ids are distinct and start with `e` |
| Catalogue.ElementalWellFormed | src/main/java/maks/com/groupDungeonPlugin/api/DungeonManager.java:325-394 | the elemental block is well formed |
| Catalogue.ElementalPrefixed | src/main/java/maks/com/groupDungeonPlugin/api/DungeonManager.java:325-394 | every elemental id starts with its category id and `_` |
| Catalogue.CosmicIds | src/main/java/maks/com/groupDungeonPlugin/api/DungeonManager.java:396-465 | the cosmic block's ids are distinct and start with `c` |
| Catalogue.CosmicWellFormed | src/main/java/maks/com/groupDungeonPlugin/api/DungeonManager.java:396-465 | the cosmic block is well formed |
| Catalogue.CosmicPrefixed | src/main/java/maks/com/groupDungeonPlugin/api/DungeonManager.java:396-465 | every cosmic id starts with its category id and `_` |
| Catalogue.HorrorIds | src/main/java/maks/com/groupDungeonPlugin/api/DungeonManager.java:467-536 | the horror block's ids are distinct and start with `h` |
| Catalogue.HorrorWellFormed | src/main/java/maks/com/groupDungeonPlugin/api/DungeonManager.java:467-536 | the horror block is well formed |
| Catalogue.HorrorPrefixed | src/main/java/maks/com/groupDungeonPlugin/api/DungeonManager.java:467-536 | every horror id starts with its category id and `_` |
| Catalogue.CatalogueIdsPrefixed | src/main/java/maks/com/groupDungeonPlugin/api/DungeonManager.java:109-541 | every dungeon id in the catalogue starts with its category's id and `_` |
| Catalogue.CatalogueSize | src/main/java/maks/com/groupDungeonPlugin/api/DungeonManager.java:46-541 | the catalogue holds 6 categories and 30 dungeons |
| Catalogue.CatalogueWellFormed | src/main/java/maks/com/groupDungeonPlugin/api/DungeonManager.java:109-541 | the 30 dungeon ids are pairwise distinct, so no map entry is overwritten; every dungeon is well formed |
| Catalogue.CategoryIdsDistinct | src/main/java/maks/com/groupDungeonPlugin/api/DungeonManager.java:46-100 | the six category ids are pairwise distinct |
| Catalogue.OnlyOdysseyKeyed | src/main/java/maks/com/groupDungeonPlugin/api/DungeonManager.java:111-125 | a catalogue dungeon has a key exactly when it is `mythology_odyssey` |
| PartyIntegration.PartyIntegrationApi.constructor | src/main/java/maks/com/groupDungeonPlugin/api/PartyIntegrationAPI.java:17 | the integration starts uninitialised |
| PartyIntegration.PartyIntegrationApi.Initialize | src/main/java/maks/com/groupDungeonPlugin/api/PartyIntegrationAPI.java:23-33 | the integration becomes initialised exactly when the party plugin is present and enabled; once initialised, it stays so |
| PartyIntegration.PartyIntegrationApi.IsInParty | src/main/java/maks/com/groupDungeonPlugin/api/PartyIntegrationAPI.java:38-43 | the stub reports that no player is in a party |
| PartyIntegration.PartyIntegrationApi.GetPartySize | src/main/java/maks/com/groupDungeonPlugin/api/PartyIntegrationAPI.java:48-53 | the stub reports a party size of 1 |
| PartyIntegration.PartyIntegrationApi.HasValidPartySize | src/main/java/maks/com/groupDungeonPlugin/api/PartyIntegrationAPI.java:58-62 | before initialisation: true exactly for a non-null player; after it: true exactly when 1 lies in the size range |
| PartyIntegration.PartyIntegrationApi.GetPartyMembers | src/main/java/maks/com/groupDungeonPlugin/api/PartyIntegrationAPI.java:67-78 | a player's party is the player alone; a null player has none |
| PartyIntegration.PartyIntegrationApi.IsPartyLeader | src/main/java/maks/com/groupDungeonPlugin/api/PartyIntegrationAPI.java:123-129 | the stub reports every player as a leader |
| PartyIntegration.PartyIntegrationApi.View | src/main/java/maks/com/groupDungeonPlugin/api/DungeonManager.java:583-605 | what the entry check sees of a leader's party through the stub: leader, not in a party, size 1, members only the leader |
| DungeonManagement.FirstUnderLevelled | src/main/java/maks/com/groupDungeonPlugin/api/DungeonManager.java:605-615 | the first party member whose level is below the requirement; none exactly when every member is high enough |
| DungeonManagement.PlaceholderLevelCap | src/main/java/maks/com/groupDungeonPlugin/api/DungeonManager.java:606-615 | with the placeholder level 100, the level check fails exactly when the party has members and the dungeon requires more than 100 |
| DungeonManagement.KeyMaterial | src/main/java/maks/com/groupDungeonPlugin/api/DungeonManager.java:653-661 | the key material is the upper-cased key id when that names a material, and the tripwire hook otherwise |
| DungeonManagement.WarpCommand | src/main/java/maks/com/groupDungeonPlugin/api/DungeonManager.java:681-704 | every derived warp is a `warp ` command |
| DungeonManagement.AncientWarpCollision | src/main/java/maks/com/groupDungeonPlugin/api/DungeonManager.java:694-695 | `ancient_atlantis` and `ancient_gardens` both warp to `warp as` |
| DungeonManagement.FantasyWarpCollision | src/main/java/maks/com/groupDungeonPlugin/api/DungeonManager.java:696-697 | `fantasy_drakonis`, `fantasy_woods` and `fantasy_caverns` all warp to `warp fs` |
| DungeonManagement.WarpSharedByLastChar | src/main/java/maks/com/groupDungeonPlugin/api/DungeonManager.java:694-703 | in the five lettered categories, two ids ending in the same character share the same seven-character warp |
| DungeonManagement.DungeonManager.constructor | src/main/java/maks/com/groupDungeonPlugin/api/DungeonManager.java:33-41 | a new manager holds exactly the catalogue (categories, dungeons, filing) and each dungeon's drops as loaded, or none |
| DungeonManagement.DungeonManager.Populate | src/main/java/maks/com/groupDungeonPlugin/api/DungeonManager.java:33-41 | for any table with distinct ids and known categories, the manager ends up holding that table, with drops as loaded |
| DungeonManagement.DungeonManager.Build | src/main/java/maks/com/groupDungeonPlugin/api/DungeonManager.java:38-39 | building categories then dungeons yields exactly the table, with fresh dungeons and no drops |
| DungeonManagement.DungeonManager.LoadKeepingCatalogue | src/main/java/maks/com/groupDungeonPlugin/api/DungeonManager.java:546-566 | loading drops leaves the catalogue as it was and sets each dungeon's drops from the database when the database has them |
| DungeonManagement.DungeonManager.InitializeCategories | src/main/java/maks/com/groupDungeonPlugin/api/DungeonManager.java:46-100 | the category map has exactly the table's ids, each holding a fresh category with its table fields and no dungeons |
| DungeonManagement.DungeonManager.InitializeDungeons | src/main/java/maks/com/groupDungeonPlugin/api/DungeonManager.java:109-541 | the dungeon map has exactly the table's ids with matching fields; each category lists exactly its table dungeons in table order; the manager invariant holds |
| DungeonManagement.DungeonManager.FileAll | src/main/java/maks/com/groupDungeonPlugin/api/DungeonManager.java:109-541 | after the loop, every table entry is in the map and filed in its category |
| DungeonManagement.DungeonManager.PutEntry | src/main/java/maks/com/groupDungeonPlugin/api/DungeonManager.java:124-125 | one step: the new dungeon is put under its id, and the filing invariant grows by one entry |
| DungeonManagement.DungeonManager.AddFromSpec | src/main/java/maks/com/groupDungeonPlugin/api/DungeonManager.java:111-125 | a fresh dungeon matching its entry goes into the map and at the end of its category's list |
| DungeonManagement.DungeonManager.BuiltEntries | src/main/java/maks/com/groupDungeonPlugin/api/DungeonManager.java:109-541 | after the loop, the map has exactly the table's ids, each under its own id |
| DungeonManagement.DungeonManager.BuiltIsValid | src/main/java/maks/com/groupDungeonPlugin/api/DungeonManager.java:109-541 | after the loop, the manager invariant holds and each category lists exactly its table ids |
| DungeonManagement.DungeonManager.CategoryListsFiled | src/main/java/maks/com/groupDungeonPlugin/api/DungeonManager.java:124-125 | every dungeon in a category's list is the map's dungeon of that id and belongs to that category |
| DungeonManagement.DungeonManager.LoadDropsFromDatabase | src/main/java/maks/com/groupDungeonPlugin/api/DungeonManager.java:546-566 | each dungeon with stored drops takes them; the others keep theirs; keys are unchanged |
| DungeonManagement.DungeonManager.CanEnterDungeon | src/main/java/maks/com/groupDungeonPlugin/api/DungeonManager.java:575-622 | the checks in order (unknown dungeon, not leader, not in party, size out of range, a member's level too low), each outcome in both directions; eligible exactly when all pass |
| DungeonManagement.DungeonManager.EnterDungeon | src/main/java/maks/com/groupDungeonPlugin/api/DungeonManager.java:631-729 | a refusal leaves the inventory untouched; a keyless dungeon is entered with its warp; a keyed one consumes one key and enters, or reports the missing key with nothing taken |
| DungeonManagement.DungeonManager.SaveDrops | src/main/java/maks/com/groupDungeonPlugin/api/DungeonManager.java:785-795 | saving an existing dungeon writes exactly its current drops under its id; an unknown id writes nothing |
| DungeonManagement.DungeonManager.GetCategory | src/main/java/maks/com/groupDungeonPlugin/api/DungeonManager.java:746-748 | the map's category of that id, or none exactly when the id is absent |
| DungeonManagement.DungeonManager.GetDungeon | src/main/java/maks/com/groupDungeonPlugin/api/DungeonManager.java:765-767 | the map's dungeon of that id, or none exactly when the id is absent |
| DungeonManagement.DungeonManager.GetDungeonsByCategory | src/main/java/maks/com/groupDungeonPlugin/api/DungeonManager.java:775-778 | a known category's dungeon list; none exactly for an unknown category |
| DungeonManagement.DungeonManager.CategoriesPartitionDungeons | src/main/java/maks/com/groupDungeonPlugin/api/DungeonManager.java:109-541 | in a valid manager, a dungeon is listed in a category exactly when that is its own category |
| DungeonManagement.DungeonManager.StubsBlockEntry | src/main/java/maks/com/groupDungeonPlugin/api/DungeonManager.java:584-594 | with the party stub, every known dungeon refuses entry as "not in a party" |
| Completions.Matching | src/main/java/maks/com/groupDungeonPlugin/commands/DungeonCommand.java:219-233 | the kept completions are exactly those that start with the typed text, ignoring case |
| Completions.FilterCompletions | src/main/java/maks/com/groupDungeonPlugin/commands/DungeonCommand.java:219-233 | the loop keeps exactly the matching completions in their order (also `DropEditCommand`, lines 147-161) |
| Completions.EmptyTextKeepsAll | src/main/java/maks/com/groupDungeonPlugin/commands/DungeonCommand.java:220-222 | nothing typed keeps every completion |
| Completions.MatchingIsSubsequence | src/main/java/maks/com/groupDungeonPlugin/commands/DungeonCommand.java:224-232 | the filtered completions are a subsequence of the offered ones, in order |
| Completions.KeysInSomeOrder | src/main/java/maks/com/groupDungeonPlugin/commands/DungeonCommand.java:182-184 | iterating a hash map yields each key exactly once, in some order |
| DungeonCommands.OnCommand | src/main/java/maks/com/groupDungeonPlugin/commands/DungeonCommand.java:44-129 | consoles are refused; no arguments opens the category list; with one argument, lower-cased: `help` sends help, `list` lists, a category id opens that category, otherwise a dungeon id enters that dungeon, otherwise "not found"; with two: `enter` or `preview` enters or previews a known dungeon and reports an unknown one, and `category` opens a known category and reports an unknown one, each answer exactly under its condition; every opened or entered id exists; other forms get help |
| DungeonCommands.ShortFormIgnoresCase | src/main/java/maks/com/groupDungeonPlugin/commands/DungeonCommand.java:58-76 | `/dungeon <category>` opens the category in any letter case |
| DungeonCommands.CategoryShadowsDungeon | src/main/java/maks/com/groupDungeonPlugin/commands/DungeonCommand.java:72-83 | a single argument naming both a category and a dungeon never enters the dungeon |
| DungeonCommands.LongFormKeepsCase | src/main/java/maks/com/groupDungeonPlugin/commands/DungeonCommand.java:89-124 | `/dungeon MYTHOLOGY` opens the category while `/dungeon category MYTHOLOGY` reports it unknown: the two-argument form does not lower-case its id |
| DungeonCommands.CategoryIds | src/main/java/maks/com/groupDungeonPlugin/commands/DungeonCommand.java:182-184 | lists each category id once |
| DungeonCommands.DungeonIds | src/main/java/maks/com/groupDungeonPlugin/commands/DungeonCommand.java:194-196 | lists each dungeon id once |
| DungeonCommands.OfferedCategoryIds | src/main/java/maks/com/groupDungeonPlugin/commands/DungeonCommand.java:182-184 | in a valid manager, the ids offered are exactly the map's keys |
| DungeonCommands.TabComplete | src/main/java/maks/com/groupDungeonPlugin/commands/DungeonCommand.java:171-210 | first argument: subcommands and category ids that match; second: dungeon or category ids by subcommand; otherwise nothing; with nothing typed, the subcommands come first |
| DropEditCommands.OnCommand | src/main/java/maks/com/groupDungeonPlugin/commands/DropEditCommand.java:45-83 | consoles and non-admins are refused; no arguments prints usage; the editor opens exactly for an admin naming an existing dungeon |
| DropEditCommands.TabComplete | src/main/java/maks/com/groupDungeonPlugin/commands/DropEditCommand.java:114-138 | only an admin's first argument completes, to the matching dungeon ids |
| PartyDungeonCommands.OnCommand | src/main/java/maks/com/groupDungeonPlugin/commands/PartyDungeonCommand.java:25-57 | consoles are refused; otherwise "join a party", "not leader" or opening the menu, each exactly under its condition |
| PartyDungeonCommands.PlayerOutcome | src/main/java/maks/com/groupDungeonPlugin/commands/PartyDungeonCommand.java:33-48 | a player's outcome is decided by party membership, then leadership |
| PartyDungeonCommands.StubsNeverOpenGui | src/main/java/maks/com/groupDungeonPlugin/commands/PartyDungeonCommand.java:34-38 | with the party stub, every player is told to join a party |
| CategorySelection.ShownLayout | src/main/java/maks/com/groupDungeonPlugin/gui/CategorySelectionGUI.java:77-113 | each category of the fixed order that exists sits in its slot, and only there |
| CategorySelection.EmptyScreen | src/main/java/maks/com/groupDungeonPlugin/gui/CategorySelectionGUI.java:67-74 | with no categories, the menu shows only the header, the "no categories" item and the border |
| CategorySelection.CategorySelectionGui.constructor | src/main/java/maks/com/groupDungeonPlugin/gui/CategorySelectionGUI.java:31-34 | a new menu shows the category screen in every slot; the fields are set before the items are built (see "## Findings") |
| CategorySelection.CategorySelectionGui.InitializeItems | src/main/java/maks/com/groupDungeonPlugin/gui/CategorySelectionGUI.java:37-129 | fills every slot with the category screen; the slot map holds the shown categories, or nothing when there are none |
| CategorySelection.CategorySelectionGui.FillBorder | src/main/java/maks/com/groupDungeonPlugin/gui/CategorySelectionGUI.java:44-51 | the border slots get the border pane and the rest are unchanged |
| CategorySelection.CategorySelectionGui.PlaceCategories | src/main/java/maks/com/groupDungeonPlugin/gui/CategorySelectionGUI.java:86-113 | each shown category's icon goes in its slot and the slot map records it |
| CategorySelection.CategorySelectionGui.HandleClick | src/main/java/maks/com/groupDungeonPlugin/gui/CategorySelectionGUI.java:158-175 | every click is cancelled; a click on a category slot opens that category's dungeon list for the same player |
| CategorySelection.ClickOpensOrderedCategory | src/main/java/maks/com/groupDungeonPlugin/gui/CategorySelectionGUI.java:86-113 | clicking the k-th slot opens the k-th category of the fixed order |
| DungeonSelection.KeyLine | src/main/java/maks/com/groupDungeonPlugin/gui/DungeonSelectionGUI.java:176-178 | the lore has a key line exactly when a non-empty key id is set |
| DungeonSelection.DungeonIconShape | src/main/java/maks/com/groupDungeonPlugin/gui/DungeonSelectionGUI.java:164-188 | a dungeon's icon has its material and marked name, and 9 lore lines with the key line sixth when a key is needed, 8 otherwise |
| DungeonSelection.TierGroup | src/main/java/maks/com/groupDungeonPlugin/gui/DungeonSelectionGUI.java:86-93 | a tier's group is exactly the category's dungeons of that tier |
| DungeonSelection.TierGroupIsSubsequence | src/main/java/maks/com/groupDungeonPlugin/gui/DungeonSelectionGUI.java:86-93 | a tier's group keeps the category's order |
| DungeonSelection.GroupByTier | src/main/java/maks/com/groupDungeonPlugin/gui/DungeonSelectionGUI.java:86-93 | the grouping map has a key exactly for each tier present, mapped to that tier's group |
| DungeonSelection.NoTierNoGroup | src/main/java/maks/com/groupDungeonPlugin/gui/DungeonSelectionGUI.java:95-118 | a tier with no dungeons has an empty group, so nothing is shown for it |
| DungeonSelection.TierOfSlot | src/main/java/maks/com/groupDungeonPlugin/gui/DungeonSelectionGUI.java:73-77 | every slot belongs to tier 0 to 5, where 0 means no tier |
| DungeonSelection.TierSlotRuns | src/main/java/maks/com/groupDungeonPlugin/gui/DungeonSelectionGUI.java:73-84 | each tier's slots are consecutive, have no repeats and belong to that tier; the labels, info and back slots belong to none |
| DungeonSelection.TierSlotsInGrid | src/main/java/maks/com/groupDungeonPlugin/gui/DungeonSelectionGUI.java:73-77 | every tier slot lies inside the 54-slot chest |
| DungeonSelection.TierLayoutUpToTiers | src/main/java/maks/com/groupDungeonPlugin/gui/DungeonSelectionGUI.java:95-118 | after the first n tiers, each placed dungeon sits in a slot of its own tier |
| DungeonSelection.TierLayoutShape | src/main/java/maks/com/groupDungeonPlugin/gui/DungeonSelectionGUI.java:95-118 | the k-th slot of a tier is filled exactly when the tier has more than k dungeons, and then holds the k-th of them; every placed dungeon is in its own tier's row |
| DungeonSelection.TierSlotInLayout | src/main/java/maks/com/groupDungeonPlugin/gui/DungeonSelectionGUI.java:156-192 | adding later tiers keeps an earlier tier's slots as they were |
| DungeonSelection.ScreenShowsLayout | src/main/java/maks/com/groupDungeonPlugin/gui/DungeonSelectionGUI.java:41-127 | the screen shows each placed dungeon's icon, the category info, the five tier labels and the back button in their slots |
| DungeonSelection.DungeonSelectionGui.constructor | src/main/java/maks/com/groupDungeonPlugin/gui/DungeonSelectionGUI.java:35-38 | a new menu's title is the prefix plus the category name, and it shows the dungeon screen; the fields are set before the items are built (see "## Findings") |
| DungeonSelection.DungeonSelectionGui.InitializeItems | src/main/java/maks/com/groupDungeonPlugin/gui/DungeonSelectionGUI.java:41-127 | the slot map is the tier layout, and every slot shows the dungeon screen |
| DungeonSelection.DungeonSelectionGui.FillBase | src/main/java/maks/com/groupDungeonPlugin/gui/DungeonSelectionGUI.java:43-84 | clears the slot map and lays out the background, info and tier labels |
| DungeonSelection.DungeonSelectionGui.FillBackground | src/main/java/maks/com/groupDungeonPlugin/gui/DungeonSelectionGUI.java:43-50 | every slot holds the background pane, and the slot map is empty |
| DungeonSelection.DungeonSelectionGui.AddTiers | src/main/java/maks/com/groupDungeonPlugin/gui/DungeonSelectionGUI.java:95-118 | after all five tiers, the slot map is the tier layout and each placed slot shows its dungeon's icon |
| DungeonSelection.DungeonSelectionGui.AddTier | src/main/java/maks/com/groupDungeonPlugin/gui/DungeonSelectionGUI.java:96-118 | one tier's rows extend the layout of the tiers before it |
| DungeonSelection.DungeonSelectionGui.AddDungeonsToSlots | src/main/java/maks/com/groupDungeonPlugin/gui/DungeonSelectionGUI.java:156-192 | the k-th dungeon goes into the k-th slot while both last; the slot map gains exactly those pairs and the other slots are unchanged |
| DungeonSelection.DungeonSelectionGui.PutDungeon | src/main/java/maks/com/groupDungeonPlugin/gui/DungeonSelectionGUI.java:187-188 | one slot gets the dungeon's icon and its map entry, and nothing else changes |
| DungeonSelection.DungeonSelectionGui.HandleClick | src/main/java/maks/com/groupDungeonPlugin/gui/DungeonSelectionGUI.java:208-266 | every click is cancelled; back returns to the categories; on a dungeon slot, shift-right previews and left-click enters that dungeon, other clicks do nothing |
| DungeonSelection.ClickEntersShownDungeon | src/main/java/maks/com/groupDungeonPlugin/gui/DungeonSelectionGUI.java:229-264 | left-clicking the k-th slot of a tier enters the tier's k-th dungeon, and shift-right previews it |
| Preview.Title | src/main/java/maks/com/groupDungeonPlugin/gui/PreviewGUI.java:22 | the title starts with the edit prefix exactly when editable, or the view prefix otherwise, and ends with the dungeon name |
| Preview.SavedUpToExact | src/main/java/maks/com/groupDungeonPlugin/gui/PreviewGUI.java:68-73 | after scanning the first n slots, the saved map holds exactly the non-air items of those slots, under their slot numbers |
| Preview.SavedPreviewExact | src/main/java/maks/com/groupDungeonPlugin/gui/PreviewGUI.java:65-73 | saving keeps exactly the non-air items of the preview area, under their slot numbers |
| Preview.SaveThenReopen | src/main/java/maks/com/groupDungeonPlugin/gui/PreviewGUI.java:29-35 | reopening after a save shows in the preview area exactly what was saved, with air slots empty |
| Preview.ReopenThenSave | src/main/java/maks/com/groupDungeonPlugin/gui/PreviewGUI.java:65-73 | saving a freshly opened editor stores the previous preview items in the area, minus air |
| Preview.PreviewGui.constructor | src/main/java/maks/com/groupDungeonPlugin/gui/PreviewGUI.java:21-26 | a new preview has the derived title and shows the stored preview items and its buttons; the fields are set before the items are built (see "## Findings") |
| Preview.PreviewGui.InitializeItems | src/main/java/maks/com/groupDungeonPlugin/gui/PreviewGUI.java:29-50 | the stored items go in the preview area, then the close button, then the save button only when editable; other slots are unchanged |
| Preview.PreviewGui.HandleClick | src/main/java/maks/com/groupDungeonPlugin/gui/PreviewGUI.java:53-78 | a click is cancelled unless the menu is editable and the click is in the preview area; close closes; save (editable only) stores the area and closes; nothing else changes the stored items |
| Preview.PreviewGui.Save | src/main/java/maks/com/groupDungeonPlugin/gui/PreviewGUI.java:65-73 | the stored preview becomes the non-air items of the preview area |
| DropEdit.GetDropCategory | src/main/java/maks/com/groupDungeonPlugin/gui/DropEditGUI.java:333-357 | a material is an item when its name has an item suffix or is an item name; otherwise a material by the material lists; otherwise other, each in both directions |
| DropEdit.QuickAddInOwnMenu | src/main/java/maks/com/groupDungeonPlugin/gui/DropEditGUI.java:220-239 | every quick-add material of a kind's menu falls in that same kind |
| DropEdit.QuickAddMaterial | src/main/java/maks/com/groupDungeonPlugin/gui/DropEditGUI.java:454 | the material taken from an `add_` action is the rest of the action |
| DropEdit.QuickAddRoundTrip | src/main/java/maks/com/groupDungeonPlugin/gui/DropEditGUI.java:281 | for an upper-case enum name, decoding the lower-cased `add_` action gives back the material (the action is built at 281 and decoded at 454) |
| DropEdit.QuickAddNotFromHand | src/main/java/maks/com/groupDungeonPlugin/gui/DropEditGUI.java:432-452 | a quick-add action equals the hand action only for the material named `FROM_HAND` |
| DropEdit.OfKind | src/main/java/maks/com/groupDungeonPlugin/gui/DropEditGUI.java:292-296 | exactly the list's drops of the kind, and never more drops than the list |
| DropEdit.OfKindIsFilter | src/main/java/maks/com/groupDungeonPlugin/gui/DropEditGUI.java:292-296 | the filtered drops are exactly the drops of the kind, in their original order |
| DropEdit.GridSlotsDistinct | src/main/java/maks/com/groupDungeonPlugin/gui/DropEditGUI.java:299-303 | the grid slots have no repeats and lie between slots 10 and 34 |
| DropEdit.DropLayoutShape | src/main/java/maks/com/groupDungeonPlugin/gui/DropEditGUI.java:287-328 | the k-th grid slot shows the k-th drop of the kind when there is one; every shown drop is a listed drop of that kind |
| DropEdit.SummaryLoreShape | src/main/java/maks/com/groupDungeonPlugin/gui/DropEditGUI.java:191-209 | the summary lists at most five drops, in order, plus a "more" line when there are over five, or a "none yet" line when there are none |
| DropEdit.ActionSlots | src/main/java/maks/com/groupDungeonPlugin/gui/DropEditGUI.java:89-125 | the slots with actions are exactly exit and save, back outside the main menu, the three kind buttons in the main menu, and the hand and quick-add slots in a kind menu |
| DropEdit.GridSlotNoAction | src/main/java/maks/com/groupDungeonPlugin/gui/DropEditGUI.java:299-303 | no grid slot carries a button action |
| DropEdit.ActionsPerMode | src/main/java/maks/com/groupDungeonPlugin/gui/DropEditGUI.java:89-125 | exit and save are always bound; back exactly outside the main menu; no drop slot has an action |
| DropEdit.ActionsShowButtons | src/main/java/maks/com/groupDungeonPlugin/gui/DropEditGUI.java:78-125 | every slot with an action shows a button or a menu item |
| DropEdit.InfoSlotFree | src/main/java/maks/com/groupDungeonPlugin/gui/DropEditGUI.java:75 | no button or menu item covers the dungeon info slot |
| DropEdit.QuickAddActionsPerKind | src/main/java/maks/com/groupDungeonPlugin/gui/DropEditGUI.java:261-263 | each quick-add slot's action decodes to its listed material, which belongs to the menu's kind and is not the hand action |
| DropEdit.QuickMaterialsAreEnumNames | src/main/java/maks/com/groupDungeonPlugin/gui/DropEditGUI.java:220-239 | the quick-add materials are upper-case enum names |
| DropEdit.DropEditGui.constructor | src/main/java/maks/com/groupDungeonPlugin/gui/DropEditGUI.java:39-44 | a new editor's title is the prefix plus the dungeon name, and it shows the edit screen for its mode; the fields are set before the items are built (see "## Findings") |
| DropEdit.DropEditGui.InitializeItems | src/main/java/maks/com/groupDungeonPlugin/gui/DropEditGUI.java:47-126 | the action map is the mode's action layout, the drop map is the mode's drop layout, and every slot shows the edit screen |
| DropEdit.DropEditGui.SetupMenu | src/main/java/maks/com/groupDungeonPlugin/gui/DropEditGUI.java:78-86 | the mode chooses the menu: its items are placed, its actions are added, and its drop layout is set |
| DropEdit.DropEditGui.FillBackground | src/main/java/maks/com/groupDungeonPlugin/gui/DropEditGUI.java:49-57 | both maps are cleared and every slot holds the background |
| DropEdit.DropEditGui.SetupMainMenu | src/main/java/maks/com/groupDungeonPlugin/gui/DropEditGUI.java:131-215 | the three kind buttons and the summary are placed, and the kind actions are bound |
| DropEdit.DropEditGui.PutButton | src/main/java/maks/com/groupDungeonPlugin/gui/DropEditGUI.java:133-181 | one slot gets the item and the action, and nothing else changes |
| DropEdit.DropEditGui.Summary | src/main/java/maks/com/groupDungeonPlugin/gui/DropEditGUI.java:191-209 | the loop builds exactly the summary lore |
| DropEdit.DropEditGui.SetupKindMenu | src/main/java/maks/com/groupDungeonPlugin/gui/DropEditGUI.java:220-239 | a kind menu places the hand button, three quick-add buttons and the grid of that kind's drops |
| DropEdit.DropEditGui.AddQuickAddItem | src/main/java/maks/com/groupDungeonPlugin/gui/DropEditGUI.java:269-282 | the slot shows the material's add button and is bound to its `add_` action |
| DropEdit.DropEditGui.SetupDropsGrid | src/main/java/maks/com/groupDungeonPlugin/gui/DropEditGUI.java:287-328 | the drop map becomes the kind's drop layout and each of those slots shows its drop |
| DropEdit.DropEditGui.PutDrop | src/main/java/maks/com/groupDungeonPlugin/gui/DropEditGUI.java:323-324 | one grid slot gets the drop's item and its map entry |
| DropEdit.DropEditGui.FilterDrops | src/main/java/maks/com/groupDungeonPlugin/gui/DropEditGUI.java:292-296 | the loop keeps exactly the drops of the kind, in order |
| DropEdit.DropEditGui.SetupButtons | src/main/java/maks/com/groupDungeonPlugin/gui/DropEditGUI.java:89-125 | back (outside the main menu), exit and save are placed and bound |
| DropEdit.DropEditGui.HandleClick | src/main/java/maks/com/groupDungeonPlugin/gui/DropEditGUI.java:389-489 | every click is cancelled; an add appends one drop and keeps the rest; a removal removes the first occurrence of the clicked drop; anything else leaves the drops unchanged |
| DropEdit.DropEditGui.RunAction | src/main/java/maks/com/groupDungeonPlugin/gui/DropEditGUI.java:396-474 | each bound action has its outcome; only an add changes the drops, by appending one |
| DropEdit.DropEditGui.AddDropFrom | src/main/java/maks/com/groupDungeonPlugin/gui/DropEditGUI.java:442-443 | the held item becomes one new drop at the end of the list |
| DropEdit.ButtonClicks | src/main/java/maks/com/groupDungeonPlugin/gui/DropEditGUI.java:397-431 | exit runs `dungeon <category>`; save saves this dungeon; back returns to the main menu; the kind buttons open their kinds |
| DropEdit.QuickAddClick | src/main/java/maks/com/groupDungeonPlugin/gui/DropEditGUI.java:452-473 | a quick-add click adds its material with the readable name when the material exists, and reports it invalid otherwise; the material is of the menu's kind |
| DropEdit.AddActionOutcome | src/main/java/maks/com/groupDungeonPlugin/gui/DropEditGUI.java:452-473 | every `add_` action other than the hand action adds the named material or reports it invalid |
| DropEdit.GridClick | src/main/java/maks/com/groupDungeonPlugin/gui/DropEditGUI.java:478-488 | a right or shift-right click on the k-th grid slot removes that drop; any other click does nothing |
| DropEdit.AppendedDropListed | src/main/java/maks/com/groupDungeonPlugin/gui/DropEditGUI.java:292-296 | an appended drop shows up in its own kind's grid list |
| GuiConstruction.InitializeItems | src/main/java/maks/com/groupDungeonPlugin/gui/GUI.java:20-26 | the overridden `initializeItems` completes exactly when every field it reads has a value |
| GuiConstruction.AsWrittenThrows | src/main/java/maks/com/groupDungeonPlugin/gui/GUI.java:17-21 | in Java's order each menu's construction throws a null-pointer exception at the first field its `initializeItems` reads, a field the menu class declares |
| GuiConstruction.SuperFirstThrows | src/main/java/maks/com/groupDungeonPlugin/gui/GUI.java:17-21 | whatever stages follow, a construction that starts with the superclass constructor throws |
| GuiConstruction.FieldsFirstBuilds | src/main/java/maks/com/groupDungeonPlugin/gui/GUI.java:17-21 | with the field initializers and the constructor body first, every menu's construction completes |
| GuiListener.EditButtonAt | src/main/java/maks/com/groupDungeonPlugin/listeners/GUIListener.java:226-256 | back, hand and save are recognised each exactly at its slot with its material |
| GuiListener.Route | src/main/java/maks/com/groupDungeonPlugin/listeners/GUIListener.java:45-72 | a click is handled exactly when the title carries the plugin mark; each screen is chosen by its title prefix, in the source's order |
| GuiListener.RoutesGuiTitles | src/main/java/maks/com/groupDungeonPlugin/listeners/GUIListener.java:56-70 | the titles the menus build reach their handlers, except the editable preview, which no handler takes |
| GuiListener.PreviewTitleName | src/main/java/maks/com/groupDungeonPlugin/listeners/GUIListener.java:167 | the name the preview handler cuts from a preview title keeps a leading ` - `, so it never equals the dungeon name |
| GuiListener.EditTitleName | src/main/java/maks/com/groupDungeonPlugin/listeners/GUIListener.java:215 | the name the edit handler cuts from an editor title keeps a leading `- `, so it never equals the dungeon name |
| GuiListener.CategoryIconShown | src/main/java/maks/com/groupDungeonPlugin/listeners/GUIListener.java:90-92 | a category's icon is recognised as that category, and as another only with the same icon and name |
| GuiListener.DungeonIconShown | src/main/java/maks/com/groupDungeonPlugin/listeners/GUIListener.java:125-127 | a dungeon's icon is recognised as that dungeon, and as another only with the same icon and name |
| GuiListener.GridItemsNotRemovable | src/main/java/maks/com/groupDungeonPlugin/listeners/GUIListener.java:267-270 | the editor's grid items do not carry the lore the listener's removal path looks for |
| GuiListener.EditName | src/main/java/maks/com/groupDungeonPlugin/listeners/GUIListener.java:273 | the stripped item name contains no colour sign |
| GuiListener.FirstNamedDrop | src/main/java/maks/com/groupDungeonPlugin/listeners/GUIListener.java:276-282 | finds the first drop with that material and name; none exactly when there is no such drop |
| GuiListener.RemoveFirstNamed | src/main/java/maks/com/groupDungeonPlugin/listeners/GUIListener.java:284 | removing the found drop object removes it at the found position |
| GuiListener.EditChestButtons | src/main/java/maks/com/groupDungeonPlugin/listeners/GUIListener.java:226-265 | in the editor's own screen, the listener's hand and save tests never match, and its back test matches outside the main menu |
| GuiListener.GuiListener.constructor | src/main/java/maks/com/groupDungeonPlugin/listeners/GUIListener.java:33-37 | the listener keeps the given manager |
| GuiListener.GuiListener.OnInventoryClick | src/main/java/maks/com/groupDungeonPlugin/listeners/GUIListener.java:45-72 | a click is cancelled exactly in plugin windows; each route's action is its handler's decision: a shown category opens, the back arrow opens the category list, a shown dungeon is previewed on shift-right and entered on left, the preview's back arrow opens the named dungeon's category, and the editor's buttons and marked removal act as `HandleDropEdit` states; only the dungeon the editor's title names changes its drops, by one appended hand drop or one removed named drop |
| GuiListener.GuiListener.HandleCategorySelection | src/main/java/maks/com/groupDungeonPlugin/listeners/GUIListener.java:79-100 | opens a category exactly when the clicked item shows some category, and then one that it shows |
| GuiListener.GuiListener.HandleDungeonSelection | src/main/java/maks/com/groupDungeonPlugin/listeners/GUIListener.java:107-144 | back returns to the categories; on an item showing a dungeon, shift-right previews and left-click enters it |
| GuiListener.GuiListener.HandleDropPreview | src/main/java/maks/com/groupDungeonPlugin/listeners/GUIListener.java:151-181 | only the back arrow acts: it opens the named dungeon's category, or the category list when no dungeon has the cut name |
| GuiListener.GuiListener.FindDungeonByName | src/main/java/maks/com/groupDungeonPlugin/listeners/GUIListener.java:189-196 | a dungeon with that name, or none exactly when no dungeon has it |
| GuiListener.GuiListener.HandleDropEdit | src/main/java/maks/com/groupDungeonPlugin/listeners/GUIListener.java:203-293 | with no dungeon of the cut name, reports not found; back, hand and save act as the buttons say; the hand adds the held item at the end; a marked shift-right removes the first drop of that name; other dungeons are untouched |
| GuiListener.GuiListener.RemoveNamedDrop | src/main/java/maks/com/groupDungeonPlugin/listeners/GUIListener.java:267-292 | a shift-right click removes the first drop with the clicked material and name, if any; otherwise the drops are unchanged |
| Portals.DefaultTableShape | src/main/java/maks/com/groupDungeonPlugin/listeners/PortalListener.java:79-120 | the default table has 30 portals, laid out on a 5-by-6 grid five blocks apart |
| Portals.DefaultLocationsDistinct | src/main/java/maks/com/groupDungeonPlugin/listeners/PortalListener.java:79-120 | no two default portals share a location |
| Portals.DefaultPortalsUnambiguous | src/main/java/maks/com/groupDungeonPlugin/listeners/PortalListener.java:79-125 | the default map has exactly the table's ids, and no two of its ids share a location |
| Portals.DefaultPortalsOnGrid | src/main/java/maks/com/groupDungeonPlugin/listeners/PortalListener.java:79-125 | every default portal lies on the grid |
| Portals.PutLoadedAll | src/main/java/maks/com/groupDungeonPlugin/listeners/PortalListener.java:55-69 | loading every configured id adds exactly the readable entries to the map |
| Portals.SavedUpToAll | src/main/java/maks/com/groupDungeonPlugin/listeners/PortalListener.java:130-145 | saving every portal writes exactly the saved section |
| Portals.LoadSavedEntry | src/main/java/maks/com/groupDungeonPlugin/listeners/PortalListener.java:58-63 | reading back a saved location gives the same location |
| Portals.SaveLoadRoundTrip | src/main/java/maks/com/groupDungeonPlugin/listeners/PortalListener.java:130-152 | loading what was saved gives back exactly the saved portal map |
| Portals.LoadDefaults | src/main/java/maks/com/groupDungeonPlugin/listeners/PortalListener.java:58-61 | a missing world reads as `world` and missing coordinates read as 0 |
| Portals.PluginConfig.constructor | src/main/java/maks/com/groupDungeonPlugin/listeners/PortalListener.java:44-46 | the configuration starts with the given portal section and nothing saved |
| Portals.PluginConfig.ClearPortals | src/main/java/maks/com/groupDungeonPlugin/listeners/PortalListener.java:133 | the portal section is cleared |
| Portals.PluginConfig.SetPortal | src/main/java/maks/com/groupDungeonPlugin/listeners/PortalListener.java:141-144 | one portal's entry is written, and a missing section is created |
| Portals.PluginConfig.SaveConfig | src/main/java/maks/com/groupDungeonPlugin/listeners/PortalListener.java:147 | the saved copy becomes the current section |
| Portals.PortalListener.constructor | src/main/java/maks/com/groupDungeonPlugin/listeners/PortalListener.java:34-39 | with no portal section, the portals become the 30 defaults and are saved; otherwise they are read from the section |
| Portals.PortalListener.LoadPortalLocations | src/main/java/maks/com/groupDungeonPlugin/listeners/PortalListener.java:44-74 | a missing section creates and saves the defaults; otherwise each readable entry is loaded over the map |
| Portals.PortalListener.CreateDefaultPortalLocations | src/main/java/maks/com/groupDungeonPlugin/listeners/PortalListener.java:79-125 | every default portal is put into the map |
| Portals.PortalListener.SavePortalLocations | src/main/java/maks/com/groupDungeonPlugin/listeners/PortalListener.java:130-152 | the section becomes exactly the current portals, or is absent when there are none, and is saved |
| Portals.PortalListener.GetDungeonIdFromLocation | src/main/java/maks/com/groupDungeonPlugin/listeners/PortalListener.java:203-221 | a dungeon whose portal is at the location; none exactly when no portal is there |
| Portals.PortalListener.OnPlayerInteract | src/main/java/maks/com/groupDungeonPlugin/listeners/PortalListener.java:159-195 | only a main-hand click on an End Portal Frame is cancelled and acted on; it enters the dungeon whose portal is there, or reports that it is not a portal |
| Portals.DefaultPortalClick | src/main/java/maks/com/groupDungeonPlugin/listeners/PortalListener.java:203-221 | with the default portals, clicking a table location finds exactly that table entry's dungeon |

## Left out

- Chat messages, console logging and the debugging flag are left out; outcomes are returned as action values instead.
- Both database managers (`api/DatabaseManager.java`, `database/DatabaseManager.java`) are not part of this model. Stored drops are a map from dungeon id to drop list, and a save is a `DropWrite` value.
- `ItemSerializationUtils` is not part of this model; its object-stream format is not visible to the model.
- `GUIManager` is not part of this model. Opening a menu, closing an inventory and running a command are returned as actions.
- `GUI.java`'s rendering helpers are not part of this model. A menu's inventory is its array of slots. The order of its constructor is modelled in `GuiConstruction`.
- `PartyManager` only forwards to `PartyIntegrationAPI` and logs, so the manager's entry check reads the integration's answers directly (`PartyIntegrationApi.View`).
- `GroupDungeonPlugin`, `DungeonGUICommand`, `DungeonMobListener`, `MyExperienceAPI` and `QuestStage` are not part of this model.
- The party members' level is the source's placeholder 100; there is no level system to model.
- The `performCommand` warp and the party messages after a successful entry are the `Entered(warp)` outcome.
- Java's `toLowerCase`/`toUpperCase` are modelled on ASCII letters only, because every id and material name in the plugin is ASCII.
- The iteration order of a `HashMap` is modelled as an arbitrary order. No proved property depends on it. When two categories or dungeons show the same icon and name, the listener's choice among them is left open.
- The `§` sign that `DungeonDrop.toItemStack` writes as a mis-encoded two-character literal is kept exactly as written.
- `Dungeon.getPreviewItems`, `savePreviewItems`, `openDropPreviewGUI` and `openDropEditGUI` are called but not defined in the source. The preview items are a map field of `Dungeon`, and the others are returned actions.
- An item without a display name has the name `""` in the listener, where the source would read `null`.
- The listener's title offsets 16 and 13 are modelled exactly as written.
- Portal configuration paths: a dungeon id containing `.` would nest deeper in the YAML configuration, but the model keys each entry by the whole id.
- Portals.DefaultPortalsUnambiguous: proves that ids and locations match one to one, but not that the default map has exactly 30 entries, because that needs the 30 ids pairwise distinct and the proof is too costly.
- The portal listener's `enterDungeon` call is returned as the `EnterDungeon` action. Its outcome is `DungeonManager.EnterDungeon`.
- The interacting hand is a flag (off-hand or not), and `saveConfig` is a snapshot of the portal section.
- A null inventory in `DungeonKey` is `array?` `null`; other nulls are `Option`.
- DropEdit.QuickAddNotFromHand: states only that a quick-add action can equal the hand action for `FROM_HAND` alone. That material does not exist, so a quick-add button never takes the hand path.
- KeyLine: `DungeonSelection.KeyLine` shows an empty key name for a dungeon that has a key id but no key display name. The source throws a null-pointer exception there (DungeonSelectionGUI.java:177). `Dungeon.setKeyId` on a dungeon built without a key leads to that state.
- SetupDropsGrid: `DropEdit.DropEditGui.SetupDropsGrid` and `DropEdit.GridItem` place an `AIR` drop of the menu's kind like any other drop. The source throws there, because an `AIR` item has no item meta (DropEditGUI.java:313).
- PartyIntegrationApi: the `initialized` flag is static in the source (PartyIntegrationAPI.java:17), so every instance shares it. The model makes it a field of each `PartyIntegration.PartyIntegrationApi`.


## Findings

| source | as written | input that shows it | evidently intended | confidence | as-written member | corrected member |
|---|---|---|---|---|---|---|
| src/main/java/maks/com/groupDungeonPlugin/gui/CategorySelectionGUI.java:31-40 | `GUI`'s constructor calls `initializeItems` before the field initializer of `slotToCategoryMap` runs, so `slotToCategoryMap.clear()` dereferences `null` | any `new CategorySelectionGUI(player, categories)` | the menu is built and shows the categories | high; not executed | GuiConstruction.AsWrittenThrows | CategorySelection.CategorySelectionGui.constructor |
| src/main/java/maks/com/groupDungeonPlugin/gui/DungeonSelectionGUI.java:35-44 | `initializeItems` runs before `slotToDungeonMap` is initialised, so `slotToDungeonMap.clear()` dereferences `null` | any `new DungeonSelectionGUI(player, category)` | the menu is built and shows the category's dungeons | high; not executed | GuiConstruction.AsWrittenThrows | DungeonSelection.DungeonSelectionGui.constructor |
| src/main/java/maks/com/groupDungeonPlugin/gui/PreviewGUI.java:21-31 | `initializeItems` runs before the constructor body sets `dungeon`, so `dungeon.getPreviewItems()` dereferences `null` | any `new PreviewGUI(player, dungeon, manager, editable)` | the preview is built and shows the stored items | high; not executed | GuiConstruction.AsWrittenThrows | Preview.PreviewGui.constructor |
| src/main/java/maks/com/groupDungeonPlugin/gui/DropEditGUI.java:39-50 | `initializeItems` runs before `slotToActionMap` is initialised, so `slotToActionMap.clear()` dereferences `null` | any `new DropEditGUI(player, dungeon, manager, mode)` | the editor is built and shows its mode's screen | high; not executed | GuiConstruction.AsWrittenThrows | DropEdit.DropEditGui.constructor |

The corrected constructors set their fields before they build the items, the
order `GuiConstruction.FieldsFirstBuilds` proves complete. Every menu the
commands, the listener and the menus open is built this way in the model.

Other behaviour of the source is kept as written, and a lemma shows it:

* `GuiListener.PreviewTitleName`: the preview title read from offset 16 keeps " - " before the dungeon's name, so it is never the previewed dungeon's own name, and the back arrow does not find that dungeon by it.
* `GuiListener.EditTitleName`: the edit title read from offset 13 keeps "- " before the dungeon's name, so the editor's click handler does not find the edited dungeon by it.
* `GuiListener.EditChestButtons`: on the edit chest the hand slot and the save slot show other materials than the listener tests for, so the listener never recognises those two buttons.
* `GuiListener.GridItemsNotRemovable`: the editor's grid items carry a different hint line than the one the listener's removal path looks for.
* `GuiListener.RoutesGuiTitles`: the title of an editable preview matches none of the listener's routes, so its clicks reach no handler.
