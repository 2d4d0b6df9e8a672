/** The administrators' chest GUI for a dungeon's drop list. It has a main
    menu of three drop kinds and one menu per kind. A kind's menu shows that
    kind's drops in a grid, where a right click removes one, and has buttons
    that add a drop. Two slot maps remember the action and the drop each
    slot stands for. */
module DropEdit {
  import opened Text
  import opened Host
  import opened Seqs
  import opened GuiLayout
  import opened DungeonDrops
  import opened Dungeons

  const TITLE_PREFIX: string := "\U{00A7}8Edit Drops - "

  const INFO_SLOT: int := 4
  const SUMMARY_SLOT: int := 31
  const BACK_SLOT: int := 45
  const HAND_SLOT: int := 47
  const EXIT_SLOT: int := 49
  const SAVE_SLOT: int := 53

  /** The modes: the main menu and the three drop kinds. */
  const MAIN: string := "main"
  const ITEMS: string := "items"
  const MATERIALS: string := "materials"
  const OTHER: string := "other"
  const KINDS: seq<string> := [ITEMS, MATERIALS, OTHER]

  /** The action strings of the slot map. */
  const EXIT_ACTION: string := "exit"
  const SAVE_ACTION: string := "save"
  const BACK_ACTION: string := "back_to_main"
  const HAND_ACTION: string := "add_from_hand"
  const ADD_PREFIX: string := "add_"

  /** The main menu's buttons, one per kind, and the quick-add buttons. */
  const KIND_SLOTS: seq<int> := [20, 22, 24]
  const QUICK_SLOTS: seq<int> := [38, 40, 42]

  /** The grid of a kind's menu, filled row by row. */
  const GRID_SLOTS: seq<int> := [
    10, 11, 12, 13, 14, 15, 16,
    19, 20, 21, 22, 23, 24, 25,
    28, 29, 30, 31, 32, 33, 34
  ]

  const REMOVE_LINE: string := "§cRight-click to remove this drop"

  const BACKGROUND: ItemStack := Named("GRAY_STAINED_GLASS_PANE", " ")
  const BACK_BUTTON: ItemStack := Named(ARROW, "§cBack to Main Menu")
  const EXIT_BUTTON: ItemStack :=
    ItemStack(BARRIER, Some("§cBack to Dungeon Menu"),
      ["\U{00A7}7Click to return to dungeon selection", "§cWarning: Unsaved changes will be lost"], 1)
  const SAVE_BUTTON: ItemStack :=
    ItemStack(EMERALD, Some("§aSave Changes"), ["\U{00A7}7Click to save all changes to the database"], 1)
  const HAND_BUTTON: ItemStack :=
    ItemStack("ORANGE_STAINED_GLASS", Some("\U{00A7}6Add Item From Hand"),
      ["\U{00A7}7Click to add the item in your main hand", "\U{00A7}7as a drop for this dungeon"], 1)

  /** The materials of the quick-add buttons. */
  const DIAMOND_SWORD: Material := "DIAMOND_SWORD"
  const DIAMOND_CHESTPLATE: Material := "DIAMOND_CHESTPLATE"
  const BOW: Material := "BOW"
  const IRON_INGOT: Material := "IRON_INGOT"
  const GOLD_INGOT: Material := "GOLD_INGOT"
  const EXPERIENCE_BOTTLE: Material := "EXPERIENCE_BOTTLE"
  const GOLDEN_APPLE: Material := "GOLDEN_APPLE"
  const ENCHANTED_BOOK: Material := "ENCHANTED_BOOK"

  /** The main menu's button for a kind. */
  function KindButton(kind: string): ItemStack {
    if kind == ITEMS then
      ItemStack(DIAMOND_SWORD, Some("§bItem Drops"),
        ["\U{00A7}7Add or remove item drops", "\U{00A7}7like weapons, armor, and tools", "", "§eClick to manage item drops"], 1)
    else if kind == MATERIALS then
      ItemStack(IRON_INGOT, Some("§aMaterial Drops"),
        ["\U{00A7}7Add or remove material drops", "\U{00A7}7like ingots, blocks, and resources", "", "§eClick to manage material drops"], 1)
    else
      ItemStack(EXPERIENCE_BOTTLE, Some("§dOther Drops"),
        ["\U{00A7}7Add or remove miscellaneous drops", "\U{00A7}7like potions, books, and special items", "", "§eClick to manage other drops"], 1)
  }

  /** The three materials a kind's menu offers for quick adding. */
  function QuickMaterials(kind: string): seq<Material> {
    if kind == ITEMS then [DIAMOND_SWORD, DIAMOND_CHESTPLATE, BOW]
    else if kind == MATERIALS then [IRON_INGOT, GOLD_INGOT, EMERALD]
    else [EXPERIENCE_BOTTLE, GOLDEN_APPLE, ENCHANTED_BOOK]
  }

  /** The dungeon item at the top of every menu. */
  function DungeonInfo(d: Dungeon): ItemStack {
    ItemStack(d.icon, Some("§e" + d.name),
      ["\U{00A7}7" + d.description, "", "\U{00A7}7Tier: §f" + IntToString(d.tier),
       "\U{00A7}7Required Level: §f" + IntToString(d.requiredLevel) + "+", "", "\U{00A7}7Editing drops for this dungeon"], 1)
  }

  // ---------------------------------------------------------------------
  // Drop kinds

  const ITEM_SUFFIXES: seq<string> :=
    ["_SWORD", "_AXE", "_PICKAXE", "_SHOVEL", "_HOE", "_HELMET", "_CHESTPLATE", "_LEGGINGS", "_BOOTS"]
  const ITEM_NAMES: seq<string> := ["BOW", "CROSSBOW", "SHIELD", "FISHING_ROD", "ELYTRA"]
  const MATERIAL_SUFFIXES: seq<string> := ["_INGOT", "_ORE", "_BLOCK", "_PLANKS", "_LOG", "_WOOD"]
  const MATERIAL_NAMES: seq<string> :=
    ["DIAMOND", "EMERALD", "GOLD_NUGGET", "IRON_NUGGET", "REDSTONE", "COAL", "LAPIS_LAZULI",
     "QUARTZ", "GLOWSTONE_DUST", "LEATHER", "PAPER", "STRING"]

  predicate EndsWithAny(name: string, suffixes: seq<string>) {
    exists k :: 0 <= k < |suffixes| && EndsWith(name, suffixes[k])
  }

  /** The tests of the first branch: weapons, tools, armour. */
  predicate IsItemName(name: string) {
    EndsWithAny(name, ITEM_SUFFIXES) || name in ITEM_NAMES
  }

  /** The tests of the second branch: ingots, ores, blocks, wood and the
      listed resources. */
  predicate IsMaterialName(name: string) {
    EndsWithAny(name, MATERIAL_SUFFIXES) || name in MATERIAL_NAMES
  }

  /** `getDropCategory`: every material has exactly one kind; the item tests
      come first, then the material tests, and anything else is "other". */
  function GetDropCategory(material: Material): (r: string)
    ensures r in KINDS
    ensures r == ITEMS <==> IsItemName(material)
    ensures r == MATERIALS <==> !IsItemName(material) && IsMaterialName(material)
    ensures r == OTHER <==> !IsItemName(material) && !IsMaterialName(material)
  {
    if IsItemName(material) then ITEMS
    else if IsMaterialName(material) then MATERIALS
    else OTHER
  }

  /** Each menu's quick-add materials are of that menu's kind, so a drop
      added from a quick-add button shows up in the grid of the menu it was
      added from. */
  lemma QuickAddInOwnMenu(kind: string, k: int)
    requires kind in KINDS && 0 <= k < 3
    ensures GetDropCategory(QuickMaterials(kind)[k]) == kind
  {
    var m := QuickMaterials(kind)[k];
    if kind == ITEMS {
      if k == 0 {
        assert EndsWith(m, ITEM_SUFFIXES[0]);
      } else if k == 1 {
        assert EndsWith(m, ITEM_SUFFIXES[6]);
      }
    } else if kind == MATERIALS {
      NotItemName(m);
      if k < 2 {
        assert EndsWith(m, MATERIAL_SUFFIXES[0]);
      }
    } else {
      NotItemName(m);
      NotMaterialName(m);
    }
  }

  /** A name that ends with a suffix of two or more characters ends with
      the suffix's last two characters. */
  lemma EndsWithLastTwo(name: string, suffix: string)
    requires |suffix| >= 2
    ensures EndsWith(name, suffix) ==>
      name[|name| - 1] == suffix[|suffix| - 1] && name[|name| - 2] == suffix[|suffix| - 2]
  {
    if EndsWith(name, suffix) {
      var tail := name[|name| - |suffix|..];
      assert tail[|suffix| - 1] == name[|name| - 1];
      assert tail[|suffix| - 2] == name[|name| - 2];
    }
  }

  /** The quick-add materials of the materials and other menus are not item
      names: their last two characters match no item suffix. */
  lemma NotItemName(m: string)
    requires m in [IRON_INGOT, GOLD_INGOT, EMERALD, EXPERIENCE_BOTTLE, GOLDEN_APPLE, ENCHANTED_BOOK]
    ensures !IsItemName(m)
  {
    forall k | 0 <= k < |ITEM_SUFFIXES|
      ensures !EndsWith(m, ITEM_SUFFIXES[k])
    {
      EndsWithLastTwo(m, ITEM_SUFFIXES[k]);
    }
  }

  /** The quick-add materials of the other menu are not material names
      either. */
  lemma NotMaterialName(m: string)
    requires m in [EXPERIENCE_BOTTLE, GOLDEN_APPLE, ENCHANTED_BOOK]
    ensures !IsMaterialName(m)
  {
    forall k | 0 <= k < |MATERIAL_SUFFIXES|
      ensures !EndsWith(m, MATERIAL_SUFFIXES[k])
    {
      EndsWithLastTwo(m, MATERIAL_SUFFIXES[k]);
    }
  }

  // ---------------------------------------------------------------------
  // Quick-add actions

  /** The action of a quick-add button: "add_" and the lower-cased enum
      name. */
  function QuickAddAction(material: Material): string {
    ADD_PREFIX + ToLower(material)
  }

  /** The material name the click handler reads out of an "add_" action:
      the rest of the action, upper-cased. */
  function QuickAddMaterial(action: string): (m: string)
    requires StartsWith(action, ADD_PREFIX)
    ensures |m| == |action| - |ADD_PREFIX|
  {
    ToUpper(action[|ADD_PREFIX|..])
  }

  /** An enum name has no lower-case letter. */
  predicate IsEnumName(m: string) {
    forall i :: 0 <= i < |m| ==> !('a' <= m[i] <= 'z')
  }

  /** The quick-add action decodes back to the material it was made from. */
  lemma QuickAddRoundTrip(material: Material)
    requires IsEnumName(material)
    ensures StartsWith(QuickAddAction(material), ADD_PREFIX)
    ensures QuickAddMaterial(QuickAddAction(material)) == material
  {
    var action := QuickAddAction(material);
    assert action[..|ADD_PREFIX|] == ADD_PREFIX;
    assert action[|ADD_PREFIX|..] == ToLower(material);
    UpperOfLower(material);
  }

  /** A quick-add action can be mistaken for the add-from-hand action only
      when the material is named "FROM_HAND". */
  lemma QuickAddNotFromHand(material: Material)
    requires IsEnumName(material)
    ensures QuickAddAction(material) == HAND_ACTION ==> material == "FROM_HAND"
  {
    assert QuickAddAction(material)[|ADD_PREFIX|..] == ToLower(material);
    if QuickAddAction(material) == HAND_ACTION {
      assert HAND_ACTION[|ADD_PREFIX|..] == "from_hand";
      UpperOfLower(material);
      assert ToUpper("from_hand") == "FROM_HAND";
    }
  }

  function QuickAddButton(material: Material): ItemStack {
    ItemStack(material, Some("§aAdd " + FormatMaterialName(material)), ["\U{00A7}7Click to add this item as a drop"], 1)
  }

  // ---------------------------------------------------------------------
  // The drop grid

  /** The drops of a kind, in list order. */
  function OfKind(drops: seq<DungeonDrop>, kind: string): (r: seq<DungeonDrop>)
    ensures |r| <= |drops|
    ensures forall k :: 0 <= k < |r| ==> r[k] in drops && GetDropCategory(r[k].material) == kind
    ensures forall d :: d in drops && GetDropCategory(d.material) == kind ==> d in r
  {
    if drops == [] then []
    else
      var last := drops[|drops| - 1];
      OfKind(drops[..|drops| - 1], kind) + (if GetDropCategory(last.material) == kind then [last] else [])
  }

  /** The drops of a kind are the list's drops of that kind, all of them,
      picked out in list order. */
  lemma {:induction false} OfKindIsFilter(drops: seq<DungeonDrop>, kind: string) returns (idx: seq<int>)
    ensures Embeds(OfKind(drops, kind), drops, idx)
    ensures forall k :: 0 <= k < |OfKind(drops, kind)| ==> GetDropCategory(OfKind(drops, kind)[k].material) == kind
    ensures forall d :: d in drops && GetDropCategory(d.material) == kind ==> d in OfKind(drops, kind)
  {
    if drops == [] {
      idx := [];
    } else {
      var init := drops[..|drops| - 1];
      var last := drops[|drops| - 1];
      assert drops == init + [last];
      var prev := OfKindIsFilter(init, kind);
      if GetDropCategory(last.material) == kind {
        EmbedsSnoc(OfKind(init, kind), init, prev, last);
        idx := prev + [|init|];
      } else {
        EmbedsExtend(OfKind(init, kind), init, prev, last);
        idx := prev;
      }
    }
  }

  /** The item a drop shows in the grid: the drop's own item, with the
      removal hint as its only lore line. */
  function GridItem(drop: DungeonDrop): ItemStack {
    var item := drop.ToItemStack();
    ItemStack(item.material, item.name, [REMOVE_LINE], item.amount)
  }

  /** The slot map of a menu's grid: a kind's drops, at most 21 of them, in
      the grid's slots; no grid outside a kind's menu. */
  function DropLayout(drops: seq<DungeonDrop>, mode: string): map<int, DungeonDrop> {
    if mode in KINDS then Placed(OfKind(drops, mode), GRID_SLOTS) else map[]
  }

  lemma GridSlotsDistinct()
    ensures Distinct(GRID_SLOTS)
    ensures forall k :: 0 <= k < |GRID_SLOTS| ==> 10 <= GRID_SLOTS[k] <= 34
  {
    assert Increasing(GRID_SLOTS);
    IncreasingDistinct(GRID_SLOTS);
  }

  /** In a kind's menu the k-th grid slot holds the k-th drop of that kind
      while there are drops left; drops past the 21st are not shown, and
      every shown drop is of the menu's kind. */
  lemma DropLayoutShape(drops: seq<DungeonDrop>, kind: string)
    requires kind in KINDS
    ensures forall k :: 0 <= k < |GRID_SLOTS| ==>
      (GRID_SLOTS[k] in DropLayout(drops, kind) <==> k < |OfKind(drops, kind)|)
    ensures forall k :: 0 <= k < |GRID_SLOTS| && k < |OfKind(drops, kind)| ==>
      DropLayout(drops, kind)[GRID_SLOTS[k]] == OfKind(drops, kind)[k]
    ensures forall s :: s in DropLayout(drops, kind) ==>
      s in GRID_SLOTS && DropLayout(drops, kind)[s] in drops
      && GetDropCategory(DropLayout(drops, kind)[s].material) == kind
  {
    GridSlotsDistinct();
    var shown := OfKind(drops, kind);
    PlacedLayout(shown, GRID_SLOTS);
    var idx := OfKindIsFilter(drops, kind);
    forall s | s in DropLayout(drops, kind)
      ensures DropLayout(drops, kind)[s] in drops && GetDropCategory(DropLayout(drops, kind)[s].material) == kind
    {
      var d := DropLayout(drops, kind)[s];
      var k :| 0 <= k < |shown| && shown[k] == d;
      assert d == drops[idx[k]];
    }
  }

  // ---------------------------------------------------------------------
  // What a menu shows

  /** The summary line of a drop in the main menu. */
  function DropLine(drop: DungeonDrop): string {
    "\U{00A7}8- §f" + ReplaceChar(drop.displayName, '&', "§")
  }

  /** The lore of the main menu's drop summary: the count, then either a
      note that there are none or the first five drops and how many more
      there are. */
  function SummaryLore(drops: seq<DungeonDrop>): seq<string> {
    var head := ["\U{00A7}7Total drops: §f" + IntToString(|drops|), ""];
    if |drops| == 0 then head + ["\U{00A7}7No drops configured yet"]
    else
      head + ["\U{00A7}7First few drops:"] + seq(Min(5, |drops|), k requires 0 <= k < Min(5, |drops|) => DropLine(drops[k]))
      + (if |drops| > 5 then ["\U{00A7}7... and " + IntToString(|drops| - 5) + " more"] else [])
  }

  /** At most five drops are listed, the first ones in list order, and one
      more line counts the rest. */
  lemma SummaryLoreShape(drops: seq<DungeonDrop>)
    ensures |SummaryLore(drops)| == if |drops| == 0 then 3 else 3 + Min(5, |drops|) + (if |drops| > 5 then 1 else 0)
    ensures forall k :: 0 <= k < Min(5, |drops|) ==> SummaryLore(drops)[3 + k] == DropLine(drops[k])
  {
  }

  function SummaryItem(drops: seq<DungeonDrop>): ItemStack {
    ItemStack("CHEST", Some("\U{00A7}6Current Drops"), SummaryLore(drops), 1)
  }

  /** The item a mode's menu puts into a slot on top of the background:
      the kind buttons and the summary in the main menu; the grid, the
      add-from-hand button and the quick-add buttons in a kind's menu. */
  function MenuItem(drops: seq<DungeonDrop>, mode: string, slot: int): Option<ItemStack> {
    if mode == MAIN then
      if slot == KIND_SLOTS[0] then Some(KindButton(ITEMS))
      else if slot == KIND_SLOTS[1] then Some(KindButton(MATERIALS))
      else if slot == KIND_SLOTS[2] then Some(KindButton(OTHER))
      else if slot == SUMMARY_SLOT then Some(SummaryItem(drops))
      else None
    else if mode in KINDS then
      if slot == HAND_SLOT then Some(HAND_BUTTON)
      else if slot == QUICK_SLOTS[0] then Some(QuickAddButton(QuickMaterials(mode)[0]))
      else if slot == QUICK_SLOTS[1] then Some(QuickAddButton(QuickMaterials(mode)[1]))
      else if slot == QUICK_SLOTS[2] then Some(QuickAddButton(QuickMaterials(mode)[2]))
      else if slot in DropLayout(drops, mode) then Some(GridItem(DropLayout(drops, mode)[slot]))
      else None
    else None
  }

  /** The actions a mode's menu adds to the action map `m`. */
  function MenuActions(mode: string, m: map<int, string>): map<int, string> {
    if mode == MAIN then
      m[KIND_SLOTS[0] := ITEMS][KIND_SLOTS[1] := MATERIALS][KIND_SLOTS[2] := OTHER]
    else if mode in KINDS then
      var quick := QuickMaterials(mode);
      m[HAND_SLOT := HAND_ACTION][QUICK_SLOTS[0] := QuickAddAction(quick[0])]
       [QUICK_SLOTS[1] := QuickAddAction(quick[1])][QUICK_SLOTS[2] := QuickAddAction(quick[2])]
    else m
  }

  /** The buttons of the bottom row: back (outside the main menu), exit and
      save. */
  function ButtonItem(mode: string, slot: int): Option<ItemStack> {
    if slot == BACK_SLOT && mode != MAIN then Some(BACK_BUTTON)
    else if slot == EXIT_SLOT then Some(EXIT_BUTTON)
    else if slot == SAVE_SLOT then Some(SAVE_BUTTON)
    else None
  }

  /** The actions the bottom row adds to the action map `m`. */
  function ButtonActions(mode: string, m: map<int, string>): map<int, string> {
    (if mode != MAIN then m[BACK_SLOT := BACK_ACTION] else m)[EXIT_SLOT := EXIT_ACTION][SAVE_SLOT := SAVE_ACTION]
  }

  /** The action map `initializeItems` leaves. */
  function ActionLayout(mode: string): map<int, string> {
    ButtonActions(mode, MenuActions(mode, map[]))
  }

  /** What `initializeItems` leaves in a slot. */
  function EditScreen(info: ItemStack, drops: seq<DungeonDrop>, mode: string, slot: int): Slot {
    if ButtonItem(mode, slot).Some? then ButtonItem(mode, slot)
    else if MenuItem(drops, mode, slot).Some? then MenuItem(drops, mode, slot)
    else if slot == INFO_SLOT then Some(info)
    else Some(BACKGROUND)
  }

  /** The slots that carry an action: exit and save always, back outside
      the main menu, the kind buttons in the main menu, the add buttons in a
      kind's menu. */
  lemma ActionSlots(mode: string)
    ensures forall s :: s in ActionLayout(mode) <==>
      s == EXIT_SLOT || s == SAVE_SLOT || (s == BACK_SLOT && mode != MAIN)
      || (mode == MAIN && s in KIND_SLOTS) || (mode in KINDS && (s == HAND_SLOT || s in QUICK_SLOTS))
  {
  }

  /** No grid slot of a kind's menu carries an action. */
  lemma GridSlotNoAction(mode: string, s: int)
    requires mode in KINDS && 10 <= s <= 34
    ensures s !in ActionLayout(mode)
  {
    ActionSlots(mode);
  }

  /** Exit and save are offered in every mode, back only outside the main
      menu; a drop's grid slot never carries an action, so a click on it
      reaches the removal test. */
  lemma ActionsPerMode(drops: seq<DungeonDrop>, mode: string)
    ensures ActionLayout(mode)[EXIT_SLOT] == EXIT_ACTION
    ensures ActionLayout(mode)[SAVE_SLOT] == SAVE_ACTION
    ensures BACK_SLOT in ActionLayout(mode) <==> mode != MAIN
    ensures forall s :: s in DropLayout(drops, mode) ==> s !in ActionLayout(mode)
  {
    if mode in KINDS {
      DropLayoutShape(drops, mode);
      GridSlotsDistinct();
      forall s | s in DropLayout(drops, mode)
        ensures s !in ActionLayout(mode)
      {
        var k :| 0 <= k < |GRID_SLOTS| && GRID_SLOTS[k] == s;
        GridSlotNoAction(mode, s);
      }
    }
  }

  /** Every slot with an action shows a button. */
  lemma ActionsShowButtons(drops: seq<DungeonDrop>, mode: string)
    ensures forall s :: s in ActionLayout(mode) ==> ButtonItem(mode, s).Some? || MenuItem(drops, mode, s).Some?
  {
    ActionSlots(mode);
  }

  /** No menu and no button covers the dungeon item. */
  lemma InfoSlotFree(drops: seq<DungeonDrop>, mode: string)
    ensures MenuItem(drops, mode, INFO_SLOT).None? && ButtonItem(mode, INFO_SLOT).None?
  {
    if mode in KINDS {
      DropLayoutShape(drops, mode);
      assert INFO_SLOT !in GRID_SLOTS;
    }
  }

  /** In a kind's menu each quick-add button's action is an "add_" action,
      not the add-from-hand one, that names the button's material, and that
      material is of the menu's kind. */
  lemma QuickAddActionsPerKind(kind: string, k: int)
    requires kind in KINDS && 0 <= k < 3
    ensures QUICK_SLOTS[k] in ActionLayout(kind)
    ensures StartsWith(ActionLayout(kind)[QUICK_SLOTS[k]], ADD_PREFIX)
    ensures ActionLayout(kind)[QUICK_SLOTS[k]] != HAND_ACTION
    ensures QuickAddMaterial(ActionLayout(kind)[QUICK_SLOTS[k]]) == QuickMaterials(kind)[k]
    ensures GetDropCategory(QuickAddMaterial(ActionLayout(kind)[QUICK_SLOTS[k]])) == kind
  {
    var m := QuickMaterials(kind)[k];
    assert ActionLayout(kind)[QUICK_SLOTS[k]] == QuickAddAction(m);
    QuickMaterialsAreEnumNames(kind, k);
    QuickAddRoundTrip(m);
    QuickAddNotFromHand(m);
    QuickAddInOwnMenu(kind, k);
  }

  lemma QuickMaterialsAreEnumNames(kind: string, k: int)
    requires kind in KINDS && 0 <= k < 3
    ensures IsEnumName(QuickMaterials(kind)[k])
  {
    var m := QuickMaterials(kind)[k];
    forall i | 0 <= i < |m|
      ensures !('a' <= m[i] <= 'z')
    {
      assert 'A' <= m[i] <= 'Z' || m[i] == '_';
    }
  }

  // ---------------------------------------------------------------------
  // The GUI

  /** What a click leads to besides the change to the drop list: the
      command the player runs, the save, the menu opened next, the error
      messages, and the editor reopened in the same mode after a drop was
      added (with the new drop's material and name) or removed. */
  datatype EditAction =
    | RunCommand(command: string)
    | SaveDrops(dungeonId: string)
    | OpenMenu(mode: string)
    | NeedItemInHand
    | AddedDrop(reopen: string, material: Material, name: string)
    | InvalidMaterial(name: string)
    | RemovedDrop(reopen: string)
    | NoAction

  /** `after` is `before` with one new drop at the end, of the material and
      name the action reports. */
  ghost predicate AppendedDrop(before: seq<DungeonDrop>, after: seq<DungeonDrop>, action: EditAction)
    requires action.AddedDrop?
  {
    |after| == |before| + 1 && after[..|before|] == before
    && after[|before|].material == action.material && after[|before|].displayName == action.name
  }

  /** The actions the click handler's tests recognise. */
  predicate KnownAction(a: string) {
    a == EXIT_ACTION || a == SAVE_ACTION || a == BACK_ACTION || a in KINDS || StartsWith(a, ADD_PREFIX)
  }

  /** A right or shift-right click: the clicks that remove a drop. */
  predicate RemovingClick(click: ClickType) {
    click == Right || click == ShiftRight
  }

  /** The outcome of `handleClick` for a recognised action `a`. The hand
      item and the set of names `Material.valueOf` accepts are inputs. */
  function ActionOutcome(mode: string, dungeonId: string, categoryId: string, a: string,
                         hand: Slot, materials: set<Material>): EditAction
    requires KnownAction(a)
  {
    if a == EXIT_ACTION then RunCommand("dungeon " + categoryId)
    else if a == SAVE_ACTION then SaveDrops(dungeonId)
    else if a == BACK_ACTION then OpenMenu(MAIN)
    else if a in KINDS then OpenMenu(a)
    else if a == HAND_ACTION then
      if hand.None? || hand.value.material == AIR then NeedItemInHand
      else AddedDrop(mode, hand.value.material, NameForItem(hand.value))
    else
      var m := QuickAddMaterial(a);
      if m in materials then AddedDrop(mode, m, NameForItem(Plain(m))) else InvalidMaterial(m)
  }

  /** The outcome of `handleClick`: the slot's action when it is one the
      tests recognise, otherwise the removal of the slot's drop on a
      removing click, otherwise nothing. */
  function ClickOutcome(mode: string, dungeonId: string, categoryId: string, slotAction: Option<string>,
                        onDrop: bool, click: ClickType, hand: Slot, materials: set<Material>): EditAction
  {
    if slotAction.Some? && KnownAction(slotAction.value) then
      ActionOutcome(mode, dungeonId, categoryId, slotAction.value, hand, materials)
    else if onDrop && RemovingClick(click) then RemovedDrop(mode)
    else NoAction
  }

  class DropEditGui {
    const player: Player
    const dungeon: Dungeon
    const mode: string
    const title: string
    const inventory: array<Slot>
    var slotToActionMap: map<int, string>
    var slotToDropMap: map<int, DungeonDrop>

    /** The dungeon's drop list when the GUI was built. */
    ghost const listed: seq<DungeonDrop>

    /** Both slot maps describe the current mode only. */
    ghost predicate Valid()
      reads this
    {
      inventory.Length == SIZE
      && slotToActionMap == ActionLayout(mode)
      && slotToDropMap == DropLayout(listed, mode)
    }

    /** The editor for a dungeon in a mode. The fields are set before the
        items are built, the order `GuiConstruction.FIELDS_FIRST` names; in
        the source's own order the construction throws
        (`GuiConstruction.AsWrittenThrows`). */
    constructor (player: Player, dungeon: Dungeon, mode: string)
      ensures this.player == player && this.dungeon == dungeon && this.mode == mode
      ensures title == TITLE_PREFIX + dungeon.name
      ensures fresh(inventory) && listed == dungeon.possibleDrops && Valid()
      ensures forall s :: 0 <= s < SIZE ==>
        inventory[s] == EditScreen(DungeonInfo(dungeon), dungeon.possibleDrops, mode, s)
    {
      this.player := player;
      this.dungeon := dungeon;
      this.mode := mode;
      title := TITLE_PREFIX + dungeon.name;
      listed := dungeon.possibleDrops;
      inventory := new Slot[SIZE](_ => None);
      slotToActionMap := map[];
      slotToDropMap := map[];
      new;
      InitializeItems();
    }

    /** `initializeItems`: both maps and the chest are cleared, the
        background and the dungeon item go in, then the mode's menu and the
        bottom row's buttons. */
    method InitializeItems()
      requires inventory.Length == SIZE
      modifies inventory, this`slotToActionMap, this`slotToDropMap
      ensures slotToActionMap == ActionLayout(mode)
      ensures slotToDropMap == DropLayout(dungeon.possibleDrops, mode)
      ensures forall s {:trigger inventory[s]} :: 0 <= s < SIZE ==>
        inventory[s] == EditScreen(DungeonInfo(dungeon), dungeon.possibleDrops, mode, s)
    {
      var drops := dungeon.possibleDrops;
      FillBackground();
      inventory[INFO_SLOT] := Some(DungeonInfo(dungeon));
      SetupMenu(drops);
      SetupButtons();
      InfoSlotFree(drops, mode);
    }

    /** The mode switch of `initializeItems`: an unknown mode sets up no
        menu. */
    method SetupMenu(drops: seq<DungeonDrop>)
      requires inventory.Length == SIZE && slotToDropMap == map[]
      modifies inventory, this`slotToActionMap, this`slotToDropMap
      ensures slotToDropMap == DropLayout(drops, mode)
      ensures slotToActionMap == MenuActions(mode, old(slotToActionMap))
      ensures forall s {:trigger inventory[s]} :: 0 <= s < SIZE ==>
        inventory[s] == (if MenuItem(drops, mode, s).Some? then MenuItem(drops, mode, s) else old(inventory[s]))
    {
      if mode == MAIN {
        SetupMainMenu(drops);
      } else if mode == ITEMS {
        SetupKindMenu(drops, ITEMS, DIAMOND_SWORD, DIAMOND_CHESTPLATE, BOW);
      } else if mode == MATERIALS {
        SetupKindMenu(drops, MATERIALS, IRON_INGOT, GOLD_INGOT, EMERALD);
      } else if mode == OTHER {
        SetupKindMenu(drops, OTHER, EXPERIENCE_BOTTLE, GOLDEN_APPLE, ENCHANTED_BOOK);
      }
    }

    /** The clearing and the background loop. */
    method FillBackground()
      requires inventory.Length == SIZE
      modifies inventory, this`slotToActionMap, this`slotToDropMap
      ensures slotToActionMap == map[] && slotToDropMap == map[]
      ensures forall s {:trigger inventory[s]} :: 0 <= s < SIZE ==> inventory[s] == Some(BACKGROUND)
    {
      forall i | 0 <= i < inventory.Length {
        inventory[i] := None;
      }
      slotToActionMap := map[];
      slotToDropMap := map[];
      for i := 0 to inventory.Length
        invariant slotToActionMap == map[] && slotToDropMap == map[]
        invariant forall s {:trigger inventory[s]} :: 0 <= s < SIZE ==>
          inventory[s] == (if s < i then Some(BACKGROUND) else None)
      {
        inventory[i] := Some(BACKGROUND);
      }
    }

    /** `setupMainMenu`: a button per kind, and the drop summary. */
    method SetupMainMenu(drops: seq<DungeonDrop>)
      requires inventory.Length == SIZE
      modifies inventory, this`slotToActionMap
      ensures slotToActionMap == MenuActions(MAIN, old(slotToActionMap))
      ensures forall s {:trigger inventory[s]} :: 0 <= s < SIZE ==>
        inventory[s] == (if MenuItem(drops, MAIN, s).Some? then MenuItem(drops, MAIN, s) else old(inventory[s]))
    {
      PutButton(KIND_SLOTS[0], KindButton(ITEMS), ITEMS);
      PutButton(KIND_SLOTS[1], KindButton(MATERIALS), MATERIALS);
      PutButton(KIND_SLOTS[2], KindButton(OTHER), OTHER);
      var lore := Summary(drops);
      inventory[SUMMARY_SLOT] := Some(ItemStack("CHEST", Some("\U{00A7}6Current Drops"), lore, 1));
    }

    /** Puts a button into a slot and records its action. */
    method PutButton(slot: int, item: ItemStack, action: string)
      requires 0 <= slot < inventory.Length
      modifies inventory, this`slotToActionMap
      ensures slotToActionMap == old(slotToActionMap)[slot := action]
      ensures forall s {:trigger inventory[s]} :: 0 <= s < inventory.Length ==>
        inventory[s] == (if s == slot then Some(item) else old(inventory[s]))
    {
      inventory[slot] := Some(item);
      slotToActionMap := slotToActionMap[slot := action];
    }

    /** The summary lore, built line by line: the loop stops after five
        drops. */
    static method Summary(drops: seq<DungeonDrop>) returns (lore: seq<string>)
      ensures lore == SummaryLore(drops)
    {
      var dropCount := |drops|;
      lore := ["\U{00A7}7Total drops: §f" + IntToString(dropCount), ""];
      if dropCount == 0 {
        lore := lore + ["\U{00A7}7No drops configured yet"];
      } else {
        lore := lore + ["\U{00A7}7First few drops:"];
        ghost var head := lore;
        var count := 0;
        while count < dropCount
          invariant 0 <= count <= Min(5, dropCount)
          invariant lore == head + seq(count, k requires 0 <= k < count => DropLine(drops[k]))
        {
          if count >= 5 {
            break;
          }
          lore := lore + [DropLine(drops[count])];
          count := count + 1;
        }
        if dropCount > 5 {
          lore := lore + ["\U{00A7}7... and " + IntToString(dropCount - 5) + " more"];
        }
      }
    }

    /** `setupItemsMenu`, `setupMaterialsMenu` and `setupOtherMenu`: the
        kind's drop grid, then `setupCommonItems` with the kind's three
        materials: the add-from-hand button and the quick-add buttons. */
    method SetupKindMenu(drops: seq<DungeonDrop>, kind: string, m1: Material, m2: Material, m3: Material)
      requires inventory.Length == SIZE && kind in KINDS && [m1, m2, m3] == QuickMaterials(kind)
      requires slotToDropMap == map[]
      modifies inventory, this`slotToActionMap, this`slotToDropMap
      ensures slotToDropMap == DropLayout(drops, kind)
      ensures slotToActionMap == MenuActions(kind, old(slotToActionMap))
      ensures forall s {:trigger inventory[s]} :: 0 <= s < SIZE ==>
        inventory[s] == (if MenuItem(drops, kind, s).Some? then MenuItem(drops, kind, s) else old(inventory[s]))
    {
      SetupDropsGrid(drops, kind);
      PutButton(HAND_SLOT, HAND_BUTTON, HAND_ACTION);
      AddQuickAddItem(QUICK_SLOTS[0], m1);
      AddQuickAddItem(QUICK_SLOTS[1], m2);
      AddQuickAddItem(QUICK_SLOTS[2], m3);
    }

    /** `addQuickAddItem`: the button and its "add_" action. */
    method AddQuickAddItem(slot: int, material: Material)
      requires 0 <= slot < inventory.Length
      modifies inventory, this`slotToActionMap
      ensures slotToActionMap == old(slotToActionMap)[slot := QuickAddAction(material)]
      ensures forall s {:trigger inventory[s]} :: 0 <= s < inventory.Length ==>
        inventory[s] == (if s == slot then Some(QuickAddButton(material)) else old(inventory[s]))
    {
      slotToActionMap := slotToActionMap[slot := ADD_PREFIX + ToLower(material)];
      inventory[slot] := Some(QuickAddButton(material));
    }

    /** `setupDropsGrid`: the drops of the kind are picked out in list order,
        then put into the grid's slots until either runs out. */
    method SetupDropsGrid(drops: seq<DungeonDrop>, kind: string)
      requires inventory.Length == SIZE && kind in KINDS && slotToDropMap == map[]
      modifies inventory, this`slotToDropMap
      ensures slotToDropMap == DropLayout(drops, kind)
      ensures forall s {:trigger inventory[s]} :: 0 <= s < SIZE ==>
        inventory[s] == (if s in DropLayout(drops, kind) then Some(GridItem(DropLayout(drops, kind)[s])) else old(inventory[s]))
    {
      var filtered := FilterDrops(drops, kind);
      GridSlotsDistinct();
      ghost var original := inventory[..];
      ghost var placed: map<int, DungeonDrop> := map[];
      var index := 0;
      while index < |filtered|
        invariant 0 <= index <= Min(|filtered|, |GRID_SLOTS|)
        invariant placed == PlacedUpTo(filtered, GRID_SLOTS, index)
        invariant slotToDropMap == placed
        invariant forall s {:trigger inventory[s]} :: 0 <= s < SIZE ==>
          inventory[s] == (if s in placed then Some(GridItem(placed[s])) else original[s])
      {
        if index >= |GRID_SLOTS| {
          break;
        }
        var drop := filtered[index];
        PutDrop(GRID_SLOTS[index], drop, placed, original);
        placed := placed[GRID_SLOTS[index] := drop];
        index := index + 1;
      }
    }

    /** One step of the grid loop: the slot shows the drop and maps to it;
        every other slot keeps what it showed. */
    method PutDrop(slot: int, drop: DungeonDrop, ghost placed: map<int, DungeonDrop>, ghost original: seq<Slot>)
      requires 0 <= slot < inventory.Length == |original|
      requires forall s {:trigger inventory[s]} :: 0 <= s < inventory.Length ==>
        inventory[s] == (if s in placed then Some(GridItem(placed[s])) else original[s])
      modifies inventory, this`slotToDropMap
      ensures slotToDropMap == old(slotToDropMap)[slot := drop]
      ensures forall s {:trigger inventory[s]} :: 0 <= s < inventory.Length ==>
        inventory[s] == (if s in placed[slot := drop] then Some(GridItem(placed[slot := drop][s])) else original[s])
    {
      var item := drop.ToItemStack();
      inventory[slot] := Some(ItemStack(item.material, item.name, [REMOVE_LINE], item.amount));
      slotToDropMap := slotToDropMap[slot := drop];
    }

    /** The filtering loop of `setupDropsGrid`. */
    static method FilterDrops(drops: seq<DungeonDrop>, kind: string) returns (filtered: seq<DungeonDrop>)
      ensures filtered == OfKind(drops, kind)
    {
      filtered := [];
      for i := 0 to |drops|
        invariant filtered == OfKind(drops[..i], kind)
      {
        assert drops[..i + 1][..i] == drops[..i];
        if GetDropCategory(drops[i].material) == kind {
          filtered := filtered + [drops[i]];
        }
      }
      assert drops[..|drops|] == drops;
    }

    /** The bottom row: back outside the main menu, exit and save always. */
    method SetupButtons()
      requires inventory.Length == SIZE
      modifies inventory, this`slotToActionMap
      ensures slotToActionMap == ButtonActions(mode, old(slotToActionMap))
      ensures forall s {:trigger inventory[s]} :: 0 <= s < SIZE ==>
        inventory[s] == (if ButtonItem(mode, s).Some? then ButtonItem(mode, s) else old(inventory[s]))
    {
      if mode != MAIN {
        PutButton(BACK_SLOT, BACK_BUTTON, BACK_ACTION);
      }
      PutButton(EXIT_SLOT, EXIT_BUTTON, EXIT_ACTION);
      PutButton(SAVE_SLOT, SAVE_BUTTON, SAVE_ACTION);
    }

    /** The outcome of a click on `slot` of this editor. */
    function Outcome(slot: int, click: ClickType, hand: Slot, materials: set<Material>): EditAction
      reads this
    {
      ClickOutcome(mode, dungeon.id, dungeon.categoryId,
        if slot in slotToActionMap then Some(slotToActionMap[slot]) else None,
        slot in slotToDropMap, click, hand, materials)
    }

    /** `handleClick`: every click is cancelled. A slot with an action runs
        it; otherwise a right or shift-right click on a drop's slot removes
        that drop (the first occurrence of the same object) from the
        dungeon's list. */
    method HandleClick(slot: int, click: ClickType, hand: Slot, materials: set<Material>)
      returns (cancelled: bool, action: EditAction)
      modifies dungeon`possibleDrops
      ensures cancelled
      ensures action == Outcome(slot, click, hand, materials)
      ensures action.AddedDrop? ==> AppendedDrop(old(dungeon.possibleDrops), dungeon.possibleDrops, action)
      ensures action.AddedDrop? ==> fresh(dungeon.possibleDrops[|old(dungeon.possibleDrops)|])
      ensures action.RemovedDrop? ==>
        dungeon.possibleDrops == RemoveFirst(old(dungeon.possibleDrops), slotToDropMap[slot])
      ensures !action.AddedDrop? && !action.RemovedDrop? ==>
        dungeon.possibleDrops == old(dungeon.possibleDrops)
    {
      cancelled := true;
      if slot in slotToActionMap && KnownAction(slotToActionMap[slot]) {
        action := RunAction(slotToActionMap[slot], hand, materials);
        return;
      }
      if slot in slotToDropMap && (click == Right || click == ShiftRight) {
        var drop := slotToDropMap[slot];
        dungeon.possibleDrops := RemoveFirst(dungeon.possibleDrops, drop);
        return cancelled, RemovedDrop(mode);
      }
      action := NoAction;
    }

    /** The action chain of `handleClick`. */
    method RunAction(a: string, hand: Slot, materials: set<Material>) returns (action: EditAction)
      requires KnownAction(a)
      modifies dungeon`possibleDrops
      ensures action == ActionOutcome(mode, dungeon.id, dungeon.categoryId, a, hand, materials)
      ensures action.AddedDrop? ==> AppendedDrop(old(dungeon.possibleDrops), dungeon.possibleDrops, action)
      ensures action.AddedDrop? ==> fresh(dungeon.possibleDrops[|old(dungeon.possibleDrops)|])
      ensures !action.AddedDrop? ==> dungeon.possibleDrops == old(dungeon.possibleDrops)
    {
      if a == EXIT_ACTION {
        return RunCommand("dungeon " + dungeon.categoryId);
      } else if a == SAVE_ACTION {
        return SaveDrops(dungeon.id);
      } else if a == BACK_ACTION {
        return OpenMenu(MAIN);
      } else if a == ITEMS || a == MATERIALS || a == OTHER {
        return OpenMenu(a);
      } else if a == HAND_ACTION {
        if hand.None? || hand.value.material == AIR {
          return NeedItemInHand;
        }
        action := AddDropFrom(hand.value);
      } else {
        var materialName := ToUpper(a[|ADD_PREFIX|..]);
        if materialName !in materials {
          return InvalidMaterial(materialName);
        }
        action := AddDropFrom(Plain(materialName));
      }
    }

    /** `dungeon.addDrop(new DungeonDrop(item))`, and the editor reopened in
        the same mode. */
    method AddDropFrom(item: ItemStack) returns (action: EditAction)
      modifies dungeon`possibleDrops
      ensures action == AddedDrop(mode, item.material, NameForItem(item))
      ensures AppendedDrop(old(dungeon.possibleDrops), dungeon.possibleDrops, action)
      ensures fresh(dungeon.possibleDrops[|old(dungeon.possibleDrops)|])
    {
      var drop := new DungeonDrop.FromItem(item);
      dungeon.AddDrop(drop);
      action := AddedDrop(mode, drop.material, drop.displayName);
    }
  }

  /** The bottom row of a freshly built editor: exit runs the dungeon
      command of the dungeon's category, save saves the dungeon's drops,
      back (outside the main menu) opens the main menu; in the main menu the
      kind buttons open their kinds' menus. */
  lemma ButtonClicks(gui: DropEditGui, click: ClickType, hand: Slot, materials: set<Material>)
    requires gui.Valid()
    ensures gui.Outcome(EXIT_SLOT, click, hand, materials) == RunCommand("dungeon " + gui.dungeon.categoryId)
    ensures gui.Outcome(SAVE_SLOT, click, hand, materials) == SaveDrops(gui.dungeon.id)
    ensures gui.mode != MAIN ==> gui.Outcome(BACK_SLOT, click, hand, materials) == OpenMenu(MAIN)
    ensures gui.mode == MAIN ==>
      forall k :: 0 <= k < 3 ==> gui.Outcome(KIND_SLOTS[k], click, hand, materials) == OpenMenu(KINDS[k])
  {
    ActionsPerMode(gui.listed, gui.mode);
  }

  /** In a kind's menu a quick-add button adds a drop of its own material,
      named after it, which is of the menu's kind, so the reopened menu shows
      it in its grid (when the grid has room); a material that
      `Material.valueOf` refuses gives the error instead. */
  lemma QuickAddClick(gui: DropEditGui, k: int, click: ClickType, hand: Slot, materials: set<Material>)
    requires gui.Valid() && gui.mode in KINDS && 0 <= k < 3
    ensures var m := QuickMaterials(gui.mode)[k];
      gui.Outcome(QUICK_SLOTS[k], click, hand, materials)
        == if m in materials then AddedDrop(gui.mode, m, FormatMaterialName(m)) else InvalidMaterial(m)
    ensures GetDropCategory(QuickMaterials(gui.mode)[k]) == gui.mode
  {
    QuickAddActionsPerKind(gui.mode, k);
    AddActionOutcome(gui.mode, gui.dungeon.id, gui.dungeon.categoryId, gui.slotToActionMap[QUICK_SLOTS[k]], hand, materials);
  }

  /** An "add_" action other than add-from-hand adds a drop of the material
      it names when `Material.valueOf` accepts the name. */
  lemma AddActionOutcome(mode: string, dungeonId: string, categoryId: string, a: string,
                         hand: Slot, materials: set<Material>)
    requires StartsWith(a, ADD_PREFIX) && a != HAND_ACTION
    ensures KnownAction(a)
    ensures var m := QuickAddMaterial(a);
      ActionOutcome(mode, dungeonId, categoryId, a, hand, materials)
        == if m in materials then AddedDrop(mode, m, FormatMaterialName(m)) else InvalidMaterial(m)
  {
    assert a[0] == 'a';
  }

  /** In a kind's menu the k-th grid slot shows the k-th drop of that kind;
      a right or shift-right click on it removes that drop, any other click
      does nothing. */
  lemma GridClick(gui: DropEditGui, k: int, click: ClickType, hand: Slot, materials: set<Material>)
    requires gui.Valid() && gui.mode in KINDS && 0 <= k < |GRID_SLOTS| && k < |OfKind(gui.listed, gui.mode)|
    ensures GRID_SLOTS[k] in gui.slotToDropMap && gui.slotToDropMap[GRID_SLOTS[k]] == OfKind(gui.listed, gui.mode)[k]
    ensures gui.Outcome(GRID_SLOTS[k], click, hand, materials)
      == if RemovingClick(click) then RemovedDrop(gui.mode) else NoAction
  {
    DropLayoutShape(gui.listed, gui.mode);
    ActionsPerMode(gui.listed, gui.mode);
  }

  /** A drop appended to the list shows up among the drops of its kind. */
  lemma AppendedDropListed(before: seq<DungeonDrop>, drop: DungeonDrop)
    ensures drop in OfKind(before + [drop], GetDropCategory(drop.material))
  {
    var idx := OfKindIsFilter(before + [drop], GetDropCategory(drop.material));
  }
}
