/** The listener that sees every inventory click. It cancels clicks in the
    plugin's chests, which it knows by a title starting with `PLUGIN_MARK`. It routes
    the click by the title. It then recognises the clicked item by its
    material and display name, not by the GUIs' slot maps. */
module GuiListener {
  import opened Text
  import opened Host
  import opened DungeonDrops
  import opened Dungeons
  import opened DungeonCategories
  import opened DungeonManagement
  import Completions
  import CategorySelection
  import DungeonSelection
  import Preview
  import DropEdit

  /** The colour code every title of the plugin starts with. */
  const PLUGIN_MARK: string := "\U{00A7}8"

  /** The titles and title prefixes the listener compares against. */
  const CATEGORY_TITLE: string := "\U{00A7}8Select Dungeon Category"
  const DUNGEONS_PREFIX: string := "\U{00A7}8Dungeons - "
  const DROPS_PREFIX: string := "\U{00A7}8Possible Drops - "
  const EDIT_PREFIX: string := "\U{00A7}8Edit Drops - "

  /** The number of characters `substring` cuts off a title to get the
      dungeon's name. The prefixes are longer: 19 and 15 characters. */
  const PREVIEW_NAME_START: int := 16
  const EDIT_NAME_START: int := 13

  /** The colour codes in front of a category's and a dungeon's name. */
  const CATEGORY_MARK: string := "\U{00A7}6"
  const DUNGEON_MARK: string := "§e"

  /** The back button of the dungeon list and of the preview. */
  const BACK_SLOT: int := 49

  /** The buttons of the edit chest as the listener knows them. */
  const EDIT_BACK_SLOT: int := 45
  const EDIT_HAND_SLOT: int := 47
  const EDIT_SAVE_SLOT: int := 49

  /** The edit chest's buttons as the listener tells them: by slot and
      material. */
  datatype EditButton = BackButton | HandButton | SaveButton | NoButton

  function EditButtonAt(slot: int, material: Material): (r: EditButton)
    ensures r == BackButton <==> slot == EDIT_BACK_SLOT && material == ARROW
    ensures r == HandButton <==> slot == EDIT_HAND_SLOT && material == EMERALD
    ensures r == SaveButton <==> slot == EDIT_SAVE_SLOT && material == WRITABLE_BOOK
  {
    if slot == EDIT_BACK_SLOT && material == ARROW then BackButton
    else if slot == EDIT_HAND_SLOT && material == EMERALD then HandButton
    else if slot == EDIT_SAVE_SLOT && material == WRITABLE_BOOK then SaveButton
    else NoButton
  }

  /** The lore line that marks an item as a removable drop. */
  const REMOVE_LORE: string := "§cShift + Right Click to remove"

  /** The chest a click happened in, as the title tells it. */
  datatype Screen =
    | Foreign       // no title, or not one of the plugin's titles
    | Unhandled     // a plugin title that no handler takes
    | CategoryList
    | DungeonList
    | DropPreview
    | DropEditor

  /** `onInventoryClick`'s tests, in their order. */
  function Route(title: Option<string>): (r: Screen)
    ensures r != Foreign <==> title.Some? && StartsWith(title.value, PLUGIN_MARK)
    ensures r == CategoryList <==> title == Some(CATEGORY_TITLE)
    ensures r == DungeonList ==> StartsWith(title.value, DUNGEONS_PREFIX)
    ensures r == DropPreview ==> StartsWith(title.value, DROPS_PREFIX) && |title.value| >= PREVIEW_NAME_START
    ensures r == DropEditor ==> StartsWith(title.value, EDIT_PREFIX) && |title.value| >= EDIT_NAME_START
    ensures r == Unhandled ==>
      !StartsWith(title.value, DUNGEONS_PREFIX) && !StartsWith(title.value, DROPS_PREFIX)
      && !StartsWith(title.value, EDIT_PREFIX)
  {
    if title.None? || !StartsWith(title.value, PLUGIN_MARK) then Foreign
    else if title.value == CATEGORY_TITLE then CategoryList
    else if StartsWith(title.value, DUNGEONS_PREFIX) then DungeonList
    else if StartsWith(title.value, DROPS_PREFIX) then DropPreview
    else if StartsWith(title.value, EDIT_PREFIX) then DropEditor
    else Unhandled
  }

  /** A prefix of a title starting with one of the plugin's prefixes. */
  lemma StartsWithPrefix(s: string, p: string, q: string)
    requires StartsWith(s, p) && StartsWith(p, q)
    ensures StartsWith(s, q)
  {
    assert s[..|q|] == p[..|q|];
  }

  /** The titles the plugin's chests are built with reach their own
      handlers; the editable preview's title is cancelled but handled by
      none. */
  lemma RoutesGuiTitles(name: string)
    ensures Route(Some(CategorySelection.TITLE)) == CategoryList
    ensures Route(Some(DungeonSelection.TITLE_PREFIX + name)) == DungeonList
    ensures Route(Some(Preview.Title(false, name))) == DropPreview
    ensures Route(Some(DropEdit.TITLE_PREFIX + name)) == DropEditor
    ensures Route(Some(Preview.Title(true, name))) == Unhandled
  {
    var dungeons := DungeonSelection.TITLE_PREFIX + name;
    assert dungeons[..|DUNGEONS_PREFIX|] == DUNGEONS_PREFIX;
    StartsWithPrefix(dungeons, DUNGEONS_PREFIX, PLUGIN_MARK);
    assert dungeons[2] != CATEGORY_TITLE[2];

    var view := Preview.Title(false, name);
    StartsWithPrefix(view, DROPS_PREFIX, PLUGIN_MARK);
    assert view[2] == 'P';

    var edit := DropEdit.TITLE_PREFIX + name;
    assert edit[..|EDIT_PREFIX|] == EDIT_PREFIX;
    StartsWithPrefix(edit, EDIT_PREFIX, PLUGIN_MARK);
    assert edit[2] == 'E';

    var editable := Preview.Title(true, name);
    StartsWithPrefix(editable, Preview.EDIT_PREFIX, PLUGIN_MARK);
    assert editable[2] == 'E' && editable[7] == 'P' && EDIT_PREFIX[7] == 'D';
  }

  /** A title's name as `handleDropPreview` cuts it: the title of a preview
      for `name` gives " - " followed by `name`, never `name` itself. */
  lemma PreviewTitleName(name: string)
    ensures Preview.Title(false, name)[PREVIEW_NAME_START..] == " - " + name
    ensures Preview.Title(false, name)[PREVIEW_NAME_START..] != name
  {
    var title := Preview.Title(false, name);
    assert title == Preview.VIEW_PREFIX + name;
    assert title[PREVIEW_NAME_START..] == Preview.VIEW_PREFIX[PREVIEW_NAME_START..] + name;
  }

  /** A title's name as `handleDropEdit` cuts it: the title of an edit chest
      for `name` gives "- " followed by `name`, never `name` itself. */
  lemma EditTitleName(name: string)
    ensures (DropEdit.TITLE_PREFIX + name)[EDIT_NAME_START..] == "- " + name
    ensures (DropEdit.TITLE_PREFIX + name)[EDIT_NAME_START..] != name
  {
    var title := DropEdit.TITLE_PREFIX + name;
    assert title[EDIT_NAME_START..] == DropEdit.TITLE_PREFIX[EDIT_NAME_START..] + name;
  }

  /** An empty slot, air or the white glass background: every handler
      returns at once on these. */
  predicate Ignored(item: Slot) {
    item.None? || item.value.material == AIR || item.value.material == WHITE_STAINED_GLASS_PANE
  }

  /** `getItemMeta().getDisplayName()`: the empty string when the meta has
      no display name. */
  function DisplayName(item: ItemStack): string {
    item.name.GetOr("")
  }

  /** The item shows the category: its icon, and its name after `CATEGORY_MARK`. */
  predicate ShowsCategory(item: ItemStack, category: DungeonCategory) {
    item.material == category.icon && DisplayName(item) == CATEGORY_MARK + category.name
  }

  /** The item shows the dungeon: its icon, and its name after "§e". */
  predicate ShowsDungeon(item: ItemStack, dungeon: Dungeon) {
    item.material == dungeon.icon && DisplayName(item) == DUNGEON_MARK + dungeon.name
  }

  ghost predicate ShowsSomeDungeon(dungeons: map<string, Dungeon>, item: ItemStack) {
    exists id :: id in dungeons && ShowsDungeon(item, dungeons[id])
  }

  /** Names one mark puts in front of are equal only when the names are. */
  lemma MarkedNamesEqual(mark: string, a: string, b: string)
    requires mark + a == mark + b
    ensures a == b
  {
    assert a == (mark + a)[|mark|..];
    assert b == (mark + b)[|mark|..];
  }

  /** The category chest's item for a category shows that category, and
      shows another category only when it has the same icon and name. */
  lemma CategoryIconShown(category: DungeonCategory, other: DungeonCategory)
    ensures ShowsCategory(CategorySelection.CategoryIcon(category), category)
    ensures ShowsCategory(CategorySelection.CategoryIcon(category), other) ==>
      other.icon == category.icon && other.name == category.name
  {
    if ShowsCategory(CategorySelection.CategoryIcon(category), other) {
      MarkedNamesEqual(CATEGORY_MARK, other.name, category.name);
    }
  }

  /** The dungeon list's item for a dungeon shows that dungeon, whatever
      its key, and shows another dungeon only when it has the same icon and
      name. */
  lemma DungeonIconShown(dungeon: Dungeon, other: Dungeon, keyId: Option<string>, keyDisplayName: Option<string>)
    ensures ShowsDungeon(DungeonSelection.IconWithKey(dungeon, keyId, keyDisplayName), dungeon)
    ensures ShowsDungeon(DungeonSelection.IconWithKey(dungeon, keyId, keyDisplayName), other) ==>
      other.icon == dungeon.icon && other.name == dungeon.name
  {
    if ShowsDungeon(DungeonSelection.IconWithKey(dungeon, keyId, keyDisplayName), other) {
      MarkedNamesEqual(DUNGEON_MARK, other.name, dungeon.name);
    }
  }

  /** The drop-edit chest's grid items carry another removal hint than the
      one the listener looks for. */
  lemma GridItemsNotRemovable(drop: DungeonDrop)
    ensures REMOVE_LORE !in DropEdit.GridItem(drop).lore
  {
    assert DropEdit.GridItem(drop).lore == [DropEdit.REMOVE_LINE];
    assert REMOVE_LORE[2] != DropEdit.REMOVE_LINE[2];
  }

  /** The name `handleDropEdit` looks for among the drops: the item's display
      name with every "§" turned into "&". */
  function EditName(item: ItemStack): (r: string)
    ensures '§' !in r
  {
    ReplaceChar(DisplayName(item), '§', "&")
  }

  /** The drop has the item's material and the drop-list form of its name. */
  predicate Names(drop: DungeonDrop, material: Material, name: string) {
    drop.material == material && drop.displayName == name
  }

  /** The position of the first drop in list order with the material and
      the name. */
  function FirstNamedDrop(drops: seq<DungeonDrop>, material: Material, name: string): (r: Option<nat>)
    ensures r.None? <==> forall k :: 0 <= k < |drops| ==> !Names(drops[k], material, name)
    ensures r.Some? ==>
      r.value < |drops| && Names(drops[r.value], material, name)
      && forall j :: 0 <= j < r.value ==> !Names(drops[j], material, name)
  {
    if drops == [] then None
    else if Names(drops[0], material, name) then Some(0)
    else match FirstNamedDrop(drops[1..], material, name)
      case None => None
      case Some(k) => Some(k + 1)
  }

  /** `List.remove(drop)` on the first named drop takes out exactly that
      position: the same object cannot sit earlier in the list, since it
      would have been named there first. */
  lemma RemoveFirstNamed(drops: seq<DungeonDrop>, material: Material, name: string)
    requires FirstNamedDrop(drops, material, name).Some?
    ensures RemoveFirst(drops, drops[FirstNamedDrop(drops, material, name).value])
         == RemovedAt(drops, FirstNamedDrop(drops, material, name).value)
  {
    var i := FirstNamedDrop(drops, material, name).value;
    var x := drops[i];
    assert x in drops;
    var k :| 0 <= k < |drops| && drops[k] == x && x !in drops[..k] && RemoveFirst(drops, x) == RemovedAt(drops, k);
  }

  /** On the edit chest itself, the hand and save slots show other
      materials than the listener expects, so neither button is ever
      recognised there; the back arrow of a kind's menu is. */
  lemma EditChestButtons(info: ItemStack, drops: seq<DungeonDrop>, mode: string)
    ensures EditButtonAt(EDIT_HAND_SLOT, DropEdit.EditScreen(info, drops, mode, EDIT_HAND_SLOT).value.material) == NoButton
    ensures EditButtonAt(EDIT_SAVE_SLOT, DropEdit.EditScreen(info, drops, mode, EDIT_SAVE_SLOT).value.material) == NoButton
    ensures mode != DropEdit.MAIN ==>
      EditButtonAt(EDIT_BACK_SLOT, DropEdit.EditScreen(info, drops, mode, EDIT_BACK_SLOT).value.material) == BackButton
  {
  }

  /** What the listener asks for: a GUI to open, a message to send, a call
      into the dungeon manager, or nothing. */
  datatype ListenerAction =
    | NoAction
    | OpenCategoryList                                  // `openCategoryGUI`
    | OpenDungeonList(categoryId: string)               // `openDungeonGUI`
    | OpenDropPreview(dungeonId: string)                // `openDropPreviewGUI`
    | EnterDungeon(dungeonId: string)                   // `dungeonManager.enterDungeon`
    | DungeonNotFound                                   // close and "Dungeon not found"
    | NeedItemInHand                                    // the empty-hand message
    | AddedHandDrop(dungeonId: string)                  // message, `openDropEditGUI`
    | SavedDrops(dungeonId: string, categoryId: string) // `saveDrops`, message, `openDungeonGUI`
    | RemovedDrop(dungeonId: string)                    // message, `openDropEditGUI`

  class GuiListener {
    const manager: DungeonManager

    constructor (manager: DungeonManager)
      ensures this.manager == manager
    {
      this.manager := manager;
    }

    /** `onInventoryClick`: cancel a click in any chest of the plugin, then
        hand it to the handler its title names, whose decision is the
        action. Only a click in an edit chest can change a drop list, and
        only that of the dungeon `edited` the title names. */
    method OnInventoryClick(title: Option<string>, slot: int, item: Slot, click: ClickType, hand: Slot)
      returns (cancelled: bool, action: ListenerAction, ghost edited: Dungeon?)
      modifies manager.dungeons.Values`possibleDrops
      ensures cancelled <==> Route(title) != Foreign
      ensures Route(title) == Foreign || Route(title) == Unhandled ==> action == NoAction
      ensures Route(title) != DropEditor ==>
        edited == null && forall d :: d in manager.dungeons.Values ==> d.possibleDrops == old(d.possibleDrops)
      // the category list
      ensures Route(title) == CategoryList ==>
        (action == NoAction || action.OpenDungeonList?)
        && (action.OpenDungeonList? <==>
              !Ignored(item) && exists id :: id in manager.categories && ShowsCategory(item.value, manager.categories[id]))
        && (action.OpenDungeonList? ==>
              exists id :: id in manager.categories && ShowsCategory(item.value, manager.categories[id])
                && manager.categories[id].id == action.categoryId)
      // a category's dungeon list
      ensures Route(title) == DungeonList ==>
        (action == NoAction || action == OpenCategoryList || action.OpenDropPreview? || action.EnterDungeon?)
        && (action == OpenCategoryList <==> !Ignored(item) && slot == BACK_SLOT && item.value.material == ARROW)
        && (action.OpenDropPreview? <==>
              !Ignored(item) && !(slot == BACK_SLOT && item.value.material == ARROW)
              && click == ShiftRight && ShowsSomeDungeon(manager.dungeons, item.value))
        && (action.EnterDungeon? <==>
              !Ignored(item) && !(slot == BACK_SLOT && item.value.material == ARROW)
              && click == Left && ShowsSomeDungeon(manager.dungeons, item.value))
        && (action.OpenDropPreview? || action.EnterDungeon? ==>
              exists id :: id in manager.dungeons && ShowsDungeon(item.value, manager.dungeons[id])
                && manager.dungeons[id].id == action.dungeonId)
      // a drop preview
      ensures Route(title) == DropPreview ==>
        |title.value| >= PREVIEW_NAME_START
        && (action == NoAction || action == OpenCategoryList || action.OpenDungeonList?)
        && (!(!Ignored(item) && slot == BACK_SLOT && item.value.material == ARROW) ==> action == NoAction)
        && (action == OpenCategoryList <==>
              !Ignored(item) && slot == BACK_SLOT && item.value.material == ARROW
              && forall id :: id in manager.dungeons ==> manager.dungeons[id].name != title.value[PREVIEW_NAME_START..])
        && (action.OpenDungeonList? ==>
              exists id :: id in manager.dungeons && manager.dungeons[id].name == title.value[PREVIEW_NAME_START..]
                && manager.dungeons[id].categoryId == action.categoryId)
      // a drop editor
      ensures Route(title) == DropEditor ==>
        |title.value| >= EDIT_NAME_START
        && (Ignored(item) ==> action == NoAction && edited == null)
        && (!Ignored(item) ==>
              (edited == null <==>
                forall id :: id in manager.dungeons ==> manager.dungeons[id].name != title.value[EDIT_NAME_START..]))
        && (!Ignored(item) && edited == null ==> action == DungeonNotFound)
        && (edited != null ==> edited in manager.dungeons.Values && edited.name == title.value[EDIT_NAME_START..])
        && (forall d :: d in manager.dungeons.Values && d != edited ==> d.possibleDrops == old(d.possibleDrops))
      ensures Route(title) == DropEditor && edited != null ==>
        var button := EditButtonAt(slot, item.value.material);
        (button == BackButton ==> action == OpenDungeonList(edited.categoryId))
        && (button == HandButton ==>
              action == (if hand.None? || hand.value.material == AIR then NeedItemInHand else AddedHandDrop(edited.id)))
        && (button == SaveButton ==> action == SavedDrops(edited.id, edited.categoryId))
        && (button == NoButton ==>
              (action == RemovedDrop(edited.id) || action == NoAction)
              && (action == RemovedDrop(edited.id) <==>
                    REMOVE_LORE in item.value.lore && click == ShiftRight
                    && FirstNamedDrop(old(edited.possibleDrops), item.value.material, EditName(item.value)).Some?))
      ensures Route(title) == DropEditor && edited != null && action == AddedHandDrop(edited.id) ==>
        hand.Some? && hand.value.material != AIR
        && |edited.possibleDrops| == |old(edited.possibleDrops)| + 1
        && edited.possibleDrops[..|old(edited.possibleDrops)|] == old(edited.possibleDrops)
        && fresh(edited.possibleDrops[|old(edited.possibleDrops)|])
        && edited.possibleDrops[|old(edited.possibleDrops)|].material == hand.value.material
        && edited.possibleDrops[|old(edited.possibleDrops)|].displayName == NameForItem(hand.value)
      ensures Route(title) == DropEditor && edited != null && action == RemovedDrop(edited.id) ==>
        edited.possibleDrops == RemovedAt(old(edited.possibleDrops),
          FirstNamedDrop(old(edited.possibleDrops), item.value.material, EditName(item.value)).value)
      ensures Route(title) == DropEditor && edited != null && action != AddedHandDrop(edited.id)
              && action != RemovedDrop(edited.id) ==>
        edited.possibleDrops == old(edited.possibleDrops)
    {
      cancelled := false;
      action := NoAction;
      edited := null;
      var screen := Route(title);
      if screen == Foreign {
        return;
      }
      cancelled := true;
      match screen {
        case CategoryList =>
          action := HandleCategorySelection(item);
        case DungeonList =>
          action := HandleDungeonSelection(slot, item, click);
        case DropPreview =>
          action := HandleDropPreview(title.value, slot, item);
        case DropEditor =>
          action, edited := HandleDropEdit(title.value, slot, item, click, hand);
        case _ =>
      }
    }

    /** `handleCategorySelection`: the first category, in the map's
        iteration order, that the item shows opens its dungeon list. */
    method HandleCategorySelection(item: Slot) returns (action: ListenerAction)
      ensures action == NoAction || action.OpenDungeonList?
      ensures action.OpenDungeonList? <==>
        !Ignored(item) && exists id :: id in manager.categories && ShowsCategory(item.value, manager.categories[id])
      ensures action.OpenDungeonList? ==>
        exists id :: id in manager.categories && ShowsCategory(item.value, manager.categories[id])
          && manager.categories[id].id == action.categoryId
    {
      if Ignored(item) {
        return NoAction;
      }
      var categories := manager.categories;
      var keys := Completions.KeysInSomeOrder(categories);
      for i := 0 to |keys|
        invariant forall j :: 0 <= j < i ==> !ShowsCategory(item.value, categories[keys[j]])
      {
        var category := categories[keys[i]];
        if ShowsCategory(item.value, category) {
          return OpenDungeonList(category.id);
        }
      }
      forall id | id in categories
        ensures !ShowsCategory(item.value, categories[id])
      {
        var j :| 0 <= j < |keys| && keys[j] == id;
      }
      action := NoAction;
    }

    /** `handleDungeonSelection`: the back button opens the category list;
        otherwise a dungeon the item shows is previewed on a shift-right
        click and entered on a left click; other clicks do nothing. */
    method HandleDungeonSelection(slot: int, item: Slot, click: ClickType) returns (action: ListenerAction)
      ensures Ignored(item) ==> action == NoAction
      ensures action == OpenCategoryList <==>
        !Ignored(item) && slot == BACK_SLOT && item.value.material == ARROW
      ensures action.OpenDropPreview? <==>
        !Ignored(item) && !(slot == BACK_SLOT && item.value.material == ARROW)
        && click == ShiftRight && ShowsSomeDungeon(manager.dungeons, item.value)
      ensures action.EnterDungeon? <==>
        !Ignored(item) && !(slot == BACK_SLOT && item.value.material == ARROW)
        && click == Left && ShowsSomeDungeon(manager.dungeons, item.value)
      ensures action.OpenDropPreview? || action.EnterDungeon? ==>
        exists id :: id in manager.dungeons && ShowsDungeon(item.value, manager.dungeons[id])
          && manager.dungeons[id].id == action.dungeonId
      ensures action == NoAction || action == OpenCategoryList || action.OpenDropPreview? || action.EnterDungeon?
    {
      if Ignored(item) {
        return NoAction;
      }
      if slot == BACK_SLOT && item.value.material == ARROW {
        return OpenCategoryList;
      }
      var dungeons := manager.dungeons;
      var keys := Completions.KeysInSomeOrder(dungeons);
      for i := 0 to |keys|
        invariant click == ShiftRight || click == Left ==>
          forall j :: 0 <= j < i ==> !ShowsDungeon(item.value, dungeons[keys[j]])
      {
        var dungeon := dungeons[keys[i]];
        if ShowsDungeon(item.value, dungeon) {
          if click == ShiftRight {
            return OpenDropPreview(dungeon.id);
          } else if click == Left {
            return EnterDungeon(dungeon.id);
          }
        }
      }
      if click == ShiftRight || click == Left {
        forall id | id in dungeons
          ensures !ShowsDungeon(item.value, dungeons[id])
        {
          var j :| 0 <= j < |keys| && keys[j] == id;
        }
      }
      action := NoAction;
    }

    /** `handleDropPreview`: only the back button acts. It opens the list of
        the category of a dungeon named by the title from its 16th character
        on, or the category list when no dungeon has that name. */
    method HandleDropPreview(title: string, slot: int, item: Slot) returns (action: ListenerAction)
      requires |title| >= PREVIEW_NAME_START
      ensures !(!Ignored(item) && slot == BACK_SLOT && item.value.material == ARROW) ==> action == NoAction
      ensures action == OpenCategoryList <==>
        !Ignored(item) && slot == BACK_SLOT && item.value.material == ARROW
        && forall id :: id in manager.dungeons ==> manager.dungeons[id].name != title[PREVIEW_NAME_START..]
      ensures action.OpenDungeonList? ==>
        exists id :: id in manager.dungeons && manager.dungeons[id].name == title[PREVIEW_NAME_START..]
          && manager.dungeons[id].categoryId == action.categoryId
      ensures action == NoAction || action == OpenCategoryList || action.OpenDungeonList?
    {
      if Ignored(item) || !(slot == BACK_SLOT && item.value.material == ARROW) {
        return NoAction;
      }
      var dungeonName := title[PREVIEW_NAME_START..];
      var dungeons := manager.dungeons;
      var keys := Completions.KeysInSomeOrder(dungeons);
      for i := 0 to |keys|
        invariant forall j :: 0 <= j < i ==> dungeons[keys[j]].name != dungeonName
      {
        var dungeon := dungeons[keys[i]];
        if dungeon.name == dungeonName {
          return OpenDungeonList(dungeon.categoryId);
        }
      }
      forall id | id in dungeons
        ensures dungeons[id].name != dungeonName
      {
        var j :| 0 <= j < |keys| && keys[j] == id;
      }
      action := OpenCategoryList;
    }

    /** `findDungeonByName`: some dungeon with the name, in the map's
        iteration order, or null when there is none. */
    method FindDungeonByName(name: string) returns (dungeon: Dungeon?)
      ensures dungeon == null <==> forall id :: id in manager.dungeons ==> manager.dungeons[id].name != name
      ensures dungeon != null ==> dungeon in manager.dungeons.Values && dungeon.name == name
    {
      var dungeons := manager.dungeons;
      var keys := Completions.KeysInSomeOrder(dungeons);
      for i := 0 to |keys|
        invariant forall j :: 0 <= j < i ==> dungeons[keys[j]].name != name
      {
        var candidate := dungeons[keys[i]];
        if candidate.name == name {
          return candidate;
        }
      }
      forall id | id in dungeons
        ensures dungeons[id].name != name
      {
        var j :| 0 <= j < |keys| && keys[j] == id;
      }
      dungeon := null;
    }

    /** `handleDropEdit`: the dungeon is looked up by the title from its
        13th character on; when there is none the chest closes with an
        error. Otherwise the back, hand and save buttons act, and an item
        carrying the removal hint removes the first drop it names on a
        shift-right click. Only that dungeon's drop list can change. */
    method HandleDropEdit(title: string, slot: int, item: Slot, click: ClickType, hand: Slot)
      returns (action: ListenerAction, ghost dungeon: Dungeon?)
      requires |title| >= EDIT_NAME_START
      modifies manager.dungeons.Values`possibleDrops
      ensures Ignored(item) ==> action == NoAction && dungeon == null
      ensures !Ignored(item) ==>
        (dungeon == null <==> forall id :: id in manager.dungeons ==> manager.dungeons[id].name != title[EDIT_NAME_START..])
      ensures !Ignored(item) && dungeon == null ==> action == DungeonNotFound
      ensures dungeon != null ==> dungeon in manager.dungeons.Values && dungeon.name == title[EDIT_NAME_START..]
      ensures forall d :: d in manager.dungeons.Values && d != dungeon ==> d.possibleDrops == old(d.possibleDrops)
      ensures dungeon != null && EditButtonAt(slot, item.value.material) == BackButton ==>
        action == OpenDungeonList(dungeon.categoryId)
      ensures dungeon != null && EditButtonAt(slot, item.value.material) == HandButton ==>
        action == (if hand.None? || hand.value.material == AIR then NeedItemInHand else AddedHandDrop(dungeon.id))
      ensures dungeon != null && EditButtonAt(slot, item.value.material) == SaveButton ==>
        action == SavedDrops(dungeon.id, dungeon.categoryId)
      ensures dungeon != null && EditButtonAt(slot, item.value.material) == NoButton ==>
        (action == RemovedDrop(dungeon.id) || action == NoAction)
        && (action == RemovedDrop(dungeon.id) <==>
              REMOVE_LORE in item.value.lore && click == ShiftRight
              && FirstNamedDrop(old(dungeon.possibleDrops), item.value.material, EditName(item.value)).Some?)
      ensures dungeon != null && action == AddedHandDrop(dungeon.id) ==>
        hand.Some? && hand.value.material != AIR
        && |dungeon.possibleDrops| == |old(dungeon.possibleDrops)| + 1
        && dungeon.possibleDrops[..|old(dungeon.possibleDrops)|] == old(dungeon.possibleDrops)
        && fresh(dungeon.possibleDrops[|old(dungeon.possibleDrops)|])
        && dungeon.possibleDrops[|old(dungeon.possibleDrops)|].material == hand.value.material
        && dungeon.possibleDrops[|old(dungeon.possibleDrops)|].displayName == NameForItem(hand.value)
      ensures dungeon != null && action == RemovedDrop(dungeon.id) ==>
        dungeon.possibleDrops == RemovedAt(old(dungeon.possibleDrops),
          FirstNamedDrop(old(dungeon.possibleDrops), item.value.material, EditName(item.value)).value)
      ensures dungeon != null && action != AddedHandDrop(dungeon.id) && action != RemovedDrop(dungeon.id) ==>
        dungeon.possibleDrops == old(dungeon.possibleDrops)
    {
      dungeon := null;
      if Ignored(item) {
        return NoAction, null;
      }
      var clicked := item.value;
      var found := FindDungeonByName(title[EDIT_NAME_START..]);
      dungeon := found;
      if found == null {
        return DungeonNotFound, null;
      }
      var button := EditButtonAt(slot, clicked.material);
      if button == BackButton {
        return OpenDungeonList(found.categoryId), found;
      }
      if button == HandButton {
        if hand.None? || hand.value.material == AIR {
          return NeedItemInHand, found;
        }
        var drop := new DungeonDrop.FromItem(hand.value);
        found.AddDrop(drop);
        return AddedHandDrop(found.id), found;
      }
      if button == SaveButton {
        return SavedDrops(found.id, found.categoryId), found;
      }
      action := NoAction;
      if clicked.HasMeta() && REMOVE_LORE in clicked.lore {
        var removed := RemoveNamedDrop(found, clicked.material, EditName(clicked), click);
        if removed {
          action := RemovedDrop(found.id);
        }
      }
    }

    /** The loop over the drop list: on a shift-right click the first drop
        with the material and name is removed, and the loop ends; on any
        other click no drop is removed. */
    static method RemoveNamedDrop(dungeon: Dungeon, material: Material, name: string, click: ClickType)
      returns (removed: bool)
      modifies dungeon`possibleDrops
      ensures removed <==> click == ShiftRight && FirstNamedDrop(old(dungeon.possibleDrops), material, name).Some?
      ensures removed ==>
        dungeon.possibleDrops == RemovedAt(old(dungeon.possibleDrops), FirstNamedDrop(old(dungeon.possibleDrops), material, name).value)
      ensures !removed ==> dungeon.possibleDrops == old(dungeon.possibleDrops)
    {
      var drops := dungeon.possibleDrops;
      var i := 0;
      while i < |drops|
        invariant 0 <= i <= |drops|
        invariant click == ShiftRight ==> forall j :: 0 <= j < i ==> !Names(drops[j], material, name)
      {
        var drop := drops[i];
        if drop.material == material && drop.displayName == name {
          if click == ShiftRight {
            RemoveFirstNamed(drops, material, name);
            dungeon.possibleDrops := RemoveFirst(drops, drop);
            return true;
          }
        }
        i := i + 1;
      }
      removed := false;
    }
  }
}
