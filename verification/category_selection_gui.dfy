/** The main menu chest: a light blue border, a header, the three known
    categories in a fixed order, and an information item; a slot map
    remembers which category each filled slot shows. */
module CategorySelection {
  import opened Text
  import opened Host
  import opened GuiLayout
  import opened DungeonCategories
  import DungeonSelection

  const TITLE: string := "\U{00A7}8Select Dungeon Category"
  const HEADER_SLOT: int := 4
  const EMPTY_SLOT: int := 22
  const INFO_SLOT: int := 49

  /** The category ids placed, in placement order, and the slot of each. */
  const ORDERED_IDS: seq<string> := ["mythology", "ancient", "fantasy"]
  const CATEGORY_SLOTS: seq<int> := [19, 22, 25]

  const BORDER: ItemStack := Named("LIGHT_BLUE_STAINED_GLASS_PANE", " ")
  const HEADER: ItemStack :=
    ItemStack("ENCHANTED_BOOK", Some("\U{00A7}6§lDungeon Categories"),
      ["\U{00A7}7Select a category to view available dungeons", "\U{00A7}7Each category offers unique challenges"], 1)
  const NO_CATEGORIES: ItemStack := Named(BARRIER, "§cNo categories available")

  /** The item of a placed category. */
  function CategoryIcon(category: DungeonCategory): ItemStack {
    ItemStack(category.icon, Some("\U{00A7}6" + category.name), ["\U{00A7}7" + category.description, "", "§e» Click to view dungeons «"], 1)
  }

  /** The information item at the bottom, counting every category of the
      map, shown or not. */
  function InfoItem(count: int): ItemStack {
    ItemStack("PAPER", Some("\U{00A7}6Party Dungeon System"),
      ["\U{00A7}7Available Categories: §f" + IntToString(count), "\U{00A7}7You must be in a party to enter dungeons",
       "\U{00A7}7Some dungeons require keys to enter"], 1)
  }

  /** Row 0 or 5, or column 0 or 8, of the six-by-nine chest. */
  predicate OnBorder(slot: int) {
    0 <= slot < SIZE
    && (slot / COLUMNS == 0 || slot / COLUMNS == 5 || slot % COLUMNS == 0 || slot % COLUMNS == COLUMNS - 1)
  }

  /** The slot map after the first `n` ids of the fixed order have been
      looked up: an id the map has is placed in its slot, a missing one is
      skipped. */
  function ShownUpTo(categories: map<string, DungeonCategory>, n: nat): map<int, DungeonCategory>
    requires n <= 3
  {
    if n == 0 then map[]
    else
      var prev := ShownUpTo(categories, n - 1);
      var id := ORDERED_IDS[n - 1];
      if id in categories then prev[CATEGORY_SLOTS[n - 1] := categories[id]] else prev
  }

  /** The slot map of a non-empty category map. */
  function Shown(categories: map<string, DungeonCategory>): map<int, DungeonCategory> {
    ShownUpTo(categories, 3)
  }

  /** Only the three known ids are placed, each at its own slot, and a
      missing id leaves its slot unmapped. */
  lemma ShownLayout(categories: map<string, DungeonCategory>)
    ensures forall k :: 0 <= k < 3 ==> (CATEGORY_SLOTS[k] in Shown(categories) <==> ORDERED_IDS[k] in categories)
    ensures forall k :: 0 <= k < 3 && ORDERED_IDS[k] in categories ==>
      Shown(categories)[CATEGORY_SLOTS[k]] == categories[ORDERED_IDS[k]]
    ensures forall s :: s in Shown(categories) ==> s in CATEGORY_SLOTS
  {
    assert ShownUpTo(categories, 0) == map[];
    assert ORDERED_IDS[0] == "mythology" && CATEGORY_SLOTS[0] == 19;
    var m1 := ShownUpTo(categories, 1);
    var m2 := ShownUpTo(categories, 2);
    assert m1 == if "mythology" in categories then map[19 := categories["mythology"]] else map[];
    assert m2 == if "ancient" in categories then m1[22 := categories["ancient"]] else m1;
    assert Shown(categories) == if "fantasy" in categories then m2[25 := categories["fantasy"]] else m2;
  }

  /** What `initializeItems` leaves in a slot. */
  function CategoryScreen(categories: map<string, DungeonCategory>, slot: int): Slot {
    if slot == HEADER_SLOT then Some(HEADER)
    else if |categories| == 0 then
      if slot == EMPTY_SLOT then Some(NO_CATEGORIES)
      else if OnBorder(slot) then Some(BORDER)
      else None
    else if slot == INFO_SLOT then Some(InfoItem(|categories|))
    else if slot in Shown(categories) then Some(CategoryIcon(Shown(categories)[slot]))
    else if OnBorder(slot) then Some(BORDER)
    else None
  }

  /** With no category at all only the header, the border and the barrier
      are shown: no category item and no information item. */
  lemma EmptyScreen(categories: map<string, DungeonCategory>)
    requires |categories| == 0
    ensures CategoryScreen(categories, EMPTY_SLOT) == Some(NO_CATEGORIES)
    ensures CategoryScreen(categories, INFO_SLOT) == Some(BORDER)
    ensures forall s :: CategoryScreen(categories, s).Some? ==>
      s == HEADER_SLOT || s == EMPTY_SLOT || OnBorder(s)
  {
    assert OnBorder(INFO_SLOT);
  }

  class CategorySelectionGui {
    const player: Player
    const categories: map<string, DungeonCategory>
    const title: string
    const inventory: array<Slot>
    var slotToCategoryMap: map<int, DungeonCategory>

    /** The slot map describes the category map the GUI was built from. */
    ghost predicate Valid()
      reads this
    {
      inventory.Length == SIZE
      && slotToCategoryMap == (if |categories| == 0 then map[] else Shown(categories))
    }

    /** The main menu for a player. The fields are set before the items
        are built, the order `GuiConstruction.FIELDS_FIRST` names; in the
        source's own order the construction throws
        (`GuiConstruction.AsWrittenThrows`). */
    constructor (player: Player, categories: map<string, DungeonCategory>)
      ensures this.player == player && this.categories == categories && title == TITLE
      ensures fresh(inventory) && Valid()
      ensures forall s :: 0 <= s < SIZE ==> inventory[s] == CategoryScreen(categories, s)
    {
      this.player := player;
      this.categories := categories;
      title := TITLE;
      inventory := new Slot[SIZE](_ => None);
      slotToCategoryMap := map[];
      new;
      InitializeItems();
    }

    /** `initializeItems`: clear, border, header; then either the barrier
        alone, or the categories and the information item. */
    method InitializeItems()
      requires inventory.Length == SIZE
      modifies inventory, this`slotToCategoryMap
      ensures slotToCategoryMap == (if |categories| == 0 then map[] else Shown(categories))
      ensures forall s {:trigger inventory[s]} :: 0 <= s < SIZE ==> inventory[s] == CategoryScreen(categories, s)
    {
      forall i | 0 <= i < inventory.Length {
        inventory[i] := None;
      }
      slotToCategoryMap := map[];
      FillBorder();
      inventory[HEADER_SLOT] := Some(HEADER);
      if |categories| == 0 {
        inventory[EMPTY_SLOT] := Some(NO_CATEGORIES);
        return;
      }
      PlaceCategories();
      inventory[INFO_SLOT] := Some(InfoItem(|categories|));
      ShownLayout(categories);
      assert !OnBorder(19) && !OnBorder(22) && !OnBorder(25);
    }

    /** The two border loops: the top and bottom rows, then the left and
        right columns; every other slot keeps what it held. */
    method FillBorder()
      requires inventory.Length == SIZE
      modifies inventory
      ensures forall s {:trigger inventory[s]} :: 0 <= s < SIZE ==>
        inventory[s] == (if OnBorder(s) then Some(BORDER) else old(inventory[s]))
    {
      for i := 0 to COLUMNS
        invariant forall s {:trigger inventory[s]} :: 0 <= s < SIZE ==>
          inventory[s] == (if s < i || 45 <= s < 45 + i then Some(BORDER) else old(inventory[s]))
      {
        inventory[i] := Some(BORDER);
        inventory[45 + i] := Some(BORDER);
      }
      for i := 0 to 6
        invariant forall s {:trigger inventory[s]} :: 0 <= s < SIZE ==>
          inventory[s] == (if s < 9 || 45 <= s || (s / COLUMNS < i && (s % COLUMNS == 0 || s % COLUMNS == 8))
                           then Some(BORDER) else old(inventory[s]))
      {
        inventory[i * 9] := Some(BORDER);
        inventory[i * 9 + 8] := Some(BORDER);
      }
    }

    /** The placement loop: for each id of the fixed order that the map
        has, its slot shows the category's item and maps to the category. */
    method PlaceCategories()
      requires inventory.Length == SIZE && slotToCategoryMap == map[]
      modifies inventory, this`slotToCategoryMap
      ensures slotToCategoryMap == Shown(categories)
      ensures forall s {:trigger inventory[s]} :: 0 <= s < SIZE ==>
        inventory[s] == (if s in Shown(categories) then Some(CategoryIcon(Shown(categories)[s])) else old(inventory[s]))
    {
      for i := 0 to |ORDERED_IDS|
        invariant slotToCategoryMap == ShownUpTo(categories, i)
        invariant forall s {:trigger inventory[s]} :: 0 <= s < SIZE ==>
          inventory[s] == (if s in slotToCategoryMap then Some(CategoryIcon(slotToCategoryMap[s])) else old(inventory[s]))
      {
        var categoryId := ORDERED_IDS[i];
        if categoryId in categories {
          var category := categories[categoryId];
          var slot := CATEGORY_SLOTS[i];
          inventory[slot] := Some(CategoryIcon(category));
          slotToCategoryMap := slotToCategoryMap[slot := category];
        }
      }
    }

    /** `handleClick`: every click is cancelled; a mapped slot opens the
        dungeon list of its category, any other slot does nothing. */
    method HandleClick(slot: int) returns (cancelled: bool, next: DungeonSelection.DungeonSelectionGui?)
      ensures cancelled
      ensures next != null <==> slot in slotToCategoryMap
      ensures next != null ==>
        fresh(next) && next.player == player && next.category == slotToCategoryMap[slot] && next.Valid()
    {
      cancelled := true;
      next := null;
      if slot in slotToCategoryMap {
        var category := slotToCategoryMap[slot];
        next := new DungeonSelection.DungeonSelectionGui(player, category);
      }
    }
  }

  /** A click on the slot of a known id that the map has opens that
      category. */
  lemma ClickOpensOrderedCategory(gui: CategorySelectionGui, k: int)
    requires gui.Valid() && 0 <= k < 3 && ORDERED_IDS[k] in gui.categories
    ensures CATEGORY_SLOTS[k] in gui.slotToCategoryMap
    ensures gui.slotToCategoryMap[CATEGORY_SLOTS[k]] == gui.categories[ORDERED_IDS[k]]
  {
    ShownLayout(gui.categories);
  }
}
