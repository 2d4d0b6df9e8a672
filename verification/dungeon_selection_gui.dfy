/** The chest GUI that lists the dungeons of one category, grouped by tier:
    each tier has its own fixed run of slots, and a slot map remembers which
    dungeon each filled slot shows. */
module DungeonSelection {
  import opened Text
  import opened Host
  import opened Seqs
  import opened GuiLayout
  import opened Dungeons
  import opened DungeonCategories

  const TITLE_PREFIX: string := "\U{00A7}8Dungeons - "
  const INFO_SLOT: int := 4
  const BACK_SLOT: int := 49

  /** The slots of tiers 1 to 5, in placement order. */
  const TIER_SLOTS: seq<seq<int>> := [
    [19, 20, 21],
    [22, 23, 24, 25],
    [28, 29, 30, 31],
    [32, 33, 34],
    [37, 38, 39, 40, 41, 42, 43]
  ]

  /** The first slot of each tier's run. */
  const TIER_FIRST: seq<int> := [19, 22, 28, 32, 37]

  /** The slots of tier `t`. */
  function TierSlots(t: int): seq<int>
    requires 1 <= t <= 5
  {
    TIER_SLOTS[t - 1]
  }

  /** The slot of each tier's label. */
  const LABEL_SLOTS: seq<int> := [10, 16, 27, 35, 46]

  const BACKGROUND: ItemStack := Named(WHITE_STAINED_GLASS_PANE, " ")
  const BACK_BUTTON: ItemStack := Named(ARROW, "§cBack to Categories")

  /** `addTierLabel` for tier `k + 1`. */
  function TierLabel(k: int): ItemStack
    requires 0 <= k < 5
  {
    var names := ["§fTier 1", "§aTier 2", "\U{00A7}9Tier 3", "\U{00A7}5Tier 4", "\U{00A7}6Tier 5"];
    var ranks := ["\U{00A7}7Beginner", "\U{00A7}7Intermediate", "\U{00A7}7Advanced", "\U{00A7}7Expert", "\U{00A7}7Master"];
    ItemStack("PAPER", Some(names[k]), [ranks[k]], 1)
  }

  /** The category item at the top: the category's icon, name, description
      and the number of dungeons it lists. */
  function CategoryInfo(category: DungeonCategory, count: int): ItemStack {
    ItemStack(category.icon, Some("\U{00A7}6" + category.name),
      ["\U{00A7}7" + category.description, "", "\U{00A7}7Available Dungeons: §f" + IntToString(count), "",
       "\U{00A7}7Select a dungeon to view details"], 1)
  }

  /** The lore line naming the key, present only when the dungeon requires
      one. A keyed dungeon without a key display name makes the source throw;
      the model shows an empty name there. */
  function KeyLine(keyId: Option<string>, keyDisplayName: Option<string>): (r: seq<string>)
    ensures |r| == (if keyId.Some? && keyId.value != "" then 1 else 0)
  {
    if keyId.Some? && keyId.value != "" then ["\U{00A7}7Required Key: §c" + ReplaceChar(keyDisplayName.GetOr(""), '&', "§")]
    else []
  }

  /** The icon of a dungeon as `addDungeonsToSlots` builds it. */
  function DungeonIcon(d: Dungeon): ItemStack
    reads d
  {
    IconWithKey(d, d.keyId, d.keyDisplayName)
  }

  /** The icon of a dungeon whose key fields hold `keyId` and
      `keyDisplayName`; the other fields it shows never change. */
  function IconWithKey(d: Dungeon, keyId: Option<string>, keyDisplayName: Option<string>): ItemStack {
    ItemStack(d.icon, Some("§e" + d.name), DungeonLore(d, keyId, keyDisplayName), 1)
  }

  /** The icon's lore: description, tier, level, party size, the key line
      when there is one, and the two click hints. */
  function DungeonLore(d: Dungeon, keyId: Option<string>, keyDisplayName: Option<string>): seq<string> {
    ["\U{00A7}7" + d.description, "",
     "\U{00A7}7Tier: §f" + IntToString(d.tier),
     "\U{00A7}7Required Level: §f" + IntToString(d.requiredLevel) + "+",
     "\U{00A7}7Party Size: §f" + IntToString(d.minPartySize) + "-" + IntToString(d.maxPartySize)]
    + KeyLine(keyId, keyDisplayName)
    + ["", "§eClick to enter dungeon", "§eShift + Right Click to view possible drops"]
  }

  /** A dungeon's icon carries its icon material and name, and a key line
      right after the five fixed lines exactly when the dungeon needs a key. */
  lemma DungeonIconShape(d: Dungeon)
    ensures DungeonIcon(d).material == d.icon && DungeonIcon(d).name == Some("§e" + d.name)
    ensures |DungeonIcon(d).lore| == (if d.RequiresKey() then 9 else 8)
    ensures d.RequiresKey() ==> StartsWith(DungeonIcon(d).lore[5], "\U{00A7}7Required Key: ")
  {
    var lore := DungeonIcon(d).lore;
    if d.RequiresKey() {
      var line := KeyLine(d.keyId, d.keyDisplayName)[0];
      assert lore[5] == line;
      assert line == "\U{00A7}7Required Key: " + line[|"\U{00A7}7Required Key: "|..];
    }
  }

  /** The dungeons of one tier, in list order. */
  function TierGroup(dungeons: seq<Dungeon>, tier: int): (g: seq<Dungeon>)
    ensures |g| <= |dungeons|
    ensures forall k :: 0 <= k < |g| ==> g[k] in dungeons && g[k].tier == tier
    ensures forall k :: 0 <= k < |dungeons| && dungeons[k].tier == tier ==> dungeons[k] in g
  {
    if dungeons == [] then []
    else
      var n := |dungeons| - 1;
      var init := TierGroup(dungeons[..n], tier);
      assert dungeons == dungeons[..n] + [dungeons[n]];
      if dungeons[n].tier == tier then init + [dungeons[n]] else init
  }

  /** Each tier's group is a subsequence of the category's list: grouping
      keeps the list order. */
  lemma {:induction false} TierGroupIsSubsequence(dungeons: seq<Dungeon>, tier: int) returns (idx: seq<int>)
    ensures Embeds(TierGroup(dungeons, tier), dungeons, idx)
  {
    if dungeons == [] {
      idx := [];
    } else {
      var n := |dungeons| - 1;
      var init := dungeons[..n];
      var last := dungeons[n];
      idx := TierGroupIsSubsequence(init, tier);
      assert dungeons == init + [last];
      if last.tier == tier {
        EmbedsSnoc(TierGroup(init, tier), init, idx, last);
        idx := idx + [n];
      } else {
        EmbedsExtend(TierGroup(init, tier), init, idx, last);
      }
    }
  }

  /** The loop that fills `dungeonsByTier`: a key for every tier that occurs,
      holding that tier's dungeons in list order. */
  method GroupByTier(dungeons: seq<Dungeon>) returns (byTier: map<int, seq<Dungeon>>)
    ensures forall t :: t in byTier <==> exists k :: 0 <= k < |dungeons| && dungeons[k].tier == t
    ensures forall t :: t in byTier ==> byTier[t] == TierGroup(dungeons, t)
  {
    byTier := map[];
    for i := 0 to |dungeons|
      invariant forall t :: t in byTier <==> exists k :: 0 <= k < i && dungeons[k].tier == t
      invariant forall t :: t in byTier ==> byTier[t] == TierGroup(dungeons[..i], t)
    {
      var dungeon := dungeons[i];
      var tier := dungeon.tier;
      assert dungeons[..i + 1][..i] == dungeons[..i];
      if tier !in byTier {
        NoTierNoGroup(dungeons[..i], tier);
        byTier := byTier[tier := []];
      }
      byTier := byTier[tier := byTier[tier] + [dungeon]];
    }
    assert dungeons[..|dungeons|] == dungeons;
  }

  /** A tier no dungeon has gets an empty group. */
  lemma NoTierNoGroup(dungeons: seq<Dungeon>, tier: int)
    requires forall k :: 0 <= k < |dungeons| ==> dungeons[k].tier != tier
    ensures TierGroup(dungeons, tier) == []
  {
  }

  /** The slot map after the first `n` tiers have been placed, each into its
      own slots and capped at their number. */
  function TierLayoutUpTo(dungeons: seq<Dungeon>, n: nat): map<int, Dungeon>
    requires n <= 5
  {
    if n == 0 then map[]
    else TierLayoutUpTo(dungeons, n - 1) + Placed(TierGroup(dungeons, n), TierSlots(n))
  }

  /** The slot map the GUI builds for a category's list. */
  function TierLayout(dungeons: seq<Dungeon>): map<int, Dungeon> {
    TierLayoutUpTo(dungeons, 5)
  }

  /** The tier whose run of slots holds `slot`, 0 for any other slot. */
  function TierOfSlot(slot: int): (t: int)
    ensures 0 <= t <= 5
  {
    if 19 <= slot <= 21 then 1
    else if 22 <= slot <= 25 then 2
    else if 28 <= slot <= 31 then 3
    else if 32 <= slot <= 34 then 4
    else if 37 <= slot <= 43 then 5
    else 0
  }

  /** Each tier's slots are a run of consecutive slots that belong to that
      tier alone: the runs are pairwise disjoint, and neither the labels nor
      the info or back slot lie in any run. */
  lemma TierSlotRuns()
    ensures forall t, k :: 1 <= t <= 5 && 0 <= k < |TierSlots(t)| ==>
      TierSlots(t)[k] == TIER_FIRST[t - 1] + k && TierOfSlot(TierSlots(t)[k]) == t
    ensures forall k :: 0 <= k < 5 ==> TierOfSlot(LABEL_SLOTS[k]) == 0
    ensures TierOfSlot(INFO_SLOT) == 0 && TierOfSlot(BACK_SLOT) == 0
    ensures forall t :: 1 <= t <= 5 ==> Distinct(TierSlots(t))
  {
    forall t, k | 1 <= t <= 5 && 0 <= k < |TierSlots(t)|
      ensures TierSlots(t)[k] == TIER_FIRST[t - 1] + k && TierOfSlot(TierSlots(t)[k]) == t
    {
      if t == 1 {
      } else if t == 2 {
      } else if t == 3 {
      } else if t == 4 {
      } else {
        assert TIER_SLOTS[4] == [37, 38, 39, 40, 41, 42, 43];
      }
    }
  }

  /** Each tier's slots lie in the chest. */
  lemma TierSlotsInGrid(t: int)
    requires 1 <= t <= 5
    ensures forall k :: 0 <= k < |TierSlots(t)| ==> 0 <= TierSlots(t)[k] < SIZE
  {
    TierSlotRuns();
  }

  /** Every slot of the first `n` tiers' layout lies in the run of the tier
      of its dungeon, and that tier is between 1 and `n`. */
  lemma {:induction false} TierLayoutUpToTiers(dungeons: seq<Dungeon>, n: nat)
    requires n <= 5
    ensures forall s :: s in TierLayoutUpTo(dungeons, n) ==>
      1 <= TierOfSlot(s) <= n && TierLayoutUpTo(dungeons, n)[s].tier == TierOfSlot(s)
      && TierLayoutUpTo(dungeons, n)[s] in dungeons
  {
    if n > 0 {
      TierLayoutUpToTiers(dungeons, n - 1);
      TierSlotRuns();
      var g := TierGroup(dungeons, n);
      var p := Placed(g, TierSlots(n));
      PlacedLayout(g, TierSlots(n));
      forall s | s in p
        ensures TierOfSlot(s) == n && p[s].tier == n && p[s] in dungeons
      {
        var k :| 0 <= k < |TierSlots(n)| && TierSlots(n)[k] == s;
      }
    }
  }

  /** The layout: only dungeons of tiers 1 to 5 are placed, each in the run
      of its own tier, and slot `k` of tier `t` holds the `k`-th dungeon of
      that tier exactly when the tier has that many (the cap). */
  lemma TierLayoutShape(dungeons: seq<Dungeon>)
    ensures forall s :: s in TierLayout(dungeons) ==>
      1 <= TierLayout(dungeons)[s].tier <= 5 && TierOfSlot(s) == TierLayout(dungeons)[s].tier
      && TierLayout(dungeons)[s] in dungeons
    ensures forall t, k :: 1 <= t <= 5 && 0 <= k < |TierSlots(t)| ==>
      (TierSlots(t)[k] in TierLayout(dungeons) <==> k < |TierGroup(dungeons, t)|)
    ensures forall t, k :: 1 <= t <= 5 && 0 <= k < |TierSlots(t)| && k < |TierGroup(dungeons, t)| ==>
      TierLayout(dungeons)[TierSlots(t)[k]] == TierGroup(dungeons, t)[k]
  {
    TierLayoutUpToTiers(dungeons, 5);
    TierSlotRuns();
    forall t, k | 1 <= t <= 5 && 0 <= k < |TierSlots(t)|
      ensures TierSlots(t)[k] in TierLayout(dungeons) <==> k < |TierGroup(dungeons, t)|
      ensures k < |TierGroup(dungeons, t)| ==>
        TierLayout(dungeons)[TierSlots(t)[k]] == TierGroup(dungeons, t)[k]
    {
      TierSlotInLayout(dungeons, t, k, 5);
    }
  }

  /** Tier `t`'s slot `k` is unaffected by the other tiers: its entry in the
      layout of the first `n >= t` tiers is the one tier `t` placed. */
  lemma {:induction false} TierSlotInLayout(dungeons: seq<Dungeon>, t: int, k: int, n: nat)
    requires 1 <= t <= n <= 5 && 0 <= k < |TierSlots(t)|
    ensures TierSlots(t)[k] in TierLayoutUpTo(dungeons, n) <==> k < |TierGroup(dungeons, t)|
    ensures k < |TierGroup(dungeons, t)| ==>
      TierLayoutUpTo(dungeons, n)[TierSlots(t)[k]] == TierGroup(dungeons, t)[k]
  {
    TierSlotRuns();
    var s := TierSlots(t)[k];
    var g := TierGroup(dungeons, n);
    var p := Placed(g, TierSlots(n));
    if n == t {
      PlacedLayout(g, TierSlots(t));
      TierLayoutUpToTiers(dungeons, n - 1);
      assert s !in TierLayoutUpTo(dungeons, n - 1);
    } else {
      TierSlotInLayout(dungeons, t, k, n - 1);
      PlacedLayout(g, TierSlots(n));
      assert s !in p;
    }
  }

  /** The item a slot holds before any dungeon is placed: the category item
      at slot 4, the tier labels, and the background everywhere else. */
  function BaseSlot(category: DungeonCategory, count: int, slot: int): Slot {
    if slot == INFO_SLOT then Some(CategoryInfo(category, count))
    else if slot == 10 then Some(TierLabel(0))
    else if slot == 16 then Some(TierLabel(1))
    else if slot == 27 then Some(TierLabel(2))
    else if slot == 35 then Some(TierLabel(3))
    else if slot == 46 then Some(TierLabel(4))
    else Some(BACKGROUND)
  }

  /** What `initializeItems` leaves in a slot of the GUI for a category whose
      list is `dungeons`. */
  function DungeonSlot(category: DungeonCategory, dungeons: seq<Dungeon>, slot: int): Slot
    reads dungeons
  {
    var layout := TierLayout(dungeons);
    if slot == BACK_SLOT then Some(BACK_BUTTON)
    else if slot in layout then
      TierLayoutUpToTiers(dungeons, 5);
      Some(DungeonIcon(layout[slot]))
    else BaseSlot(category, |dungeons|, slot)
  }

  /** Each placed dungeon shows its icon, and the placing leaves the info
      item, the labels and the back button where they are. */
  lemma ScreenShowsLayout(category: DungeonCategory, dungeons: seq<Dungeon>)
    ensures forall s :: s in TierLayout(dungeons) ==>
      DungeonSlot(category, dungeons, s) == Some(DungeonIcon(TierLayout(dungeons)[s]))
    ensures DungeonSlot(category, dungeons, INFO_SLOT) == Some(CategoryInfo(category, |dungeons|))
    ensures forall k :: 0 <= k < 5 ==> DungeonSlot(category, dungeons, LABEL_SLOTS[k]) == Some(TierLabel(k))
    ensures DungeonSlot(category, dungeons, BACK_SLOT) == Some(BACK_BUTTON)
  {
    TierLayoutShape(dungeons);
    TierSlotRuns();
    assert INFO_SLOT !in TierLayout(dungeons);
    forall k | 0 <= k < 5
      ensures DungeonSlot(category, dungeons, LABEL_SLOTS[k]) == Some(TierLabel(k))
    {
      assert LABEL_SLOTS[k] !in TierLayout(dungeons);
    }
  }

  datatype SelectionAction =
    | BackToCategories
    | OpenDropPreview(dungeonId: string)
    | Enter(dungeonId: string)
    | NoAction

  /** Whether the click is cancelled, and what it does. */
  datatype SelectionClick = SelectionClick(cancelled: bool, action: SelectionAction)

  class DungeonSelectionGui {
    const player: Player
    const category: DungeonCategory
    const title: string
    const inventory: array<Slot>
    var slotToDungeonMap: map<int, Dungeon>

    /** The category's dungeon list when the GUI was built. */
    ghost const listed: seq<Dungeon>

    /** The slot map describes the list the GUI was built from. */
    ghost predicate Valid()
      reads this
    {
      inventory.Length == SIZE && slotToDungeonMap == TierLayout(listed)
    }

    /** The GUI for a category. The fields are set before the items are
        built, the order `GuiConstruction.FIELDS_FIRST` names; in the
        source's own order the construction throws
        (`GuiConstruction.AsWrittenThrows`). */
    constructor (player: Player, category: DungeonCategory)
      ensures this.player == player && this.category == category
      ensures title == TITLE_PREFIX + category.name
      ensures fresh(inventory) && listed == category.dungeons && Valid()
      ensures forall s :: 0 <= s < SIZE ==> inventory[s] == DungeonSlot(category, category.dungeons, s)
    {
      this.player := player;
      this.category := category;
      title := TITLE_PREFIX + category.name;
      listed := category.dungeons;
      inventory := new Slot[SIZE](_ => None);
      slotToDungeonMap := map[];
      new;
      InitializeItems();
    }

    /** `initializeItems`: background everywhere, the category item, the five
        tier labels, each tier's dungeons in its own slots, the back button. */
    method InitializeItems()
      requires inventory.Length == SIZE
      modifies inventory, this`slotToDungeonMap
      ensures slotToDungeonMap == TierLayout(category.dungeons)
      ensures forall s {:trigger inventory[s]} :: 0 <= s < SIZE ==>
        inventory[s] == DungeonSlot(category, category.dungeons, s)
    {
      var dungeons := category.dungeons;
      FillBase(|dungeons|);
      var byTier := GroupByTier(dungeons);
      AddTiers(dungeons, byTier);
      inventory[BACK_SLOT] := Some(BACK_BUTTON);
    }

    /** The part of `initializeItems` before any dungeon is placed: the
        background, then the category item and the tier labels on top. */
    method FillBase(count: int)
      requires inventory.Length == SIZE
      modifies inventory, this`slotToDungeonMap
      ensures slotToDungeonMap == map[]
      ensures forall s {:trigger inventory[s]} :: 0 <= s < SIZE ==> inventory[s] == BaseSlot(category, count, s)
    {
      FillBackground();
      inventory[INFO_SLOT] := Some(CategoryInfo(category, count));
      inventory[10] := Some(TierLabel(0));
      inventory[16] := Some(TierLabel(1));
      inventory[27] := Some(TierLabel(2));
      inventory[35] := Some(TierLabel(3));
      inventory[46] := Some(TierLabel(4));
    }

    /** The chest and the slot map are cleared, then every slot gets the
        background pane. */
    method FillBackground()
      modifies inventory, this`slotToDungeonMap
      ensures slotToDungeonMap == map[]
      ensures forall s {:trigger inventory[s]} :: 0 <= s < inventory.Length ==> inventory[s] == Some(BACKGROUND)
    {
      forall i | 0 <= i < inventory.Length {
        inventory[i] := None;
      }
      slotToDungeonMap := map[];
      for i := 0 to inventory.Length
        invariant forall s {:trigger inventory[s]} :: 0 <= s < i ==> inventory[s] == Some(BACKGROUND)
        invariant slotToDungeonMap == map[]
      {
        inventory[i] := Some(BACKGROUND);
      }
    }

    /** The five tier steps of `initializeItems`, in tier order, on top of
        the base items. */
    method AddTiers(dungeons: seq<Dungeon>, byTier: map<int, seq<Dungeon>>)
      requires inventory.Length == SIZE && slotToDungeonMap == map[]
      requires forall u :: u in byTier <==> exists k :: 0 <= k < |dungeons| && dungeons[k].tier == u
      requires forall u :: u in byTier ==> byTier[u] == TierGroup(dungeons, u)
      requires forall s {:trigger inventory[s]} :: 0 <= s < SIZE ==> inventory[s] == BaseSlot(category, |dungeons|, s)
      modifies inventory, this`slotToDungeonMap
      ensures slotToDungeonMap == TierLayout(dungeons)
      ensures forall s {:trigger inventory[s]} :: 0 <= s < SIZE ==>
        inventory[s] == (if s in slotToDungeonMap then Some(DungeonIcon(slotToDungeonMap[s])) else BaseSlot(category, |dungeons|, s))
    {
      assert TierLayoutUpTo(dungeons, 0) == map[];
      AddTier(dungeons, byTier, 1);
      AddTier(dungeons, byTier, 2);
      AddTier(dungeons, byTier, 3);
      AddTier(dungeons, byTier, 4);
      AddTier(dungeons, byTier, 5);
    }

    /** One of the five `if (dungeonsByTier.containsKey(t))` steps: a tier
        that occurs is placed, a tier that does not leaves everything as it
        is. */
    method AddTier(dungeons: seq<Dungeon>, byTier: map<int, seq<Dungeon>>, t: int)
      requires 1 <= t <= 5 && inventory.Length == SIZE
      requires t in byTier ==> byTier[t] == TierGroup(dungeons, t)
      requires t !in byTier ==> forall k :: 0 <= k < |dungeons| ==> dungeons[k].tier != t
      requires slotToDungeonMap == TierLayoutUpTo(dungeons, t - 1)
      requires forall s {:trigger inventory[s]} :: 0 <= s < SIZE ==>
        inventory[s] == (if s in slotToDungeonMap then Some(DungeonIcon(slotToDungeonMap[s])) else BaseSlot(category, |dungeons|, s))
      modifies inventory, this`slotToDungeonMap
      ensures slotToDungeonMap == TierLayoutUpTo(dungeons, t)
      ensures forall s {:trigger inventory[s]} :: 0 <= s < SIZE ==>
        inventory[s] == (if s in slotToDungeonMap then Some(DungeonIcon(slotToDungeonMap[s])) else BaseSlot(category, |dungeons|, s))
    {
      TierSlotsInGrid(t);
      if t in byTier {
        AddDungeonsToSlots(byTier[t], TierSlots(t));
      } else {
        NoTierNoGroup(dungeons, t);
        assert Placed(TierGroup(dungeons, t), TierSlots(t)) == map[];
        assert TierLayoutUpTo(dungeons, t) == TierLayoutUpTo(dungeons, t - 1);
      }
    }

    /** `addDungeonsToSlots`: the dungeons go into the slots in order until
        either runs out; each placed slot shows the dungeon's icon and is
        recorded in the slot map, and no other slot changes. */
    method AddDungeonsToSlots(dungeons: seq<Dungeon>, slots: seq<int>)
      requires forall k :: 0 <= k < |slots| ==> 0 <= slots[k] < inventory.Length
      modifies inventory, this`slotToDungeonMap
      ensures slotToDungeonMap == old(slotToDungeonMap) + Placed(dungeons, slots)
      ensures forall s {:trigger inventory[s]} :: 0 <= s < inventory.Length ==>
        inventory[s] == (if s in Placed(dungeons, slots) then Some(DungeonIcon(Placed(dungeons, slots)[s])) else old(inventory[s]))
    {
      // The source walks the list and breaks once the slots run out.
      ghost var original := inventory[..];
      ghost var placed: map<int, Dungeon> := map[];
      for index := 0 to Min(|dungeons|, |slots|)
        invariant placed == PlacedUpTo(dungeons, slots, index)
        invariant slotToDungeonMap == old(slotToDungeonMap) + placed
        invariant forall s {:trigger inventory[s]} :: 0 <= s < inventory.Length ==>
          inventory[s] == (if s in placed then Some(DungeonIcon(placed[s])) else original[s])
      {
        var slot := slots[index];
        var dungeon := dungeons[index];
        PutDungeon(slot, dungeon, placed, original);
        UnionPut(old(slotToDungeonMap), placed, slot, dungeon);
        placed := placed[slot := dungeon];
      }
    }

    /** One step of `addDungeonsToSlots`: the slot shows the dungeon's icon
        and maps to the dungeon; every other slot keeps what it showed. */
    method PutDungeon(slot: int, dungeon: Dungeon, ghost placed: map<int, Dungeon>, ghost original: seq<Slot>)
      requires 0 <= slot < inventory.Length == |original|
      requires forall s {:trigger inventory[s]} :: 0 <= s < inventory.Length ==>
        inventory[s] == (if s in placed then Some(DungeonIcon(placed[s])) else original[s])
      modifies inventory, this`slotToDungeonMap
      ensures slotToDungeonMap == old(slotToDungeonMap)[slot := dungeon]
      ensures forall s {:trigger inventory[s]} :: 0 <= s < inventory.Length ==>
        inventory[s] == (if s in placed[slot := dungeon] then Some(DungeonIcon(placed[slot := dungeon][s])) else original[s])
    {
      inventory[slot] := Some(DungeonIcon(dungeon));
      slotToDungeonMap := slotToDungeonMap[slot := dungeon];
    }

    /** `handleClick`: every click is cancelled; slot 49 goes back; on a
        dungeon's slot a shift-right click opens its drop preview and a left
        click enters it; anything else does nothing. */
    function HandleClick(slot: int, click: ClickType): (r: SelectionClick)
      reads this
      ensures r.cancelled
      ensures r.action == BackToCategories <==> slot == BACK_SLOT
      ensures r.action.OpenDropPreview? <==>
        slot != BACK_SLOT && slot in slotToDungeonMap && click == ShiftRight
      ensures r.action.Enter? <==> slot != BACK_SLOT && slot in slotToDungeonMap && click == Left
      ensures r.action.OpenDropPreview? || r.action.Enter? ==> r.action.dungeonId == slotToDungeonMap[slot].id
    {
      if slot == BACK_SLOT then SelectionClick(true, BackToCategories)
      else if slot in slotToDungeonMap then
        var dungeon := slotToDungeonMap[slot];
        if click == ShiftRight then SelectionClick(true, OpenDropPreview(dungeon.id))
        else if click == Left then SelectionClick(true, Enter(dungeon.id))
        else SelectionClick(true, NoAction)
      else SelectionClick(true, NoAction)
    }
  }

  /** A left click on slot `k` of tier `t` enters the `k`-th dungeon of that
      tier in the category's list, when the tier has that many. */
  lemma ClickEntersShownDungeon(gui: DungeonSelectionGui, t: int, k: int)
    requires gui.Valid()
    requires 1 <= t <= 5 && 0 <= k < |TierSlots(t)| && k < |TierGroup(gui.listed, t)|
    ensures gui.HandleClick(TierSlots(t)[k], Left).action == Enter(TierGroup(gui.listed, t)[k].id)
    ensures gui.HandleClick(TierSlots(t)[k], ShiftRight).action == OpenDropPreview(TierGroup(gui.listed, t)[k].id)
  {
    TierLayoutShape(gui.listed);
    TierSlotRuns();
  }
}
