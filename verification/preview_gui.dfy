/** The chest GUI that shows a dungeon's preview items in slots 0 to 44:
    read-only for players, editable for administrators, whose save rebuilds
    the dungeon's preview map from what those slots then hold. */
module Preview {
  import opened Text
  import opened Host
  import opened GuiLayout
  import opened Dungeons

  const EDIT_PREFIX: string := "\U{00A7}8Edit Preview - "
  const VIEW_PREFIX: string := "\U{00A7}8Possible Drops - "

  /** Slots 0 to 44 hold preview items; the bottom row holds the buttons. */
  const PREVIEW_SLOTS: int := 45
  const CLOSE_SLOT: int := 49
  const SAVE_SLOT: int := 53

  const SAVE_BUTTON: ItemStack := Named(EMERALD, "§aSave")

  function CloseButton(editable: bool): ItemStack {
    Named(BARRIER, if editable then "§cCancel" else "§cClose")
  }

  /** The title of the GUI: the prefix tells an editing GUI from a viewing
      one, and the dungeon's name follows it. */
  function Title(editable: bool, name: string): (r: string)
    ensures StartsWith(r, EDIT_PREFIX) <==> editable
    ensures StartsWith(r, VIEW_PREFIX) <==> !editable
    ensures |name| <= |r| && r[|r| - |name|..] == name
  {
    var prefix := if editable then EDIT_PREFIX else VIEW_PREFIX;
    assert EDIT_PREFIX[2] != VIEW_PREFIX[2];
    var r := prefix + name;
    assert r[..|prefix|] == prefix;
    assert r[|r| - |name|..] == name;
    r
  }

  /** A slot the save keeps: not empty and not air. */
  predicate Kept(slot: Slot) {
    slot.Some? && slot.value.material != AIR
  }

  /** The preview map the save loop has built after looking at the first `n`
      slots. */
  function SavedUpTo(contents: seq<Slot>, n: nat): map<int, ItemStack>
    requires n <= |contents|
  {
    if n == 0 then map[]
    else
      var prev := SavedUpTo(contents, n - 1);
      if Kept(contents[n - 1]) then prev[n - 1 := contents[n - 1].value] else prev
  }

  /** The preview map a save leaves, from the contents of the chest. */
  function SavedPreview(contents: seq<Slot>): map<int, ItemStack>
    requires |contents| >= PREVIEW_SLOTS
  {
    SavedUpTo(contents, PREVIEW_SLOTS)
  }

  /** After `n` slots the map holds exactly the kept slots below `n`, each
      with the item it shows. */
  lemma {:induction false} SavedUpToExact(contents: seq<Slot>, n: nat)
    requires n <= |contents|
    ensures forall k :: k in SavedUpTo(contents, n) <==> 0 <= k < n && Kept(contents[k])
    ensures forall k :: k in SavedUpTo(contents, n) ==> contents[k] == Some(SavedUpTo(contents, n)[k])
  {
    if n > 0 {
      SavedUpToExact(contents, n - 1);
    }
  }

  /** The save keeps exactly the non-empty, non-air items of slots 0 to 44,
      each under its own slot; no key lies outside those slots. */
  lemma SavedPreviewExact(contents: seq<Slot>)
    requires |contents| >= PREVIEW_SLOTS
    ensures forall k :: k in SavedPreview(contents) <==> 0 <= k < PREVIEW_SLOTS && Kept(contents[k])
    ensures forall k :: k in SavedPreview(contents) ==> contents[k] == Some(SavedPreview(contents)[k])
  {
    SavedUpToExact(contents, PREVIEW_SLOTS);
  }

  /** What `initializeItems` leaves in a slot of the new chest: the preview
      item of a slot below 45, the close button, and the save button when
      editable. Preview entries at 45 or above are not shown. */
  function PreviewScreen(preview: map<int, ItemStack>, editable: bool, slot: int): Slot {
    if 0 <= slot < PREVIEW_SLOTS && slot in preview then Some(preview[slot])
    else if slot == CLOSE_SLOT then Some(CloseButton(editable))
    else if slot == SAVE_SLOT && editable then Some(SAVE_BUTTON)
    else None
  }

  /** Saving and opening the preview again shows, in slots 0 to 44, what was
      saved: every item except air in its own slot. */
  lemma SaveThenReopen(contents: seq<Slot>, editable: bool)
    requires |contents| >= PREVIEW_SLOTS
    ensures forall s :: 0 <= s < PREVIEW_SLOTS ==>
      PreviewScreen(SavedPreview(contents), editable, s) == (if Kept(contents[s]) then contents[s] else None)
  {
    SavedPreviewExact(contents);
  }

  /** Opening an editable preview and saving it unchanged gives back the
      preview map without its air items and its entries at 45 or above. */
  lemma ReopenThenSave(preview: map<int, ItemStack>, contents: seq<Slot>)
    requires |contents| == SIZE
    requires forall s :: 0 <= s < SIZE ==> contents[s] == PreviewScreen(preview, true, s)
    ensures SavedPreview(contents) ==
      map k | k in preview && 0 <= k < PREVIEW_SLOTS && preview[k].material != AIR :: preview[k]
  {
    SavedPreviewExact(contents);
    var kept := map k | k in preview && 0 <= k < PREVIEW_SLOTS && preview[k].material != AIR :: preview[k];
    forall k | k in SavedPreview(contents)
      ensures k in kept && SavedPreview(contents)[k] == kept[k]
    {
      assert contents[k] == PreviewScreen(preview, true, k);
    }
    forall k | k in kept
      ensures k in SavedPreview(contents)
    {
      assert contents[k] == PreviewScreen(preview, true, k);
    }
  }

  datatype PreviewAction =
    | Close
    | SaveAndClose(dungeonId: string)
    | NoAction

  class PreviewGui {
    const player: Player
    const dungeon: Dungeon
    const editable: bool
    const title: string
    const inventory: array<Slot>

    ghost predicate Valid()
      reads this
    {
      inventory.Length == SIZE
    }

    /** The preview of a dungeon. The fields are set before the items are
        built, the order `GuiConstruction.FIELDS_FIRST` names; in the
        source's own order the construction throws
        (`GuiConstruction.AsWrittenThrows`). */
    constructor (player: Player, dungeon: Dungeon, editable: bool)
      ensures this.player == player && this.dungeon == dungeon && this.editable == editable
      ensures title == Title(editable, dungeon.name)
      ensures fresh(inventory) && Valid()
      ensures forall s :: 0 <= s < SIZE ==> inventory[s] == PreviewScreen(dungeon.previewItems, editable, s)
    {
      this.player := player;
      this.dungeon := dungeon;
      this.editable := editable;
      title := Title(editable, dungeon.name);
      inventory := new Slot[SIZE](_ => None);
      new;
      InitializeItems();
    }

    /** `initializeItems`: the preview entries of slots 0 to 44 are copied
        into the chest, then the save button (editable only) and the close
        button are put on top; every other slot keeps what it held. */
    method InitializeItems()
      requires inventory.Length == SIZE
      modifies inventory
      ensures forall s {:trigger inventory[s]} :: 0 <= s < SIZE ==>
        inventory[s] == (if 0 <= s < PREVIEW_SLOTS && s in dungeon.previewItems then Some(dungeon.previewItems[s])
                         else if s == CLOSE_SLOT then Some(CloseButton(editable))
                         else if s == SAVE_SLOT && editable then Some(SAVE_BUTTON)
                         else old(inventory[s]))
    {
      var preview := dungeon.previewItems;
      for i := 0 to PREVIEW_SLOTS
        invariant forall s {:trigger inventory[s]} :: 0 <= s < SIZE ==>
          inventory[s] == (if s < i && s in preview then Some(preview[s]) else old(inventory[s]))
      {
        if i in preview {
          inventory[i] := Some(preview[i]);
        }
      }
      if editable {
        inventory[SAVE_SLOT] := Some(SAVE_BUTTON);
      }
      inventory[CLOSE_SLOT] := Some(CloseButton(editable));
    }

    /** `handleClick`: a read-only GUI cancels every click, an editable one
        only clicks on the button row; slot 49 closes without touching the
        preview map; slot 53 of an editable GUI saves. */
    method HandleClick(slot: int) returns (cancelled: bool, action: PreviewAction)
      requires Valid()
      modifies dungeon`previewItems
      ensures cancelled <==> !editable || slot >= PREVIEW_SLOTS
      ensures action == Close <==> slot == CLOSE_SLOT
      ensures action.SaveAndClose? <==> editable && slot == SAVE_SLOT
      ensures action.SaveAndClose? ==> action.dungeonId == dungeon.id
      ensures action.SaveAndClose? ==> dungeon.previewItems == SavedPreview(inventory[..])
      ensures !action.SaveAndClose? ==> dungeon.previewItems == old(dungeon.previewItems)
    {
      cancelled := !editable || slot >= PREVIEW_SLOTS;
      if slot == CLOSE_SLOT {
        return cancelled, Close;
      }
      if editable && slot == SAVE_SLOT {
        Save();
        return cancelled, SaveAndClose(dungeon.id);
      }
      action := NoAction;
    }

    /** The save: the preview map is cleared, then refilled from slots 0 to
        44 in order, skipping empty and air slots. */
    method Save()
      requires Valid()
      modifies dungeon`previewItems
      ensures dungeon.previewItems == SavedPreview(inventory[..])
    {
      dungeon.previewItems := map[];
      for i := 0 to PREVIEW_SLOTS
        invariant dungeon.previewItems == SavedUpTo(inventory[..], i)
      {
        var item := inventory[i];
        if item.Some? && item.value.material != AIR {
          dungeon.previewItems := dungeon.previewItems[i := item.value];
        }
      }
    }
  }
}
