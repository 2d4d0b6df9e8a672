/** Stand-ins for the objects the game server owns: materials, item stacks,
    inventories, players and click kinds. Only the parts the plugin reads or
    writes are kept. */
module Host {

  datatype Option<+T> = None | Some(value: T) {
    function GetOr(default: T): T {
      match this
      case Some(v) => v
      case None => default
    }
  }

  /** A material is identified by its enum constant name, e.g. "IRON_INGOT". */
  type Material = string

  const AIR: Material := "AIR"
  const ARROW: Material := "ARROW"
  const BARRIER: Material := "BARRIER"
  const EMERALD: Material := "EMERALD"
  const END_PORTAL_FRAME: Material := "END_PORTAL_FRAME"
  const TRIPWIRE_HOOK: Material := "TRIPWIRE_HOOK"
  const WHITE_STAINED_GLASS_PANE: Material := "WHITE_STAINED_GLASS_PANE"
  const WRITABLE_BOOK: Material := "WRITABLE_BOOK"

  /** An item stack: its material, the display name of its meta (None when the
      meta has no display name), the lore lines and the stack size. */
  datatype ItemStack = ItemStack(material: Material, name: Option<string>, lore: seq<string>, amount: int) {
    /** The server gives every item except air an item meta. */
    predicate HasMeta() {
      material != AIR
    }

    /** `meta != null && meta.hasDisplayName()` */
    predicate HasDisplayName() {
      HasMeta() && name.Some?
    }
  }

  /** `new ItemStack(material)`: one item, no display name, no lore. */
  function Plain(material: Material): ItemStack {
    ItemStack(material, None, [], 1)
  }

  /** A named item as the GUIs build it: `new ItemStack(m)` with a display name set. */
  function Named(material: Material, name: string): ItemStack {
    ItemStack(material, Some(name), [], 1)
  }

  /** A slot of an inventory: `null` for an empty slot. */
  type Slot = Option<ItemStack>

  datatype ClickType = Left | Right | ShiftLeft | ShiftRight | Middle | OtherClick

  /** A player as the plugin sees one: a name and the permissions granted. */
  datatype Player = Player(name: string, permissions: set<string>)

  /** A command sender: a player or something else (the console, a command block). */
  datatype Sender = PlayerSender(player: Player) | ConsoleSender
}
