/** The key a dungeon may require: an item of a given material whose display
    name matches the key's colour-translated name. Finding and consuming it
    searches the inventory from slot 0 upwards. */
module DungeonKeys {
  import opened Text
  import opened Host

  /** The section sign that starts a Minecraft colour code. */
  const SECTION: char := '§'

  /** `displayName.replace("&", "§")`: the `&` colour codes of the
      configuration turned into the codes the game shows. */
  function Colored(displayName: string): (r: string)
    ensures '&' !in r
    ensures forall c :: c in r && c != SECTION ==> c in displayName
  {
    ReplaceChar(displayName, '&', [SECTION])
  }

  datatype DungeonKey = DungeonKey(id: string, displayName: string, material: Material) {

    /** `isKeyItem`: a non-empty slot holding this key's material whose meta
        carries exactly the key's coloured name. */
    predicate IsKeyItem(slot: Slot) {
      slot.Some? && slot.value.material == material
      && slot.value.HasDisplayName() && slot.value.name.value == Colored(displayName)
    }

    /** The lowest slot holding the key, if any. */
    function FirstKeyIndex(contents: seq<Slot>): (r: Option<nat>)
      ensures r.Some? ==>
        r.value < |contents| && IsKeyItem(contents[r.value])
        && forall j :: 0 <= j < r.value ==> !IsKeyItem(contents[j])
      ensures r.None? <==> forall j :: 0 <= j < |contents| ==> !IsKeyItem(contents[j])
    {
      if contents == [] then None
      else if IsKeyItem(contents[0]) then Some(0)
      else match FirstKeyIndex(contents[1..])
        case None => None
        case Some(k) => Some(k + 1)
    }

    /** The inventory contents after one key is taken: the first key slot
        loses one item, or becomes empty when it held only one. */
    function AfterConsume(contents: seq<Slot>): seq<Slot> {
      match FirstKeyIndex(contents)
      case None => contents
      case Some(i) => contents[i := TakeOne(contents[i].value)]
    }

    /** `hasKey`: false for a missing inventory, otherwise whether some slot
        holds the key. */
    method HasKey(inventory: array?<Slot>) returns (found: bool)
      ensures found <==> inventory != null && exists i :: 0 <= i < inventory.Length && IsKeyItem(inventory[i])
    {
      if inventory == null {
        return false;
      }
      var i := 0;
      while i < inventory.Length
        invariant 0 <= i <= inventory.Length
        invariant forall j :: 0 <= j < i ==> !IsKeyItem(inventory[j])
      {
        if IsKeyItem(inventory[i]) {
          return true;
        }
        i := i + 1;
      }
      return false;
    }

    /** `consumeKey`: takes one key from the lowest slot holding it and
        reports whether there was one. */
    method ConsumeKey(inventory: array?<Slot>) returns (consumed: bool)
      modifies inventory
      ensures inventory == null ==> !consumed
      ensures inventory != null ==> consumed == FirstKeyIndex(old(inventory[..])).Some?
      ensures inventory != null ==> inventory[..] == AfterConsume(old(inventory[..]))
    {
      if inventory == null {
        return false;
      }
      var i := 0;
      while i < inventory.Length
        invariant 0 <= i <= inventory.Length
        invariant forall j :: 0 <= j < i ==> !IsKeyItem(inventory[j])
      {
        if IsKeyItem(inventory[i]) {
          KeyIndexIsFirst(inventory[..], i);
          inventory[i] := TakeOne(inventory[i].value);
          return true;
        }
        i := i + 1;
      }
      return false;
    }

    /** A key slot with no key before it is the one `FirstKeyIndex` finds. */
    lemma KeyIndexIsFirst(contents: seq<Slot>, i: nat)
      requires i < |contents| && IsKeyItem(contents[i])
      requires forall j :: 0 <= j < i ==> !IsKeyItem(contents[j])
      ensures FirstKeyIndex(contents) == Some(i)
    {
    }

    /** Consuming succeeds exactly when the key is present, and then changes
        exactly one slot: the lowest one holding the key. */
    lemma ConsumeChangesOneSlot(contents: seq<Slot>)
      ensures |AfterConsume(contents)| == |contents|
      ensures FirstKeyIndex(contents).Some? <==> exists i :: 0 <= i < |contents| && IsKeyItem(contents[i])
      ensures FirstKeyIndex(contents).None? ==> AfterConsume(contents) == contents
      ensures FirstKeyIndex(contents).Some? ==>
        var i := FirstKeyIndex(contents).value;
        (forall j :: 0 <= j < |contents| && j != i ==> AfterConsume(contents)[j] == contents[j])
        && (contents[i].value.amount > 1 ==> AfterConsume(contents)[i] == Some(contents[i].value.(amount := contents[i].value.amount - 1)))
        && (contents[i].value.amount <= 1 ==> AfterConsume(contents)[i] == None)
    {
    }

    /** The number of key items held across the slots. */
    function KeyCount(contents: seq<Slot>): (n: int)
      ensures (forall j :: 0 <= j < |contents| ==> !IsKeyItem(contents[j])) ==> n == 0
      ensures (forall j :: 0 <= j < |contents| && IsKeyItem(contents[j]) ==> contents[j].value.amount >= 1) ==>
        n >= 0
        && (n == 0 <==> forall j :: 0 <= j < |contents| ==> !IsKeyItem(contents[j]))
        && (forall j :: 0 <= j < |contents| && IsKeyItem(contents[j]) ==> n >= contents[j].value.amount)
    {
      if contents == [] then 0
      else (if IsKeyItem(contents[0]) then contents[0].value.amount else 0) + KeyCount(contents[1..])
    }

    /** Consuming a key removes exactly one key item from the inventory. */
    lemma {:induction false} ConsumeTakesOne(contents: seq<Slot>)
      requires FirstKeyIndex(contents).Some?
      requires contents[FirstKeyIndex(contents).value].value.amount >= 1
      ensures KeyCount(AfterConsume(contents)) == KeyCount(contents) - 1
    {
      var i := FirstKeyIndex(contents).value;
      if i > 0 {
        var rest := contents[1..];
        assert FirstKeyIndex(rest) == Some(i - 1);
        ConsumeTakesOne(rest);
        assert AfterConsume(contents)[1..] == AfterConsume(rest);
        assert AfterConsume(contents)[0] == contents[0];
      } else {
        assert AfterConsume(contents)[1..] == contents[1..];
      }
    }
  }

  /** One item taken off a stack: the amount drops by one, or the slot empties
      when the stack held a single item. */
  function TakeOne(item: ItemStack): (r: Slot)
    ensures item.amount > 1 ==>
      r.Some? && r.value.amount == item.amount - 1 && r.value.(amount := item.amount) == item
    ensures item.amount <= 1 ==> r.None?
  {
    if item.amount > 1 then Some(item.(amount := item.amount - 1)) else None
  }
}
