/** A single dungeon: fixed identity and entry requirements, an optional key
    requirement that can be changed, and the list of drops shown in the
    preview. */
module Dungeons {
  import opened Host
  import opened DungeonDrops

  /** `s` without its element at `index`; `s` itself when `index` is not a
      position of `s` (the bounds test of `removeDrop`). */
  function RemovedAt<T>(s: seq<T>, index: int): (r: seq<T>)
    ensures 0 <= index < |s| ==>
      |r| == |s| - 1
      && (forall k :: 0 <= k < index ==> r[k] == s[k])
      && (forall k :: index <= k < |r| ==> r[k] == s[k + 1])
    ensures !(0 <= index < |s|) ==> r == s
  {
    if 0 <= index < |s| then s[..index] + s[index + 1..] else s
  }

  /** Removing a position and putting its element back restores the list. */
  lemma RemovedAtRestores<T>(s: seq<T>, index: int)
    requires 0 <= index < |s|
    ensures RemovedAt(s, index)[..index] + [s[index]] + RemovedAt(s, index)[index..] == s
  {
    var r := RemovedAt(s, index);
    var t := r[..index] + [s[index]] + r[index..];
    assert |t| == |s|;
    forall k | 0 <= k < |s| ensures t[k] == s[k] {
      if k < index {
        assert t[k] == r[k];
      } else if k > index {
        assert t[k] == r[k - 1];
      }
    }
  }

  /** The position of the first occurrence of `x` in `s`, if any. */
  function IndexOf<T(==)>(s: seq<T>, x: T): (r: Option<nat>)
    ensures r.None? <==> x !in s
    ensures r.Some? ==> r.value < |s| && s[r.value] == x && x !in s[..r.value]
  {
    if s == [] then None
    else if s[0] == x then Some(0)
    else
      match IndexOf(s[1..], x)
      case None => None
      case Some(i) =>
        assert s[..i + 1] == [s[0]] + s[1..][..i];
        Some(i + 1)
  }

  /** `List.remove(Object)` on a list of drops: the first occurrence of the
      object goes, the order of the rest is kept, and a list without it is
      left as it is. */
  function RemoveFirst<T(==)>(s: seq<T>, x: T): (r: seq<T>)
    ensures x !in s ==> r == s
    ensures x in s ==> |r| == |s| - 1 && multiset(r) == multiset(s) - multiset{x}
    ensures x in s ==> exists i :: 0 <= i < |s| && s[i] == x && x !in s[..i] && r == RemovedAt(s, i)
  {
    match IndexOf(s, x)
    case None => s
    case Some(i) =>
      assert s == s[..i] + [x] + s[i + 1..];
      RemovedAt(s, i)
  }

  class Dungeon {
    const id: string
    const name: string
    const description: string
    const tier: int
    const requiredLevel: int
    const minPartySize: int
    const maxPartySize: int
    const icon: Material
    const categoryId: string

    /** `null` in the source is `None` here. */
    var keyId: Option<string>
    var keyDisplayName: Option<string>

    var possibleDrops: seq<DungeonDrop>

    /** The preview items, slot to item, that the preview GUI reads and
        rewrites. The source reaches them through `getPreviewItems`, which
        `Dungeon` does not define; this field stands in for that map. */
    var previewItems: map<int, ItemStack>

    /** The nine-argument constructor: no key, no drops. */
    constructor (id: string, name: string, description: string, tier: int, requiredLevel: int,
                 minPartySize: int, maxPartySize: int, icon: Material, categoryId: string)
      ensures this.id == id && this.name == name && this.description == description
      ensures this.tier == tier && this.requiredLevel == requiredLevel
      ensures this.minPartySize == minPartySize && this.maxPartySize == maxPartySize
      ensures this.icon == icon && this.categoryId == categoryId
      ensures keyId == None && keyDisplayName == None && !RequiresKey()
      ensures possibleDrops == [] && previewItems == map[]
    {
      this.id := id;
      this.name := name;
      this.description := description;
      this.tier := tier;
      this.requiredLevel := requiredLevel;
      this.minPartySize := minPartySize;
      this.maxPartySize := maxPartySize;
      this.icon := icon;
      this.categoryId := categoryId;
      keyId := None;
      keyDisplayName := None;
      possibleDrops := [];
      previewItems := map[];
    }

    /** The eleven-argument constructor: as above, with the key fields set. */
    constructor WithKey(id: string, name: string, description: string, tier: int, requiredLevel: int,
                        minPartySize: int, maxPartySize: int, icon: Material, categoryId: string,
                        keyId: Option<string>, keyDisplayName: Option<string>)
      ensures this.id == id && this.name == name && this.description == description
      ensures this.tier == tier && this.requiredLevel == requiredLevel
      ensures this.minPartySize == minPartySize && this.maxPartySize == maxPartySize
      ensures this.icon == icon && this.categoryId == categoryId
      ensures this.keyId == keyId && this.keyDisplayName == keyDisplayName
      ensures possibleDrops == [] && previewItems == map[]
    {
      this.id := id;
      this.name := name;
      this.description := description;
      this.tier := tier;
      this.requiredLevel := requiredLevel;
      this.minPartySize := minPartySize;
      this.maxPartySize := maxPartySize;
      this.icon := icon;
      this.categoryId := categoryId;
      this.keyId := keyId;
      this.keyDisplayName := keyDisplayName;
      possibleDrops := [];
      previewItems := map[];
    }

    /** `requiresKey()`: a key id is set and is not the empty string. */
    predicate RequiresKey()
      reads this`keyId
    {
      keyId.Some? && keyId.value != ""
    }

    method AddDrop(drop: DungeonDrop)
      modifies this`possibleDrops
      ensures possibleDrops == old(possibleDrops) + [drop]
    {
      possibleDrops := possibleDrops + [drop];
    }

    /** `removeDrop(index)`: an index outside the list is ignored. */
    method RemoveDrop(index: int)
      modifies this`possibleDrops
      ensures possibleDrops == RemovedAt(old(possibleDrops), index)
    {
      if 0 <= index < |possibleDrops| {
        possibleDrops := possibleDrops[..index] + possibleDrops[index + 1..];
      }
    }

    method ClearDrops()
      modifies this`possibleDrops
      ensures possibleDrops == []
    {
      possibleDrops := [];
    }

    method SetKeyId(keyId: Option<string>)
      modifies this`keyId
      ensures this.keyId == keyId
    {
      this.keyId := keyId;
    }

    method SetKeyDisplayName(keyDisplayName: Option<string>)
      modifies this`keyDisplayName
      ensures this.keyDisplayName == keyDisplayName
    {
      this.keyDisplayName := keyDisplayName;
    }
  }
}
