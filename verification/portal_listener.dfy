/** The listener that lets a player enter a dungeon by clicking an end
    portal frame. It keeps a map from dungeon id to the block position of
    that dungeon's portal. The map comes from the plugin's configuration,
    or from a built-in table when the configuration has no portals. */
module Portals {
  import opened Host
  import opened Seqs
  import Completions

  /** A block position in a named world. */
  datatype PortalLocation = PortalLocation(world: string, x: int, y: int, z: int)

  /** One entry of the built-in table. */
  datatype DefaultPortal = DefaultPortal(dungeonId: string, location: PortalLocation)

  const DEFAULT_WORLD: string := "world"

  /** The built-in portals in the order they are put: six categories of
      five dungeons, one row of portals per category. */
  const DEFAULT_PORTALS: seq<DefaultPortal> := [
    DefaultPortal("mythology_odyssey", PortalLocation("world", -625, -58, -939)),
    DefaultPortal("mythology_poseidon", PortalLocation("world", -620, -58, -939)),
    DefaultPortal("mythology_zeus", PortalLocation("world", -615, -58, -939)),
    DefaultPortal("mythology_daedalus", PortalLocation("world", -610, -58, -939)),
    DefaultPortal("mythology_souls", PortalLocation("world", -605, -58, -939)),
    DefaultPortal("ancient_atlantis", PortalLocation("world", -625, -58, -934)),
    DefaultPortal("ancient_pyramid", PortalLocation("world", -620, -58, -934)),
    DefaultPortal("ancient_gardens", PortalLocation("world", -615, -58, -934)),
    DefaultPortal("ancient_colosseum", PortalLocation("world", -610, -58, -934)),
    DefaultPortal("ancient_wall", PortalLocation("world", -605, -58, -934)),
    DefaultPortal("fantasy_drakonis", PortalLocation("world", -625, -58, -929)),
    DefaultPortal("fantasy_woods", PortalLocation("world", -620, -58, -929)),
    DefaultPortal("fantasy_caverns", PortalLocation("world", -615, -58, -929)),
    DefaultPortal("fantasy_spire", PortalLocation("world", -610, -58, -929)),
    DefaultPortal("fantasy_citadel", PortalLocation("world", -605, -58, -929)),
    DefaultPortal("elemental_inferno", PortalLocation("world", -625, -58, -924)),
    DefaultPortal("elemental_trench", PortalLocation("world", -620, -58, -924)),
    DefaultPortal("elemental_peaks", PortalLocation("world", -615, -58, -924)),
    DefaultPortal("elemental_core", PortalLocation("world", -610, -58, -924)),
    DefaultPortal("elemental_sanctum", PortalLocation("world", -605, -58, -924)),
    DefaultPortal("cosmic_belt", PortalLocation("world", -625, -58, -919)),
    DefaultPortal("cosmic_xeno", PortalLocation("world", -620, -58, -919)),
    DefaultPortal("cosmic_corridor", PortalLocation("world", -615, -58, -919)),
    DefaultPortal("cosmic_nexus", PortalLocation("world", -610, -58, -919)),
    DefaultPortal("cosmic_horizon", PortalLocation("world", -605, -58, -919)),
    DefaultPortal("horror_asylum", PortalLocation("world", -625, -58, -914)),
    DefaultPortal("horror_manor", PortalLocation("world", -620, -58, -914)),
    DefaultPortal("horror_cemetery", PortalLocation("world", -615, -58, -914)),
    DefaultPortal("horror_dimension", PortalLocation("world", -610, -58, -914)),
    DefaultPortal("horror_torment", PortalLocation("world", -605, -58, -914))
  ]

  /** The grid the table follows: column `c` of row `r`. */
  function GridLocation(c: int, r: int): PortalLocation {
    PortalLocation(DEFAULT_WORLD, -625 + 5 * c, -58, -939 + 5 * r)
  }

  /** The table has 30 entries. Entry `k` sits in column `k % 5` and row
      `k / 5` of the grid: x runs from -625 to -605 and z from -939 to -914,
      both in steps of 5, and y is -58. */
  lemma DefaultTableShape()
    ensures |DEFAULT_PORTALS| == 30
    ensures forall k :: 0 <= k < 30 ==> DEFAULT_PORTALS[k].location == GridLocation(k % 5, k / 5)
  {
    forall k | 0 <= k < 30
      ensures DEFAULT_PORTALS[k].location == GridLocation(k % 5, k / 5)
    {
      assert k == 0 || k == 1 || k == 2 || k == 3 || k == 4 || k == 5 || k == 6 || k == 7 || k == 8 || k == 9
        || k == 10 || k == 11 || k == 12 || k == 13 || k == 14 || k == 15 || k == 16 || k == 17 || k == 18 || k == 19
        || k == 20 || k == 21 || k == 22 || k == 23 || k == 24 || k == 25 || k == 26 || k == 27 || k == 28 || k == 29;
    }
  }

  /** No two entries of the table share a position. */
  lemma DefaultLocationsDistinct()
    ensures forall i, j :: (0 <= i < |DEFAULT_PORTALS| && 0 <= j < |DEFAULT_PORTALS|
      && DEFAULT_PORTALS[i].location == DEFAULT_PORTALS[j].location) ==> i == j
  {
    DefaultTableShape();
    forall i, j | 0 <= i < 30 && 0 <= j < 30 && DEFAULT_PORTALS[i].location == DEFAULT_PORTALS[j].location
      ensures i == j
    {
      assert i == 5 * (i / 5) + i % 5 && j == 5 * (j / 5) + j % 5;
    }
  }

  /** The map after putting the entries of `table` into `m` in order: a
      later entry for the same id replaces an earlier one. */
  function PutAll(m: map<string, PortalLocation>, table: seq<DefaultPortal>): map<string, PortalLocation> {
    if table == [] then m
    else
      var last := table[|table| - 1];
      PutAll(m, table[..|table| - 1])[last.dungeonId := last.location]
  }

  /** After the puts, an id is mapped when `m` or an entry has it. Its
      position is that of an entry with the id, or else the one `m` had. */
  lemma {:induction false} PutAllLookup(m: map<string, PortalLocation>, table: seq<DefaultPortal>)
    ensures forall id :: id in PutAll(m, table) <==> id in m || exists k :: 0 <= k < |table| && table[k].dungeonId == id
    ensures forall id :: id in PutAll(m, table) ==>
      (exists k :: 0 <= k < |table| && table[k].dungeonId == id && PutAll(m, table)[id] == table[k].location)
      || (id in m && PutAll(m, table)[id] == m[id])
  {
    if table != [] {
      var init := table[..|table| - 1];
      PutAllLookup(m, init);
      forall id | id in PutAll(m, table) && id != table[|table| - 1].dungeonId && id !in m
        ensures exists k :: 0 <= k < |table| && table[k].dungeonId == id && PutAll(m, table)[id] == table[k].location
      {
        var k :| 0 <= k < |init| && init[k].dungeonId == id && PutAll(m, init)[id] == init[k].location;
        assert table[k] == init[k];
      }
      forall k | 0 <= k < |init|
        ensures table[k].dungeonId in PutAll(m, init)
      {
        assert init[k] == table[k];
      }
    }
  }

  /** The map the built-in table gives. */
  function DefaultPortals(): map<string, PortalLocation> {
    PutAll(map[], DEFAULT_PORTALS)
  }

  /** The built-in map holds the table's ids and no other, and no two of
      its ids share a position: a block position names at most one
      dungeon. */
  lemma DefaultPortalsUnambiguous()
    ensures forall id :: id in DefaultPortals() <==> exists k :: 0 <= k < |DEFAULT_PORTALS| && DEFAULT_PORTALS[k].dungeonId == id
    ensures forall a, b :: a in DefaultPortals() && b in DefaultPortals() && DefaultPortals()[a] == DefaultPortals()[b] ==> a == b
  {
    PutAllLookup(map[], DEFAULT_PORTALS);
    DefaultLocationsDistinct();
    forall a, b | a in DefaultPortals() && b in DefaultPortals() && DefaultPortals()[a] == DefaultPortals()[b]
      ensures a == b
    {
      var i :| 0 <= i < |DEFAULT_PORTALS| && DEFAULT_PORTALS[i].dungeonId == a && DefaultPortals()[a] == DEFAULT_PORTALS[i].location;
      var j :| 0 <= j < |DEFAULT_PORTALS| && DEFAULT_PORTALS[j].dungeonId == b && DefaultPortals()[b] == DEFAULT_PORTALS[j].location;
    }
  }

  /** Every built-in portal is in the world "world", at height -58, on the
      five-by-six grid. */
  lemma DefaultPortalsOnGrid()
    ensures forall id :: id in DefaultPortals() ==>
      exists c, r :: 0 <= c < 5 && 0 <= r < 6 && DefaultPortals()[id] == GridLocation(c, r)
  {
    PutAllLookup(map[], DEFAULT_PORTALS);
    DefaultTableShape();
    forall id | id in DefaultPortals()
      ensures exists c, r :: 0 <= c < 5 && 0 <= r < 6 && DefaultPortals()[id] == GridLocation(c, r)
    {
      var k :| 0 <= k < |DEFAULT_PORTALS| && DEFAULT_PORTALS[k].dungeonId == id && DefaultPortals()[id] == DEFAULT_PORTALS[k].location;
      assert DefaultPortals()[id] == GridLocation(k % 5, k / 5);
    }
  }

  /** A portal's sub-section of the configuration as the listener reads it:
      each key is absent (None) when the sub-section does not hold it. */
  datatype PortalEntry = PortalEntry(world: Option<string>, x: Option<int>, y: Option<int>, z: Option<int>)

  /** The "portals" section: one key per dungeon id, whose value is a
      sub-section, or None when the key holds a plain value instead. */
  type PortalSection = map<string, Option<PortalEntry>>

  /** The location one sub-section loads as: `getInt` gives 0 for a missing
      number, and the world defaults to "world". */
  function LoadedLocation(entry: PortalEntry): PortalLocation {
    PortalLocation(entry.world.GetOr(DEFAULT_WORLD), entry.x.GetOr(0), entry.y.GetOr(0), entry.z.GetOr(0))
  }

  /** The sub-section the save writes for a location: all four keys. */
  function SavedEntry(location: PortalLocation): PortalEntry {
    PortalEntry(Some(location.world), Some(location.x), Some(location.y), Some(location.z))
  }

  /** The portal map a section loads as: the keys holding a sub-section. */
  function Loaded(section: PortalSection): map<string, PortalLocation> {
    map id | id in section && section[id].Some? :: LoadedLocation(section[id].value)
  }

  /** The section the save writes for a portal map. */
  function Saved(portals: map<string, PortalLocation>): PortalSection {
    map id | id in portals :: Some(SavedEntry(portals[id]))
  }

  /** The portal map after the load loop has put the sub-sections of the
      ids `ids`, in order, into `m`. */
  function PutLoaded(m: map<string, PortalLocation>, section: PortalSection, ids: seq<string>): map<string, PortalLocation>
    requires forall id :: id in ids ==> id in section
  {
    if ids == [] then m
    else
      var last := ids[|ids| - 1];
      var prev := PutLoaded(m, section, ids[..|ids| - 1]);
      if section[last].Some? then prev[last := LoadedLocation(section[last].value)] else prev
  }

  /** Each id of `ids` that holds a sub-section is put with the location it
      loads as; every other id keeps what `m` gave it. */
  lemma {:induction false} PutLoadedLookup(m: map<string, PortalLocation>, section: PortalSection, ids: seq<string>)
    requires forall id :: id in ids ==> id in section
    ensures forall id :: id in PutLoaded(m, section, ids) <==> id in m || (id in ids && section[id].Some?)
    ensures forall id :: id in PutLoaded(m, section, ids) ==>
      PutLoaded(m, section, ids)[id] == if id in ids && section[id].Some? then LoadedLocation(section[id].value) else m[id]
  {
    if ids != [] {
      var init := ids[..|ids| - 1];
      assert ids == init + [ids[|ids| - 1]];
      PutLoadedLookup(m, section, init);
    }
  }

  /** The load loop over all of a section's keys puts exactly `Loaded`. */
  lemma PutLoadedAll(m: map<string, PortalLocation>, section: PortalSection, ids: seq<string>)
    requires forall id :: id in ids <==> id in section
    ensures PutLoaded(m, section, ids) == m + Loaded(section)
  {
    PutLoadedLookup(m, section, ids);
  }

  /** The section the save loop has written after the ids `ids`, in order. */
  function SavedUpTo(portals: map<string, PortalLocation>, ids: seq<string>): PortalSection
    requires forall id :: id in ids ==> id in portals
  {
    if ids == [] then map[]
    else
      var last := ids[|ids| - 1];
      SavedUpTo(portals, ids[..|ids| - 1])[last := Some(SavedEntry(portals[last]))]
  }

  /** Every id written so far holds the sub-section of its portal. */
  lemma {:induction false} SavedUpToLookup(portals: map<string, PortalLocation>, ids: seq<string>)
    requires forall id :: id in ids ==> id in portals
    ensures forall id :: id in SavedUpTo(portals, ids) <==> id in ids
    ensures forall id :: id in SavedUpTo(portals, ids) ==> SavedUpTo(portals, ids)[id] == Some(SavedEntry(portals[id]))
  {
    if ids != [] {
      var init := ids[..|ids| - 1];
      assert ids == init + [ids[|ids| - 1]];
      SavedUpToLookup(portals, init);
    }
  }

  /** The save loop over all of a map's ids writes exactly `Saved`. */
  lemma SavedUpToAll(portals: map<string, PortalLocation>, ids: seq<string>)
    requires forall id :: id in ids <==> id in portals
    ensures SavedUpTo(portals, ids) == Saved(portals)
  {
    SavedUpToLookup(portals, ids);
  }

  /** Loading reads back every key the save writes. */
  lemma LoadSavedEntry(location: PortalLocation)
    ensures LoadedLocation(SavedEntry(location)) == location
  {
  }

  /** Saving a portal map and loading the section back gives the same map. */
  lemma SaveLoadRoundTrip(portals: map<string, PortalLocation>)
    ensures Loaded(Saved(portals)) == portals
  {
    forall id | id in portals
      ensures LoadedLocation(Saved(portals)[id].value) == portals[id]
    {
      LoadSavedEntry(portals[id]);
    }
  }

  /** A sub-section missing the world key loads in the world "world", and
      one missing a coordinate loads it as 0. */
  lemma LoadDefaults(entry: PortalEntry)
    ensures entry.world.None? ==> LoadedLocation(entry).world == DEFAULT_WORLD
    ensures entry.x.None? ==> LoadedLocation(entry).x == 0
    ensures entry.y.None? ==> LoadedLocation(entry).y == 0
    ensures entry.z.None? ==> LoadedLocation(entry).z == 0
  {
  }

  /** The part of the plugin's configuration the listener uses: the
      "portals" section in memory, None when there is none, and the section
      as the configuration file last received it. */
  class PluginConfig {
    var portals: Option<PortalSection>
    var savedPortals: Option<PortalSection>

    constructor (portals: Option<PortalSection>)
      ensures this.portals == portals && savedPortals == None
    {
      this.portals := portals;
      savedPortals := None;
    }

    /** `set("portals", null)`: the section goes. */
    method ClearPortals()
      modifies this`portals
      ensures portals == None
    {
      portals := None;
    }

    /** The four `set` calls for one dungeon id: "portals.<id>.world", ".x",
        ".y" and ".z". They create the section when there is none and
        replace whatever the id held. */
    method SetPortal(dungeonId: string, location: PortalLocation)
      modifies this`portals
      ensures portals == Some(old(portals).GetOr(map[])[dungeonId := Some(SavedEntry(location))])
    {
      var section := portals.GetOr(map[]);
      portals := Some(section[dungeonId := Some(SavedEntry(location))]);
    }

    /** `saveConfig()`: the file receives the section as it stands. */
    method SaveConfig()
      modifies this`savedPortals
      ensures savedPortals == portals
    {
      savedPortals := portals;
    }
  }

  /** A block as the listener sees one: its material and position. */
  datatype Block = Block(material: Material, location: PortalLocation)

  /** What a click on a block leads to. */
  datatype PortalAction =
    | NoAction
    | NotAPortal                    // "This doesn't seem to be a dungeon portal."
    | EnterDungeon(dungeonId: string)  // `dungeonManager.enterDungeon`

  class PortalListener {
    const config: PluginConfig
    var portalLocations: map<string, PortalLocation>

    /** The listener loads its portals when it is built. */
    constructor (config: PluginConfig)
      modifies config
      ensures this.config == config
      ensures old(config.portals).None? ==>
        portalLocations == DefaultPortals()
        && config.portals == Some(Saved(DefaultPortals())) && config.savedPortals == config.portals
      ensures old(config.portals).Some? ==>
        portalLocations == Loaded(old(config.portals).value) && config.portals == old(config.portals)
        && config.savedPortals == old(config.savedPortals)
    {
      this.config := config;
      portalLocations := map[];
      new;
      LoadPortalLocations();
    }

    /** `loadPortalLocations`: with no "portals" section the built-in table
        is put and saved; otherwise every key holding a sub-section is put
        with the location it loads as. */
    method LoadPortalLocations()
      modifies this`portalLocations, config
      ensures old(config.portals).None? ==>
        portalLocations == PutAll(old(portalLocations), DEFAULT_PORTALS)
        && config.portals == Some(Saved(portalLocations)) && config.savedPortals == config.portals
      ensures old(config.portals).Some? ==>
        portalLocations == old(portalLocations) + Loaded(old(config.portals).value)
        && config.portals == old(config.portals) && config.savedPortals == old(config.savedPortals)
    {
      if config.portals.None? {
        ghost var start := portalLocations;
        CreateDefaultPortalLocations();
        PutAllLookup(start, DEFAULT_PORTALS);
        assert DEFAULT_PORTALS[0].dungeonId in portalLocations;
        SavePortalLocations();
        return;
      }
      var section := config.portals.value;
      var keys := Completions.KeysInSomeOrder(section);
      ghost var start := portalLocations;
      for i := 0 to |keys|
        modifies this`portalLocations
        invariant portalLocations == PutLoaded(start, section, keys[..i])
      {
        var dungeonId := keys[i];
        assert keys[..i + 1][..i] == keys[..i];
        var entry := section[dungeonId];
        if entry.Some? {
          portalLocations := portalLocations[dungeonId := LoadedLocation(entry.value)];
        }
      }
      assert keys[..|keys|] == keys;
      PutLoadedAll(start, section, keys);
    }

    /** `createDefaultPortalLocations`: the table's entries are put in
        order. */
    method CreateDefaultPortalLocations()
      modifies this`portalLocations
      ensures portalLocations == PutAll(old(portalLocations), DEFAULT_PORTALS)
    {
      for i := 0 to |DEFAULT_PORTALS|
        invariant portalLocations == PutAll(old(portalLocations), DEFAULT_PORTALS[..i])
      {
        assert DEFAULT_PORTALS[..i + 1][..i] == DEFAULT_PORTALS[..i];
        portalLocations := portalLocations[DEFAULT_PORTALS[i].dungeonId := DEFAULT_PORTALS[i].location];
      }
      assert DEFAULT_PORTALS[..|DEFAULT_PORTALS|] == DEFAULT_PORTALS;
    }

    /** `savePortalLocations`: the section is cleared, each portal is
        written under its id, and the configuration is saved. An empty map
        leaves no section at all. */
    method SavePortalLocations()
      modifies config
      ensures config.portals == if portalLocations == map[] then None else Some(Saved(portalLocations))
      ensures config.savedPortals == config.portals
    {
      config.ClearPortals();
      var keys := Completions.KeysInSomeOrder(portalLocations);
      for i := 0 to |keys|
        invariant config.portals == if i == 0 then None else Some(SavedUpTo(portalLocations, keys[..i]))
      {
        var dungeonId := keys[i];
        assert keys[..i + 1][..i] == keys[..i];
        config.SetPortal(dungeonId, portalLocations[dungeonId]);
      }
      assert keys[..|keys|] == keys;
      SavedUpToAll(portalLocations, keys);
      config.SaveConfig();
    }

    /** `getDungeonIdFromLocation`: the id of some portal at exactly the
        position, in the map's iteration order, or None when no portal is
        there. */
    method GetDungeonIdFromLocation(location: PortalLocation) returns (dungeonId: Option<string>)
      ensures dungeonId.None? <==> forall id :: id in portalLocations ==> portalLocations[id] != location
      ensures dungeonId.Some? ==> dungeonId.value in portalLocations && portalLocations[dungeonId.value] == location
    {
      var keys := Completions.KeysInSomeOrder(portalLocations);
      for i := 0 to |keys|
        invariant forall j :: 0 <= j < i ==> portalLocations[keys[j]] != location
      {
        var portal := portalLocations[keys[i]];
        if portal.world == location.world && portal.x == location.x && portal.y == location.y && portal.z == location.z {
          return Some(keys[i]);
        }
      }
      forall id | id in portalLocations
        ensures portalLocations[id] != location
      {
        var j :| 0 <= j < |keys| && keys[j] == id;
      }
      dungeonId := None;
    }

    /** `onPlayerInteract`: off-hand clicks and clicks on no block are
        ignored, and so is every block except an end portal frame. A click
        on a frame is cancelled and enters the dungeon whose portal is at
        the frame's position, or tells the player it is no portal. */
    method OnPlayerInteract(offHand: bool, block: Option<Block>) returns (cancelled: bool, action: PortalAction)
      ensures cancelled <==> !offHand && block.Some? && block.value.material == END_PORTAL_FRAME
      ensures !cancelled ==> action == NoAction
      ensures cancelled ==>
        (action == NotAPortal <==> forall id :: id in portalLocations ==> portalLocations[id] != block.value.location)
      ensures cancelled ==> action != NoAction
      ensures action.EnterDungeon? ==>
        action.dungeonId in portalLocations && portalLocations[action.dungeonId] == block.value.location
    {
      if offHand || block.None? {
        return false, NoAction;
      }
      if block.value.material != END_PORTAL_FRAME {
        return false, NoAction;
      }
      var dungeonId := GetDungeonIdFromLocation(block.value.location);
      if dungeonId.Some? {
        return true, EnterDungeon(dungeonId.value);
      }
      return true, NotAPortal;
    }
  }

  /** With the built-in portals, a click on the frame of a table entry
      enters that entry's dungeon and no other. */
  lemma DefaultPortalClick(k: int, id: string)
    requires 0 <= k < |DEFAULT_PORTALS|
    requires id in DefaultPortals() && DefaultPortals()[id] == DEFAULT_PORTALS[k].location
    ensures DEFAULT_PORTALS[k].dungeonId in DefaultPortals()
    ensures id == DEFAULT_PORTALS[k].dungeonId
  {
    DefaultPortalsUnambiguous();
    PutAllLookup(map[], DEFAULT_PORTALS);
    DefaultLocationsDistinct();
    var a := DEFAULT_PORTALS[k].dungeonId;
    var j :| 0 <= j < |DEFAULT_PORTALS| && DEFAULT_PORTALS[j].dungeonId == a && DefaultPortals()[a] == DEFAULT_PORTALS[j].location;
  }
}
