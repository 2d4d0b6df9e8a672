/** The bridge to the external party plugin. The bridge only records whether
    that plugin was found; every query gives a fixed placeholder answer,
    whether or not it was. */
module PartyIntegration {
  import opened Host

  /** What the party layer says about one player, as the entry check reads
      it: leader or not, in a party or not, the party size and the members. */
  datatype PartyView = PartyView(isLeader: bool, inParty: bool, size: int, members: seq<Player>)

  /** The external party plugin as the server reports it. */
  datatype PartyPlugin = PartyPlugin(enabled: bool)

  class PartyIntegrationApi {
    var initialized: bool

    constructor ()
      ensures !initialized
    {
      initialized := false;
    }

    /** `initialize()`: connects only to a plugin that is present and enabled;
        otherwise the flag keeps its value. */
    method Initialize(plugin: Option<PartyPlugin>)
      modifies this`initialized
      ensures initialized == (old(initialized) || (plugin.Some? && plugin.value.enabled))
    {
      if plugin.Some? && plugin.value.enabled {
        initialized := true;
      }
    }

    /** `isInParty`: false, connected or not. */
    function IsInParty(player: Player): (r: bool)
      reads this
      ensures !r
    {
      if !initialized then false else false
    }

    /** `getPartySize`: a party of one, connected or not. */
    function GetPartySize(player: Option<Player>): (r: int)
      reads this
      ensures r == 1
    {
      if !initialized then 1 else 1
    }

    /** `hasValidPartySize`: unconnected, any present player passes;
        connected, the size of one must lie in the range. */
    function HasValidPartySize(player: Option<Player>, minSize: int, maxSize: int): (r: bool)
      reads this
      ensures !initialized ==> (r <==> player.Some?)
      ensures initialized ==> (r <==> minSize <= 1 <= maxSize)
    {
      if !initialized then player.Some?
      else
        var size := GetPartySize(player);
        size >= minSize && size <= maxSize
    }

    /** `getPartyMembers`: the player alone, or nobody for a missing player. */
    function GetPartyMembers(player: Option<Player>): (r: seq<Player>)
      reads this
      ensures player.Some? ==> r == [player.value]
      ensures player.None? ==> r == []
    {
      var solo := if player.Some? then [player.value] else [];
      if !initialized then solo else solo
    }

    /** `isPartyLeader`: true, connected or not. */
    function IsPartyLeader(player: Player): (r: bool)
      reads this
      ensures r
    {
      if !initialized || !IsInParty(player) then true else true
    }

    /** The answers the entry check receives for a leader. */
    function View(leader: Player): (v: PartyView)
      reads this
      ensures v.isLeader && !v.inParty && v.size == 1 && v.members == [leader]
    {
      PartyView(IsPartyLeader(leader), IsInParty(leader), GetPartySize(Some(leader)), GetPartyMembers(Some(leader)))
    }
  }
}
