/** The party command that opens the category GUI for a party leader. */
module PartyDungeonCommands {
  import opened Host
  import opened PartyIntegration

  datatype PartyCommandAction =
    | PlayersOnly
    | MustBeInParty
    | MustBeLeader
    | OpenCategoryGui

  /** The action, and the value `onCommand` returns to the server. */
  datatype PartyCommandResult = PartyCommandResult(handled: bool, action: PartyCommandAction)

  /** `onCommand`: players only, then the party check, then the leader
      check; the GUI opens only when both pass. */
  function OnCommand(api: PartyIntegrationApi, sender: Sender): (r: PartyCommandResult)
    reads api
    ensures r.handled
    ensures r.action == PlayersOnly <==> sender.ConsoleSender?
    ensures r.action == MustBeInParty <==> sender.PlayerSender? && !api.IsInParty(sender.player)
    ensures r.action == MustBeLeader <==>
      sender.PlayerSender? && api.IsInParty(sender.player) && !api.IsPartyLeader(sender.player)
    ensures r.action == OpenCategoryGui <==>
      sender.PlayerSender? && api.IsInParty(sender.player) && api.IsPartyLeader(sender.player)
  {
    match sender
    case ConsoleSender => PartyCommandResult(true, PlayersOnly)
    case PlayerSender(player) => PlayerOutcome(api.IsInParty(player), api.IsPartyLeader(player))
  }

  /** The outcome for a player, from the party bridge's two answers: the
      party check comes before the leader check. */
  function PlayerOutcome(inParty: bool, leader: bool): (r: PartyCommandResult)
    ensures r.handled && r.action != PlayersOnly
    ensures r.action == MustBeInParty <==> !inParty
    ensures r.action == MustBeLeader <==> inParty && !leader
    ensures r.action == OpenCategoryGui <==> inParty && leader
  {
    if !inParty then PartyCommandResult(true, MustBeInParty)
    else if !leader then PartyCommandResult(true, MustBeLeader)
    else PartyCommandResult(true, OpenCategoryGui)
  }

  /** The party bridge never reports a party, so a player who runs the
      command is always told to join one and the GUI never opens. */
  lemma StubsNeverOpenGui(api: PartyIntegrationApi, player: Player)
    ensures OnCommand(api, PlayerSender(player)).action == MustBeInParty
  {
  }
}
