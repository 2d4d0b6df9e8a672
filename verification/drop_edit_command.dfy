/** The administrator command that opens the drop editor for a dungeon:
    a permission gate, then the dungeon id argument. */
module DropEditCommands {
  import opened Host
  import opened Completions
  import opened DungeonManagement
  import DungeonCommands

  /** The permission the command and its completion require. */
  const ADMIN_PERMISSION: string := "partydungeon.admin"

  datatype EditAction =
    | PlayersOnly
    | NoPermission
    | UsageAndDungeonList
    | NotFoundAndDungeonList(dungeonId: string)
    | OpenEditor(dungeonId: string)

  /** The action, and the value `onCommand` returns to the server. */
  datatype EditResult = EditResult(handled: bool, action: EditAction)

  predicate IsAdmin(player: Player) {
    ADMIN_PERMISSION in player.permissions
  }

  /** `onCommand`: the permission is checked before the arguments are looked
      at; only a known dungeon id opens the editor, and only for an
      administrator. Arguments after the first are ignored. */
  function OnCommand(manager: DungeonManager, sender: Sender, args: seq<string>): (r: EditResult)
    reads manager
    ensures r.handled
    ensures r.action == PlayersOnly <==> sender.ConsoleSender?
    ensures r.action == NoPermission <==> sender.PlayerSender? && !IsAdmin(sender.player)
    ensures r.action.OpenEditor? <==>
      sender.PlayerSender? && IsAdmin(sender.player) && args != [] && args[0] in manager.dungeons
    ensures r.action.OpenEditor? ==> r.action.dungeonId == args[0]
    ensures r.action == UsageAndDungeonList <==> sender.PlayerSender? && IsAdmin(sender.player) && args == []
    ensures r.action.NotFoundAndDungeonList? ==> args != [] && r.action.dungeonId == args[0] && args[0] !in manager.dungeons
  {
    if sender.ConsoleSender? then EditResult(true, PlayersOnly)
    else if !IsAdmin(sender.player) then EditResult(true, NoPermission)
    else if |args| == 0 then EditResult(true, UsageAndDungeonList)
    else
      var dungeonId := args[0];
      match manager.GetDungeon(dungeonId)
      case None => EditResult(true, NotFoundAndDungeonList(dungeonId))
      case Some(_) => EditResult(true, OpenEditor(dungeonId))
  }

  /** `onTabComplete`: nothing for a non-player or a player without the
      permission; the dungeon ids the typed text completes for the first
      argument; nothing for any other argument count. */
  method TabComplete(manager: DungeonManager, sender: Sender, args: seq<string>) returns (r: seq<string>)
    ensures sender.ConsoleSender? ==> r == []
    ensures sender.PlayerSender? && !IsAdmin(sender.player) ==> r == []
    ensures |args| != 1 ==> r == []
    ensures sender.PlayerSender? && IsAdmin(sender.player) && |args| == 1 ==>
      forall s :: s in r <==> DungeonCommands.IsDungeonIdOf(manager, s) && Completes(s, args[0])
  {
    if sender.ConsoleSender? || !IsAdmin(sender.player) {
      return [];
    }
    if |args| == 1 {
      var ids := DungeonCommands.DungeonIds(manager);
      r := FilterCompletions(ids, args[0]);
      return;
    }
    r := [];
  }
}
