/** The player command that opens the dungeon GUIs, enters and previews
    dungeons: its decision tree over the arguments and its tab completion. */
module DungeonCommands {
  import opened Text
  import opened Host
  import opened Seqs
  import opened Completions
  import opened DungeonManagement

  /** What the command does. Messages are named by their purpose. */
  datatype CommandAction =
    | PlayersOnly
    | OpenCategoryGui
    | SendHelp
    | ListCategories
    | OpenDungeonGui(categoryId: string)
    | EnterDungeon(dungeonId: string)
    | OpenPreviewGui(dungeonId: string)
    | NoSuchCategoryOrDungeon(argument: string)
    | NoSuchDungeon(dungeonId: string)
    | NoSuchCategory(categoryId: string)

  /** The action, and the value `onCommand` returns to the server. */
  datatype CommandResult = CommandResult(handled: bool, action: CommandAction)

  /** `s` is the id of some category in the manager's map. */
  predicate IsCategoryIdOf(manager: DungeonManager, s: string)
    reads manager
  {
    exists c :: c in manager.categories && manager.categories[c].id == s
  }

  /** `s` is the id of some dungeon in the manager's map. */
  predicate IsDungeonIdOf(manager: DungeonManager, s: string)
    reads manager
  {
    exists d :: d in manager.dungeons && manager.dungeons[d].id == s
  }

  /** `onCommand`. With one argument the argument is lower-cased before it is
      tried as `help`, `list`, a category id and then a dungeon id; with two
      the sub-command is lower-cased and the id is looked up as typed. */
  function OnCommand(manager: DungeonManager, sender: Sender, args: seq<string>): (r: CommandResult)
    reads manager
    ensures r.handled
    ensures r.action == PlayersOnly <==> sender.ConsoleSender?
    ensures sender.PlayerSender? && args == [] ==> r.action == OpenCategoryGui
    ensures r.action.OpenDungeonGui? ==> IsCategoryIdOf(manager, r.action.categoryId)
    ensures r.action.EnterDungeon? ==> IsDungeonIdOf(manager, r.action.dungeonId)
    ensures r.action.OpenPreviewGui? ==> IsDungeonIdOf(manager, r.action.dungeonId)
    ensures r.action.NoSuchCategoryOrDungeon? ==>
      |args| == 1 && r.action.argument == ToLower(args[0])
      && r.action.argument !in manager.categories && r.action.argument !in manager.dungeons
    ensures r.action.NoSuchDungeon? ==> |args| == 2 && r.action.dungeonId == args[1] && args[1] !in manager.dungeons
    ensures r.action.NoSuchCategory? ==> |args| == 2 && r.action.categoryId == args[1] && args[1] !in manager.categories
    ensures sender.PlayerSender? && |args| == 1 ==>
      var sub := ToLower(args[0]);
      (sub == "help" ==> r.action == SendHelp)
      && (sub == "list" ==> r.action == ListCategories)
      && (sub != "help" && sub != "list" && sub in manager.categories ==>
            r.action == OpenDungeonGui(manager.categories[sub].id))
      && (sub != "help" && sub != "list" && sub !in manager.categories && sub in manager.dungeons ==>
            r.action == EnterDungeon(manager.dungeons[sub].id))
      && (sub != "help" && sub != "list" && sub !in manager.categories && sub !in manager.dungeons ==>
            r.action == NoSuchCategoryOrDungeon(sub))
    ensures sender.PlayerSender? && |args| == 2 ==>
      var sub := ToLower(args[0]);
      var id := args[1];
      (sub == "enter" && id in manager.dungeons ==> r.action == EnterDungeon(manager.dungeons[id].id))
      && (sub == "preview" && id in manager.dungeons ==> r.action == OpenPreviewGui(manager.dungeons[id].id))
      && (sub in ["enter", "preview"] ==> (r.action == NoSuchDungeon(id) <==> id !in manager.dungeons))
      && (sub == "category" && id in manager.categories ==> r.action == OpenDungeonGui(manager.categories[id].id))
      && (sub == "category" ==> (r.action == NoSuchCategory(id) <==> id !in manager.categories))
    ensures sender.PlayerSender? && |args| >= 3 ==> r.action == SendHelp
    ensures sender.PlayerSender? && |args| == 2 && ToLower(args[0]) !in ["enter", "preview", "category"] ==>
      r.action == SendHelp
  {
    if sender.ConsoleSender? then CommandResult(true, PlayersOnly)
    else if |args| == 0 then CommandResult(true, OpenCategoryGui)
    else if |args| == 1 then
      var sub := ToLower(args[0]);
      if sub == "help" then CommandResult(true, SendHelp)
      else if sub == "list" then CommandResult(true, ListCategories)
      else match manager.GetCategory(sub)
        case Some(category) => CommandResult(true, OpenDungeonGui(category.id))
        case None =>
          match manager.GetDungeon(sub)
          case Some(dungeon) => CommandResult(true, EnterDungeon(dungeon.id))
          case None => CommandResult(true, NoSuchCategoryOrDungeon(sub))
    else if |args| == 2 then
      var sub := ToLower(args[0]);
      var id := args[1];
      if sub == "enter" then
        match manager.GetDungeon(id)
        case Some(dungeon) => CommandResult(true, EnterDungeon(dungeon.id))
        case None => CommandResult(true, NoSuchDungeon(id))
      else if sub == "preview" then
        match manager.GetDungeon(id)
        case Some(dungeon) => CommandResult(true, OpenPreviewGui(dungeon.id))
        case None => CommandResult(true, NoSuchDungeon(id))
      else if sub == "category" then
        match manager.GetCategory(id)
        case Some(category) => CommandResult(true, OpenDungeonGui(category.id))
        case None => CommandResult(true, NoSuchCategory(id))
      else CommandResult(true, SendHelp)
    else CommandResult(true, SendHelp)
  }

  /** The one-argument form ignores case: any spelling of a category id
      opens that category. */
  lemma ShortFormIgnoresCase(manager: DungeonManager, player: Player, arg: string)
    requires manager.Valid()
    requires ToLower(arg) in manager.categories && ToLower(arg) != "help" && ToLower(arg) != "list"
    ensures OnCommand(manager, PlayerSender(player), [arg]).action == OpenDungeonGui(ToLower(arg))
  {
  }

  /** A name that is both a category id and a dungeon id opens the category:
      the category lookup comes first. */
  lemma CategoryShadowsDungeon(manager: DungeonManager, player: Player, arg: string)
    requires manager.Valid()
    requires ToLower(arg) in manager.categories && ToLower(arg) in manager.dungeons
    requires ToLower(arg) != "help" && ToLower(arg) != "list"
    ensures !OnCommand(manager, PlayerSender(player), [arg]).action.EnterDungeon?
  {
  }

  /** The two-argument form keeps the case of the id: with the catalogue's
      lower-case ids, `MYTHOLOGY` opens the category on its own but is
      unknown after `category`. */
  lemma LongFormKeepsCase(manager: DungeonManager, player: Player)
    requires manager.Valid()
    requires "mythology" in manager.categories && "MYTHOLOGY" !in manager.categories
    ensures OnCommand(manager, PlayerSender(player), ["MYTHOLOGY"]).action == OpenDungeonGui("mythology")
    ensures OnCommand(manager, PlayerSender(player), ["category", "MYTHOLOGY"]).action == NoSuchCategory("MYTHOLOGY")
  {
    assert ToLower("MYTHOLOGY") == "mythology";
    assert ToLower("category") == "category";
  }

  /** The fixed words offered for the first argument, in the order offered. */
  const SUBCOMMANDS: seq<string> := ["help", "list", "enter", "preview", "category"]

  /** The ids of the manager's categories, one per map entry, in the map's
      iteration order. */
  method CategoryIds(manager: DungeonManager) returns (ids: seq<string>)
    ensures |ids| == |manager.categories|
    ensures forall s :: s in ids <==> IsCategoryIdOf(manager, s)
  {
    var keys := KeysInSomeOrder(manager.categories);
    ids := [];
    for i := 0 to |keys|
      invariant |ids| == i
      invariant forall k :: 0 <= k < i ==> ids[k] == manager.categories[keys[k]].id
    {
      ids := ids + [manager.categories[keys[i]].id];
    }
    forall s | IsCategoryIdOf(manager, s)
      ensures s in ids
    {
      var c :| c in manager.categories && manager.categories[c].id == s;
      var k :| 0 <= k < |keys| && keys[k] == c;
      assert ids[k] == s;
    }
  }

  /** The ids of the manager's dungeons, one per map entry, in the map's
      iteration order. */
  method DungeonIds(manager: DungeonManager) returns (ids: seq<string>)
    ensures |ids| == |manager.dungeons|
    ensures forall s :: s in ids <==> IsDungeonIdOf(manager, s)
  {
    var keys := KeysInSomeOrder(manager.dungeons);
    ids := [];
    for i := 0 to |keys|
      invariant |ids| == i
      invariant forall k :: 0 <= k < i ==> ids[k] == manager.dungeons[keys[k]].id
    {
      ids := ids + [manager.dungeons[keys[i]].id];
    }
    forall s | IsDungeonIdOf(manager, s)
      ensures s in ids
    {
      var d :| d in manager.dungeons && manager.dungeons[d].id == s;
      var k :| 0 <= k < |keys| && keys[k] == d;
      assert ids[k] == s;
    }
  }

  /** `onTabComplete`: for the first argument the fixed words and the
      category ids, for the second the dungeon ids after `enter` or
      `preview` and the category ids after `category`, each filtered by the
      typed text; nothing for later arguments. */
  method TabComplete(manager: DungeonManager, args: seq<string>) returns (r: seq<string>)
    ensures |args| == 1 ==>
      forall s :: s in r <==> (s in SUBCOMMANDS || IsCategoryIdOf(manager, s)) && Completes(s, args[0])
    ensures |args| == 1 && args[0] == [] ==> |r| == |SUBCOMMANDS| + |manager.categories| && r[..|SUBCOMMANDS|] == SUBCOMMANDS
    ensures |args| == 2 ==>
      var sub := ToLower(args[0]);
      forall s :: s in r <==>
        ((sub in ["enter", "preview"] && IsDungeonIdOf(manager, s)) || (sub == "category" && IsCategoryIdOf(manager, s)))
        && Completes(s, args[1])
    ensures |args| != 1 && |args| != 2 ==> r == []
  {
    if |args| == 1 {
      var ids := CategoryIds(manager);
      r := FilterCompletions(SUBCOMMANDS + ids, args[0]);
      if args[0] == [] {
        EmptyTextKeepsAll(SUBCOMMANDS + ids);
        assert (SUBCOMMANDS + ids)[..|SUBCOMMANDS|] == SUBCOMMANDS;
      }
      return;
    }
    if |args| == 2 {
      var sub := ToLower(args[0]);
      var completions: seq<string> := [];
      if sub == "enter" || sub == "preview" {
        completions := DungeonIds(manager);
      }
      if sub == "category" {
        completions := CategoryIds(manager);
      }
      r := FilterCompletions(completions, args[1]);
      return;
    }
    r := [];
  }

  /** With the manager's maps keyed by id, the category ids offered are
      exactly the category map's keys. */
  lemma OfferedCategoryIds(manager: DungeonManager, s: string)
    requires manager.Valid()
    ensures IsCategoryIdOf(manager, s) <==> s in manager.categories
  {
    if s in manager.categories {
      assert manager.categories[s].id == s;
    }
  }
}
