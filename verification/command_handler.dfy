/** The `/guard` command: a fixed table of subcommands, dispatch and tab completion. */
module CommandHandler {
  import opened Common
  import Strings
  import StorageManager
  import BlacklistCommand

  datatype SubCommand = Analyze | Blacklist | Help | Reload | Status | Whitelist | Save

  /** The registered subcommands, keyed by their (case-sensitive) names. */
  const CommandMap: map<string, SubCommand> := map[
    "analyze" := Analyze, "blacklist" := Blacklist, "help" := Help, "reload" := Reload,
    "status" := Status, "whitelist" := Whitelist, "save" := Save]

  /** The registered names as a list, in registration order. */
  const CommandNames: seq<string> :=
    ["analyze", "blacklist", "help", "reload", "status", "whitelist", "save"]

  /** The name each subcommand is registered under. */
  function NameOf(sub: SubCommand): string {
    match sub
    case Analyze => "analyze"
    case Blacklist => "blacklist"
    case Help => "help"
    case Reload => "reload"
    case Status => "status"
    case Whitelist => "whitelist"
    case Save => "save"
  }

  /** The table holds exactly the seven names, listed once each, and NameOf is
      its inverse: every subcommand is reachable under exactly one name. */
  lemma CommandTable(sub: SubCommand, name: string)
    ensures CommandMap.Keys == set n | n in CommandNames
    ensures NoDuplicates(CommandNames)
    ensures NameOf(sub) in CommandMap && CommandMap[NameOf(sub)] == sub
    ensures name in CommandMap ==> NameOf(CommandMap[name]) == name
  {
  }

  /** Where a command line goes. */
  datatype Dispatch = ShowVersion | UnknownCommand | Run(sub: SubCommand, args: seq<string>)

  function DispatchOf(args: seq<string>): (d: Dispatch)
    ensures d == ShowVersion <==> |args| == 0
    ensures d == UnknownCommand <==> |args| > 0 && args[0] !in CommandMap
    ensures d.Run? ==> |args| > 0 && args[0] in CommandMap && d.sub == CommandMap[args[0]] && d.args == args
  {
    if |args| < 1 then ShowVersion
    else if args[0] !in CommandMap then UnknownCommand
    else Run(CommandMap[args[0]], args)
  }

  /** Lookup is case-sensitive: "Blacklist" is not a command. */
  lemma DispatchIsCaseSensitive()
    ensures DispatchOf(["Blacklist", "add", "1.2.3.4"]) == UnknownCommand
    ensures DispatchOf(["blacklist", "add", "1.2.3.4"]) == Run(Blacklist, ["blacklist", "add", "1.2.3.4"])
  {
  }

  /** The outcome of a command line. The blacklist subcommand is modelled;
      the other subcommands are handed their arguments unchanged. */
  datatype CommandResult =
    | VersionInfo
    | Unknown
    | BlacklistResult(outcome: BlacklistCommand.Outcome)
    | Delegated(sub: SubCommand, args: seq<string>)

  /** Runs a command line. The subcommands other than blacklist are not
      modelled: `runOther` stands for their effect on the store (the whitelist
      subcommand, for one, writes address flags). */
  method HandleCommand(s: StorageManager.Store, args: seq<string>, isInet: string -> bool,
                       runOther: (SubCommand, seq<string>, StorageManager.Store) -> StorageManager.Store)
    returns (result: CommandResult, r: StorageManager.Store)
    ensures |args| == 0 ==> result == VersionInfo && r == s
    ensures |args| > 0 && args[0] !in CommandMap ==> result == Unknown && r == s
    ensures |args| > 0 && args[0] == "blacklist" ==> result.BlacklistResult?
    ensures |args| > 0 && args[0] == "blacklist" && |args| != 3 ==>
              result == BlacklistResult(BlacklistCommand.Usage(BlacklistCommand.UsageText)) && r == s
    ensures |args| > 0 && args[0] in CommandMap && args[0] != "blacklist" ==>
              result == Delegated(CommandMap[args[0]], args) && r == runOther(CommandMap[args[0]], args, s)
    ensures r != s ==> result.Delegated? || (|args| == 3 && args[0] == "blacklist")
  {
    match DispatchOf(args)
    case ShowVersion =>
      return VersionInfo, s;
    case UnknownCommand =>
      return Unknown, s;
    case Run(sub, all) =>
      if sub == Blacklist {
        var outcome, store, _ := BlacklistCommand.Execute(s, all, isInet);
        return BlacklistResult(outcome), store;
      }
      return Delegated(sub, all), runOther(sub, all, s);
  }

  /** Tab-completion results. The blacklist subcommand is modelled; the others
      are handed their arguments. */
  datatype Suggestions = Listed(items: seq<string>) | DelegatedSuggest(sub: SubCommand, args: seq<string>)

  method HandleSuggestions(s: StorageManager.Store, args: seq<string>) returns (r: Suggestions)
    ensures |args| <= 1 ==> r.Listed? && (forall n :: n in r.items <==> n in CommandMap)
    ensures |args| <= 1 ==> r.Listed? && NoDuplicates(r.items)
    ensures |args| > 1 && args[0] !in CommandMap ==> r == Listed([])
    ensures |args| > 1 && args[0] == "blacklist" && |args| == 2 ==> r == Listed(["add", "remove"])
    ensures |args| > 2 && args[0] == "blacklist" && Strings.EqualsIgnoreCase(args[1], "remove") ==>
              r.Listed? && (forall a :: a in r.items <==> a in s && s[a].blacklisted)
              && NoDuplicates(r.items)
    ensures |args| > 2 && args[0] == "blacklist" && !Strings.EqualsIgnoreCase(args[1], "remove") ==>
              r == Listed([])
    ensures |args| > 1 && args[0] in CommandMap && args[0] != "blacklist" ==>
              r == DelegatedSuggest(CommandMap[args[0]], args)
  {
    if |args| <= 1 {
      return Listed(CommandNames);
    }
    if args[0] !in CommandMap {
      return Listed([]);
    }
    var sub := CommandMap[args[0]];
    if sub == Blacklist {
      var items := BlacklistCommand.Suggest(s, args);
      return Listed(items);
    }
    return DelegatedSuggest(sub, args);
  }
}
