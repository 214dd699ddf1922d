/** The `/guard blacklist <add/remove> <nickname/address>` subcommand. */
module BlacklistCommand {
  import opened Common
  import Strings
  import opened StorageManager

  const UsageText := "/guard blacklist <add/remove> <nickname/address>"

  /** The message the command sends, as an abstract token; `user` is the
      target argument as typed. NoMessage: an unknown action word is ignored. */
  datatype Outcome =
    | Usage(usage: string)
    | InvalidArgument
    | AlreadyBlacklisted(user: string)
    | BlacklistAdded(user: string)
    | NotBlacklisted(user: string)
    | BlacklistRemoved(user: string)
    | NoMessage

  /** The action word, matched ignoring case. */
  datatype Action = Add | Remove | Other

  function ParseAction(word: string): (a: Action)
    ensures a == Add <==> Strings.EqualsIgnoreCase(word, "add")
    ensures a == Remove <==> Strings.EqualsIgnoreCase(word, "remove")
  {
    if Strings.EqualsIgnoreCase(word, "add") then Add
    else if Strings.EqualsIgnoreCase(word, "remove") then Remove
    else Other
  }

  /** The message sent and the resolved meta afterwards. */
  datatype Transition = Transition(outcome: Outcome, meta: AddressMeta)

  /** The flag state machine on a resolved meta. Only `blacklisted` is ever
      written, and it changes exactly when a success message is sent. */
  function Toggle(action: Action, meta: AddressMeta, user: string): (t: Transition)
    ensures t.meta.whitelisted == meta.whitelisted && t.meta.nicknames == meta.nicknames
    ensures action == Add ==> t.meta.blacklisted
    ensures action == Remove ==> !t.meta.blacklisted
    ensures action == Other ==> t == Transition(NoMessage, meta)
    ensures action == Add && meta.blacklisted ==> t.outcome == AlreadyBlacklisted(user)
    ensures action == Remove && !meta.blacklisted ==> t.outcome == NotBlacklisted(user)
    ensures action == Add && !meta.blacklisted ==> t.outcome == BlacklistAdded(user)
    ensures action == Remove && meta.blacklisted ==> t.outcome == BlacklistRemoved(user)
    ensures t.meta != meta <==> t.outcome == BlacklistAdded(user) || t.outcome == BlacklistRemoved(user)
  {
    match action
    case Add =>
      if meta.blacklisted then Transition(AlreadyBlacklisted(user), meta)
      else Transition(BlacklistAdded(user), meta.(blacklisted := true))
    case Remove =>
      if !meta.blacklisted then Transition(NotBlacklisted(user), meta)
      else Transition(BlacklistRemoved(user), meta.(blacklisted := false))
    case Other => Transition(NoMessage, meta)
  }

  /** Repeating an action changes nothing more and reports "already". */
  lemma ToggleTwice(action: Action, meta: AddressMeta, user: string)
    requires action != Other
    ensures var second := Toggle(action, Toggle(action, meta, user).meta, user);
            && second.meta == Toggle(action, meta, user).meta
            && (second.outcome == AlreadyBlacklisted(user) || second.outcome == NotBlacklisted(user))
  {
  }

  /** Adding and then removing restores a meta that was not blacklisted, and
      removing then adding restores one that was. */
  lemma ToggleRoundTrip(meta: AddressMeta, user: string)
    ensures !meta.blacklisted ==> Toggle(Remove, Toggle(Add, meta, user).meta, user).meta == meta
    ensures meta.blacklisted ==> Toggle(Add, Toggle(Remove, meta, user).meta, user).meta == meta
  {
  }

  /** Runs the subcommand on `args` (args[0] is "blacklist"). Returns the message,
      the store afterwards and the address whose meta was resolved. */
  method Execute(s: Store, args: seq<string>, isInet: string -> bool)
    returns (outcome: Outcome, r: Store, target: Option<string>)
    ensures |args| != 3 ==> outcome == Usage(UsageText) && r == s && target == None
    ensures |args| == 3 && isInet(args[2]) ==> target == Some(args[2])
    ensures |args| == 3 && !isInet(args[2]) ==>
              (target.None? <==> !KnownNickname(s, args[2]))
    ensures target.None? && |args| == 3 ==> outcome == InvalidArgument && r == s
    ensures target.Some? ==>
              |args| == 3
              && var a := target.value;
                 var lookup := AddressMetaOf(s, a);
                 var t := Toggle(ParseAction(args[1]), lookup.meta, args[2]);
                 && (isInet(args[2]) || (a in s && HasNickname(s[a], args[2])))
                 && outcome == t.outcome
                 && r == lookup.store[a := t.meta]
    // only the `blacklisted` flag of the target is ever written
    ensures forall a :: a in r ==> a in s || target == Some(a)
    ensures forall a :: a in s ==> a in r
    ensures forall a :: a in s && target != Some(a) ==> r[a] == s[a]
    ensures forall a :: a in r ==>
              && r[a].whitelisted == AddressMetaOf(s, a).meta.whitelisted
              && r[a].nicknames == AddressMetaOf(s, a).meta.nicknames
  {
    if |args| != 3 {
      return Usage(UsageText), s, None;
    }
    var resolution := ResolveAddressMeta(s, args[2], isInet);
    if resolution.address.None? {
      return InvalidArgument, s, None;
    }
    var a := resolution.address.value;
    var t := Toggle(ParseAction(args[1]), resolution.store[a], args[2]);
    outcome := t.outcome;
    r := resolution.store[a := t.meta];
    target := Some(a);
  }

  /** Tab completion for the subcommand; reached only with at least two
      arguments (args[0] is "blacklist"). */
  method Suggest(s: Store, args: seq<string>) returns (r: seq<string>)
    requires |args| >= 2
    ensures |args| == 2 ==> r == ["add", "remove"]
    ensures |args| > 2 && Strings.EqualsIgnoreCase(args[1], "remove") ==>
              (forall a :: a in r <==> a in s && s[a].blacklisted) && NoDuplicates(r)
    ensures |args| > 2 && !Strings.EqualsIgnoreCase(args[1], "remove") ==> r == []
  {
    if |args| == 2 {
      return ["add", "remove"];
    }
    if Strings.EqualsIgnoreCase(args[1], "remove") {
      r := ViewAddresses(s, (m: AddressMeta) => m.blacklisted);
    } else {
      r := [];
    }
  }
}
