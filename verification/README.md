# EpicGuard decision logic in Dafny

EpicGuard is an anti-bot plugin for Minecraft servers and proxies. This project
models its sequential decision logic as immutable datatypes and pure functions
and methods:

- the **address store** (`StorageManager`): a map from textual address to
  `AddressMeta` (blacklisted, whitelisted, nickname history) with
  lookup-or-create, IP-or-nickname resolution, nickname recording and filtered
  listing (`storage.dfy`);
- the **blacklist subcommand** and the **`/guard` command dispatcher**, with
  their tab completion (`blacklist_command.dfy`, `command_handler.dfy`);
- the **geographical** and **lockdown** checks (`geographical_check.dfy`,
  `lockdown_check.dfy`);
- the **console log filter** (`log_filter.dfy`);
- the **configuration record** with its default values and the shared meaning
  of a check mode, NEVER / ATTACK / ALWAYS (`config.dfy`);
- Java's `String.equalsIgnoreCase` and `String.contains`, each with a
  reference definition it is proved equal to (`strings.dfy`).

The store is a value. Java hands out the live `AddressMeta` object and mutates
it; here every mutation returns a new map. The address map is a
`ConcurrentHashMap`, so iterating it visits entries in an unspecified order.
`LastSeenAddress` and `ViewAddresses` therefore pick keys with Dafny's
non-deterministic choice, and their contracts say only what holds in every
order. For that reason they and their callers are methods.

The check-mode helper `evaluate(mode, raw)` lives in `AbstractCheck`.
`AbstractCheck` is not part of this model. `Config.Evaluate` gives it the
meaning of the mode comments in `PluginConfiguration`: NEVER disables the
check, ATTACK runs it only during a bot attack, ALWAYS always runs it. The gate
`Config.IsActive` is the same test the log filter writes out explicitly.

Collaborators become inputs:
- the attack state is a `underAttack: bool` parameter;
- the geo lookups are the `country` and `city` strings;
- Guava's `InetAddresses.isInetAddress` is an uninterpreted parameter
  `isInet: string -> bool`;
- chat messages are abstract outcome values.

## Model

| member | source | states |
|---|---|---|
| StorageManager.AddressMetaOf | core/src/main/java/me/xneox/epicguard/core/storage/StorageManager.java:57-60 | a stored address returns its meta and leaves the map unchanged; an unknown address gains a (false, false, []) record; exactly that key is added and no other entry changes |
| StorageManager.AddressMetaIdempotent | core/src/main/java/me/xneox/epicguard/core/storage/StorageManager.java:58-59 | a second lookup of the same address returns the same record and leaves the map as the first lookup left it |
| StorageManager.LastSeenAddress | core/src/main/java/me/xneox/epicguard/core/storage/StorageManager.java:82-89 | the result is null exactly when no stored address has a case-insensitively equal nickname; otherwise it is some stored address whose history has such a nickname (which one depends on iteration order) |
| StorageManager.ResolveAddressMeta | core/src/main/java/me/xneox/epicguard/core/storage/StorageManager.java:72-77 | an IP literal always resolves, to itself, with lookup-or-create; any other token resolves without changing the store, to null exactly when no address knows that nickname, otherwise to an address that knows it |
| StorageManager.UpdateAccounts | core/src/main/java/me/xneox/epicguard/core/storage/StorageManager.java:95-100 | the user's address gets a record if missing; a nickname already in the list (exactly) leaves the list unchanged, any other is appended at the end; so the list keeps its old entries in order, contains the nickname and gains nothing else; flags and all other addresses are untouched |
| StorageManager.UpdateAccountsIdempotent | core/src/main/java/me/xneox/epicguard/core/storage/StorageManager.java:95-100 | recording the same connection twice gives the same store as recording it once |
| StorageManager.UpdateAccountsKeepsNoDuplicates | core/src/main/java/me/xneox/epicguard/core/storage/StorageManager.java:97-99 | a history free of exact duplicates stays free of them after a nickname is recorded |
| StorageManager.UpdateAccountsIsCaseSensitive | core/src/main/java/me/xneox/epicguard/core/storage/StorageManager.java:97 | the duplicate test is case-sensitive: "steve" is appended after "Steve" although the two are equal ignoring case |
| StorageManager.ViewAddresses | core/src/main/java/me/xneox/epicguard/core/storage/StorageManager.java:108-114 | lists exactly the stored addresses whose meta satisfies the predicate, each once; the store is only read |
| BlacklistCommand.ParseAction | core/src/main/java/me/xneox/epicguard/core/command/sub/BlacklistCommand.java:46-54 | the action is "add" exactly when the word equals "add" ignoring case, "remove" exactly when it equals "remove" ignoring case |
| BlacklistCommand.Toggle | core/src/main/java/me/xneox/epicguard/core/command/sub/BlacklistCommand.java:46-62 | add makes the meta blacklisted and remove makes it not blacklisted; a successful add reports blacklist-added and a successful remove reports blacklist-removed; an already-set flag is reported as already blacklisted or not blacklisted; another word changes nothing and sends nothing; only the flag is written, and it changes exactly when a success message is sent |
| BlacklistCommand.ToggleTwice | core/src/main/java/me/xneox/epicguard/core/command/sub/BlacklistCommand.java:47-58 | repeating add or remove changes nothing more and reports the "already" message |
| BlacklistCommand.ToggleRoundTrip | core/src/main/java/me/xneox/epicguard/core/command/sub/BlacklistCommand.java:52-60 | add then remove restores a meta that was not blacklisted; remove then add restores one that was |
| BlacklistCommand.Execute | core/src/main/java/me/xneox/epicguard/core/command/sub/BlacklistCommand.java:31-63 | a count other than 3 arguments gives the usage message and changes nothing; an unresolvable target gives invalid-argument and changes nothing; otherwise the resolved meta goes through Toggle and is written back; only the target's blacklisted flag changes, and only an IP target can be added to the store |
| BlacklistCommand.Suggest | core/src/main/java/me/xneox/epicguard/core/command/sub/BlacklistCommand.java:65-75 | with 2 arguments it suggests add and remove; after "remove" (ignoring case) it suggests exactly the blacklisted addresses, each once; otherwise nothing |
| CommandHandler.CommandTable | core/src/main/java/me/xneox/epicguard/core/command/CommandHandler.java:46-52 | the registered names are exactly analyze, blacklist, help, reload, status, whitelist and save, each once; every subcommand is registered under exactly one name |
| CommandHandler.DispatchOf | core/src/main/java/me/xneox/epicguard/core/command/CommandHandler.java:55-71 | empty arguments give the version message; a first argument that is not a registered key gives unknown-command; a registered one runs exactly that subcommand with the full argument list |
| CommandHandler.DispatchIsCaseSensitive | core/src/main/java/me/xneox/epicguard/core/command/CommandHandler.java:64-68 | lookup is case-sensitive: "Blacklist" is unknown while "blacklist" runs the blacklist subcommand |
| CommandHandler.HandleCommand | core/src/main/java/me/xneox/epicguard/core/command/CommandHandler.java:55-71 | the version and unknown-command cases leave the store unchanged; a blacklist command with a count other than 3 arguments yields the usage message and changes nothing; other registered subcommands receive the full argument list, and their unmodelled effect on the store is the parameter runOther; among the modelled subcommands, only a three-argument blacklist command changes the store |
| CommandHandler.HandleSuggestions | core/src/main/java/me/xneox/epicguard/core/command/CommandHandler.java:73-85 | with at most one argument every registered name is suggested; the names and the blacklisted addresses are listed once each; an unknown first argument suggests nothing; the blacklist suggestions follow BlacklistCommand.Suggest, which is reached only with at least two arguments |
| GeographicalCheck.IsRestricted | core/src/main/java/me/xneox/epicguard/core/check/GeographicalCheck.java:36-49 | a blacklisted city always restricts; otherwise a blacklist restricts exactly the listed countries and a whitelist exactly the unlisted ones, by exact containment |
| GeographicalCheck.ListModesComplementary | core/src/main/java/me/xneox/epicguard/core/check/GeographicalCheck.java:44-48 | for a city that is not blacklisted, the blacklist and whitelist modes give opposite verdicts |
| GeographicalCheck.CityBlacklistMonotone | core/src/main/java/me/xneox/epicguard/core/check/GeographicalCheck.java:40-42 | blacklisting one more city never lifts a restriction |
| GeographicalCheck.MembershipIsExact | core/src/main/java/me/xneox/epicguard/core/check/GeographicalCheck.java:45-47 | list membership is exact, case-sensitive containment: a whitelist of US restricts the code us |
| GeographicalCheck.IsDetected | core/src/main/java/me/xneox/epicguard/core/check/GeographicalCheck.java:31-34 | detected exactly when the address is restricted and the configured geographical mode is active |
| GeographicalCheck.DefaultNeverDetects | core/src/main/java/me/xneox/epicguard/core/config/PluginConfiguration.java:72 | under the default configuration (mode NEVER) the check detects nobody |
| GeographicalCheck.DefaultListsExample | core/src/main/java/me/xneox/epicguard/core/config/PluginConfiguration.java:84-90 | with the default whitelist of US and DE, an address in France is restricted, one in Berlin is not, and one in ExampleCity is |
| LockdownCheck.IsDetected | core/src/main/java/me/xneox/epicguard/core/check/LockdownCheck.java:30-33 | detected exactly when under attack and lockdown-on-attack is enabled: never outside an attack, never with the flag off |
| LockdownCheck.IgnoresUserAndModes | core/src/main/java/me/xneox/epicguard/core/check/LockdownCheck.java:31-33 | any two configurations with the same lockdown-on-attack flag give the same verdict for any two users, so no check mode or priority matters; the verdict equals ATTACK-mode evaluation of the lockdown flag |
| LockdownCheck.RunsFirstByDefault | core/src/main/java/me/xneox/epicguard/core/check/LockdownCheck.java:26-28 | every default check priority is below the fixed lockdown priority 99 |
| LockdownCheck.ConfiguredPriorityCanOvertake | core/src/main/java/me/xneox/epicguard/core/check/LockdownCheck.java:27 | the fixed 99 is not above every configurable priority: a geographical priority of 100 is evaluated before the lockdown check |
| LogFilter.AnyContained | core/src/main/java/me/xneox/epicguard/core/util/logging/LogFilter.java:67-72 | the scan of the filter list succeeds exactly when some filter string occurs in the message |
| LogFilter.IsLoggable | core/src/main/java/me/xneox/epicguard/core/util/logging/LogFilter.java:64-74 | DENY exactly when the filter mode is active and some filter string occurs in the message, NEUTRAL otherwise, never ACCEPT |
| LogFilter.FilterEvent | core/src/main/java/me/xneox/epicguard/core/util/logging/LogFilter.java:44-47 | a null event is NEUTRAL; otherwise the event's formatted message is judged; never ACCEPT |
| LogFilter.FilterMessage | core/src/main/java/me/xneox/epicguard/core/util/logging/LogFilter.java:49-52 | the Message overload judges the message's formatted text; never ACCEPT |
| LogFilter.FilterString | core/src/main/java/me/xneox/epicguard/core/util/logging/LogFilter.java:54-57 | the String overload denies exactly when the filter is active and some filter string occurs in the raw message string; never ACCEPT |
| LogFilter.FilterStringIgnoresParams | core/src/main/java/me/xneox/epicguard/core/util/logging/LogFilter.java:55-56 | the String overload's verdict is the same for any format parameters: they are never substituted |
| LogFilter.FilterObject | core/src/main/java/me/xneox/epicguard/core/util/logging/LogFilter.java:59-62 | a null object is NEUTRAL; otherwise its string form is judged; never ACCEPT |
| LogFilter.ModeGate | core/src/main/java/me/xneox/epicguard/core/util/logging/LogFilter.java:66 | NEVER never hides; ATTACK hides nothing outside an attack; under ALWAYS the attack state is irrelevant |
| LogFilter.EmptyFilterListNeutral | core/src/main/java/me/xneox/epicguard/core/util/logging/LogFilter.java:67-73 | an empty filter list hides nothing |
| LogFilter.EmptyFilterStringDeniesAll | core/src/main/java/me/xneox/epicguard/core/util/logging/LogFilter.java:67-70 | an empty filter string hides every message while the filter is active |
| LogFilter.DefaultFilterExample | core/src/main/java/me/xneox/epicguard/core/config/PluginConfiguration.java:336-347 | with the default filter, "Steve lost connection" is hidden during an attack and shown otherwise |
| Config.Evaluate | core/src/main/java/me/xneox/epicguard/core/config/PluginConfiguration.java:68-72 | NEVER never detects, ALWAYS passes the raw detection through, ATTACK passes it through only under attack |
| Config.IsActive | core/src/main/java/me/xneox/epicguard/core/util/logging/LogFilter.java:66 | the mode gate: never open under NEVER, always open under ALWAYS, open under ATTACK exactly during an attack |
| Config.EvaluateNeedsRawAndGate | core/src/main/java/me/xneox/epicguard/core/util/logging/LogFilter.java:66 | a check detects exactly when its raw result holds and the same gate the log filter uses is open |
| Config.DefaultModes | core/src/main/java/me/xneox/epicguard/core/config/PluginConfiguration.java:72-312 | default modes: geographical NEVER, proxy ALWAYS, account-limit ALWAYS, nickname ALWAYS, name-similarity NEVER, reconnect ATTACK, server-list ATTACK |
| Config.DefaultPrioritiesDistinct | core/src/main/java/me/xneox/epicguard/core/config/PluginConfiguration.java:78-318 | the default priorities 7, 1, 3, 8, 2, 4, 5 are pairwise distinct, so "bigger priority first" orders them totally |
| Config.DefaultGeographicalWhitelist | core/src/main/java/me/xneox/epicguard/core/config/PluginConfiguration.java:84-87 | the default country list is a whitelist of US and DE |
| Config.DefaultNumericSettings | core/src/main/java/me/xneox/epicguard/core/config/PluginConfiguration.java:138-393 | default account limit 3, proxy cache 300 s, attack threshold 6, reset interval 80, settings delay 5, auto-whitelist 600 s |
| Config.DefaultLockdownAndFilter | core/src/main/java/me/xneox/epicguard/core/config/PluginConfiguration.java:336-383 | lockdown-on-attack is on by default and the console filter is active only during attacks |
| Strings.EqualsIgnoreCaseIffFolded | core/src/main/java/me/xneox/epicguard/core/storage/StorageManager.java:85 | equalsIgnoreCase holds exactly when the upper-case folds of the two strings coincide |
| Strings.EqualsIgnoreCaseIsEquivalence | core/src/main/java/me/xneox/epicguard/core/storage/StorageManager.java:85 | case-insensitive equality is reflexive, symmetric and transitive |
| Strings.OccursStep | core/src/main/java/me/xneox/epicguard/core/util/logging/LogFilter.java:68 | a substring occurs in a string exactly when it is a prefix or occurs in the string's tail |
| Strings.Contains | core/src/main/java/me/xneox/epicguard/core/util/logging/LogFilter.java:68 | String.contains as a left-to-right scan; it holds exactly when the substring occurs at some offset |
| Strings.EqualsIgnoreCase | core/src/main/java/me/xneox/epicguard/core/storage/StorageManager.java:85 | String.equalsIgnoreCase: holds exactly when the strings have the same length and agree character by character once upper-cased |

## Notes on the code

- `updateAccounts` tests membership with the case-sensitive `List.contains`
  (StorageManager.java:97), while `lastSeenAddress` matches nicknames ignoring
  case (StorageManager.java:85). `UpdateAccountsIsCaseSensitive` shows that a
  case variant of a stored nickname is stored a second time.
- An unknown or empty country code is absent from a whitelist, so in whitelist
  mode such an address is restricted (GeographicalCheck.java:46-47).
- The lockdown check's priority is the constant 99 (LockdownCheck.java:27),
  while the other checks' priorities are configurable `int`s. A configured
  priority of 99 ties with the lockdown check, and one above 99 runs before it.
  So "always executed first" holds only while every configured priority stays
  below 99, as the defaults do (`RunsFirstByDefault`,
  `ConfiguredPriorityCanOvertake`).

## Left out

- Database, `setupDatabase` and `DataSaveTask`: SQL persistence I/O.
- The ping cache and the `addresses()`, `database()` and `pingCache()` accessors: plain field access with no logic.
- Concurrency: the atomicity of `computeIfAbsent` and the unsynchronised ping cache. Everything is modelled sequentially.
- The analyze, help, reload, status, whitelist and save subcommands are not part of this model. Dispatch to them is modelled. Their effect on the store is the parameter `runOther` of `HandleCommand`, and their messages are not modelled.
- `StatusCommand`, `DisconnectHandler`, `ProxyCheck` and the platform listeners and bootstrap: presentation, delegation to code that is not part of this model, or event wiring.
- `AbstractCheck` is not part of this model. `Config.Evaluate` stands for its `evaluate`.
- Log4j registration (`LogFilter.register`): a foreign call.
- Message texts, prefixes and Adventure components: modelled as abstract outcome values. The version message is the single value `VersionInfo`.
- The order of `HashMap.keySet()` for tab completion: the model returns the names in registration order, and the contract states only the set of names.
- Strings.EqualsIgnoreCase: case mapping covers the ASCII letters only, because Java's full Unicode case tables are not modelled.
- Strings.EqualsIgnoreCaseIffFolded: the same ASCII-only case mapping.
- LogFilter.FilterString: a null String message is not modelled. With an active filter and a non-empty list, Java would throw a NullPointerException there.
- LogFilter.FilterMessage: a null Message is not modelled. Java throws a NullPointerException when it asks for the formatted message (LogFilter.java:51), whatever the filter state.
- The proxy services' regular expressions and the nickname regex are kept as text. Nothing in the modelled core interprets them.
- CommandHandler.HandleCommand: for a three-argument blacklist command it states only that the result is a blacklist outcome. The outcome and the store change are stated by BlacklistCommand.Execute, which it calls unchanged.
