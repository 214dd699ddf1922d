/** The plugin configuration record, its default values, and the shared
    meaning of a check mode (ToggleState). */
module Config {

  /** Java `int`. */
  newtype int32 = x: int | -0x8000_0000 <= x < 0x8000_0000

  /** Java `long`. */
  newtype int64 = x: int | -0x8000_0000_0000_0000 <= x < 0x8000_0000_0000_0000

  /** When a check (or the console filter) is in force. */
  datatype ToggleState = Never | Attack | Always

  /** The mode gate: ALWAYS is always on, ATTACK only during a bot attack,
      NEVER never. */
  function IsActive(mode: ToggleState, underAttack: bool): (r: bool)
    ensures mode == Never ==> !r
    ensures mode == Always ==> r
    ensures mode == Attack ==> r == underAttack
  {
    mode == Always || (mode == Attack && underAttack)
  }

  /** The shared evaluation of a check's raw detection under its mode
      (the helper every mode-driven check routes its raw result through). */
  function Evaluate(mode: ToggleState, underAttack: bool, raw: bool): (r: bool)
    ensures mode == Never ==> !r
    ensures mode == Always ==> r == raw
    ensures mode == Attack ==> r == (raw && underAttack)
  {
    IsActive(mode, underAttack) && raw
  }

  /** A detection survives evaluation only if it was raised and the gate is open. */
  lemma EvaluateNeedsRawAndGate(mode: ToggleState, underAttack: bool, raw: bool)
    ensures Evaluate(mode, underAttack, raw) <==> raw && IsActive(mode, underAttack)
  {
  }

  datatype Geographical = Geographical(
    checkMode: ToggleState,
    priority: int32,
    /** true: `countries` is a blacklist; false: only `countries` are allowed. */
    isBlacklist: bool,
    countries: seq<string>,
    cityBlacklist: seq<string>)

  /** A proxy-checking service: a URL template and a response pattern (regex text). */
  datatype ProxyService = ProxyService(url: string, pattern: string)

  datatype ProxyCheck = ProxyCheck(
    checkMode: ToggleState,
    priority: int32,
    services: seq<ProxyService>,
    /** Seconds a proxy-check response stays cached. */
    cacheDuration: int32)

  datatype AccountLimitCheck = AccountLimitCheck(checkMode: ToggleState, priority: int32, accountLimit: int32)

  /** The settings-packet check has no mode: it is enabled or not, with a delay in seconds. */
  datatype SettingsCheck = SettingsCheck(enabled: bool, delay: int32)

  datatype NicknameCheck = NicknameCheck(checkMode: ToggleState, priority: int32, expression: string)

  datatype NameSimilarityCheck = NameSimilarityCheck(
    checkMode: ToggleState, priority: int32, historySize: int32, distance: int32)

  datatype ReconnectCheck = ReconnectCheck(checkMode: ToggleState, priority: int32)

  datatype ServerListCheck = ServerListCheck(checkMode: ToggleState, priority: int32)

  datatype ConsoleFilter = ConsoleFilter(filterMode: ToggleState, filterMessages: seq<string>)

  datatype AutoWhitelist = AutoWhitelist(enabled: bool, timeOnline: int32)

  datatype Misc = Misc(
    lockdownOnAttack: bool,
    attackConnectionThreshold: int32,
    attackResetInterval: int64,
    updateChecker: bool,
    autoSaveInterval: int64,
    debug: bool)

  datatype Storage = Storage(
    useMySQL: bool, host: string, port: int32, database: string, user: string, password: string)

  datatype PluginConfiguration = PluginConfiguration(
    geographical: Geographical,
    proxyCheck: ProxyCheck,
    accountLimitCheck: AccountLimitCheck,
    settingsCheck: SettingsCheck,
    nicknameCheck: NicknameCheck,
    nameSimilarityCheck: NameSimilarityCheck,
    reconnectCheck: ReconnectCheck,
    serverListCheck: ServerListCheck,
    autoWhitelist: AutoWhitelist,
    consoleFilter: ConsoleFilter,
    misc: Misc,
    storage: Storage)

  /** The configuration written when no configuration file exists yet. */
  const DefaultConfig: PluginConfiguration := PluginConfiguration(
    Geographical(Never, 7, false, ["US", "DE"], ["ExampleCity", "AnotherCity"]),
    ProxyCheck(Always, 1,
      [ProxyService("https://proxycheck.io/v2/{IP}?key=PROXYCHECK_KEY&risk=1&vpn=1", "(yes|VPN)")],
      300),
    AccountLimitCheck(Always, 3, 3),
    SettingsCheck(true, 5),
    NicknameCheck(Always, 8, "(?i).*(bot|mcdown).*"),
    NameSimilarityCheck(Never, 2, 5, 1),
    ReconnectCheck(Attack, 4),
    ServerListCheck(Attack, 5),
    AutoWhitelist(false, 600),
    ConsoleFilter(Attack, ["GameProfile", "Disconnected", "UUID of player", "logged in",
                           "lost connection", "InitialHandler"]),
    Misc(true, 6, 80, true, 10, false),
    Storage(false, "127.0.0.1", 3306, "database!", "username!", "password!"))

  /** The user-configurable check priorities, in the order geographical, proxy,
      account-limit, nickname, name-similarity, reconnect, server-list. */
  function ConfiguredPriorities(c: PluginConfiguration): (ps: seq<int32>)
    ensures |ps| == 7
  {
    [c.geographical.priority, c.proxyCheck.priority, c.accountLimitCheck.priority,
     c.nicknameCheck.priority, c.nameSimilarityCheck.priority, c.reconnectCheck.priority,
     c.serverListCheck.priority]
  }

  /** The per-check modes, in the same order as ConfiguredPriorities. */
  function ConfiguredModes(c: PluginConfiguration): (ms: seq<ToggleState>)
    ensures |ms| == 7
  {
    [c.geographical.checkMode, c.proxyCheck.checkMode, c.accountLimitCheck.checkMode,
     c.nicknameCheck.checkMode, c.nameSimilarityCheck.checkMode, c.reconnectCheck.checkMode,
     c.serverListCheck.checkMode]
  }

  /** "Bigger priority runs first" is a strict total order on a set of checks
      exactly when no two of them share a priority. */
  predicate PrioritiesDistinct(ps: seq<int32>) {
    forall i, j :: 0 <= i < j < |ps| ==> ps[i] != ps[j]
  }

  /** Default modes: geographical NEVER, proxy ALWAYS, account-limit ALWAYS,
      nickname ALWAYS, name-similarity NEVER, reconnect ATTACK, server-list ATTACK. */
  lemma DefaultModes()
    ensures ConfiguredModes(DefaultConfig) == [Never, Always, Always, Always, Never, Attack, Attack]
  {
  }

  /** The default priorities are 7, 1, 3, 8, 2, 4, 5: pairwise distinct, so the
      default evaluation order is fully determined. */
  lemma DefaultPrioritiesDistinct()
    ensures ConfiguredPriorities(DefaultConfig) == [7, 1, 3, 8, 2, 4, 5]
    ensures PrioritiesDistinct(ConfiguredPriorities(DefaultConfig))
  {
  }

  /** The default geographical list is a whitelist of US and DE. */
  lemma DefaultGeographicalWhitelist()
    ensures !DefaultConfig.geographical.isBlacklist
    ensures DefaultConfig.geographical.countries == ["US", "DE"]
  {
  }

  /** The default numeric settings, all positive. */
  lemma DefaultNumericSettings()
    ensures DefaultConfig.accountLimitCheck.accountLimit == 3
    ensures DefaultConfig.proxyCheck.cacheDuration == 300
    ensures DefaultConfig.misc.attackConnectionThreshold == 6
    ensures DefaultConfig.misc.attackResetInterval == 80
    ensures DefaultConfig.settingsCheck.delay == 5
    ensures DefaultConfig.autoWhitelist.timeOnline == 600
  {
  }

  /** Lockdown on attack is on and the console filter works only during attacks. */
  lemma DefaultLockdownAndFilter()
    ensures DefaultConfig.misc.lockdownOnAttack
    ensures DefaultConfig.consoleFilter.filterMode == Attack
    ensures !IsActive(DefaultConfig.consoleFilter.filterMode, false)
    ensures IsActive(DefaultConfig.consoleFilter.filterMode, true)
  {
  }
}
