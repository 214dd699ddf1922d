/** Denies every connection while a bot attack is in progress. */
module LockdownCheck {
  import opened Config
  import StorageManager

  /** The fixed priority, above every default priority; it is not read from
      the configuration. */
  const Priority: int32 := 99

  /** Detected exactly during an attack with lockdown-on-attack enabled. The
      user is not consulted and no mode is read. */
  function IsDetected(config: PluginConfiguration, underAttack: bool, user: StorageManager.ConnectingUser): (r: bool)
    ensures r ==> underAttack
    ensures r ==> config.misc.lockdownOnAttack
    ensures underAttack && config.misc.lockdownOnAttack ==> r
  {
    underAttack && config.misc.lockdownOnAttack
  }

  /** The verdict depends on neither the address nor the nickname, nor on any
      other part of the configuration than the lockdown flag (so on no check
      mode or priority); it behaves like the ATTACK mode applied to that flag. */
  lemma IgnoresUserAndModes(c1: PluginConfiguration, c2: PluginConfiguration, underAttack: bool,
                            u1: StorageManager.ConnectingUser, u2: StorageManager.ConnectingUser)
    requires c1.misc.lockdownOnAttack == c2.misc.lockdownOnAttack
    ensures IsDetected(c1, underAttack, u1) == IsDetected(c2, underAttack, u2)
    ensures IsDetected(c1, underAttack, u1) == Evaluate(Attack, underAttack, c1.misc.lockdownOnAttack)
  {
  }

  /** Every default check priority is below the lockdown priority, so with the
      default configuration the lockdown check is evaluated first. */
  lemma RunsFirstByDefault()
    ensures forall i :: 0 <= i < 7 ==> ConfiguredPriorities(DefaultConfig)[i] < Priority
  {
    DefaultPrioritiesDistinct();
  }

  /** A configured priority is any Java int, so it can overtake the lockdown
      check: with the geographical priority set to 100, that check runs first. */
  lemma ConfiguredPriorityCanOvertake()
    ensures var c := DefaultConfig.(geographical := DefaultConfig.geographical.(priority := 100));
            ConfiguredPriorities(c)[0] > Priority
  {
  }
}
