/** A console log filter that hides configured messages while it is active. */
module LogFilter {
  import opened Common
  import Strings
  import opened Config

  /** The filter verdicts of the logging framework. */
  datatype FilterResult = Accept | Neutral | Deny

  /** A logging event, reduced to its formatted message text. */
  datatype LogEvent = LogEvent(formattedMessage: string)

  /** Some filter string occurs in the message (a scan of the list in order). */
  function AnyContained(message: string, filters: seq<string>): (r: bool)
    ensures r <==> exists i :: 0 <= i < |filters| && Strings.Occurs(message, filters[i])
  {
    if filters == [] then false
    else
      Strings.Contains(message, filters[0]) || AnyContained(message, filters[1..])
  }

  /** DENY exactly when the filter is active (by its mode and the attack state)
      and the message contains a configured filter string; NEUTRAL otherwise. */
  function IsLoggable(filter: ConsoleFilter, underAttack: bool, message: string): (r: FilterResult)
    ensures r != Accept
    ensures r == Deny <==>
              IsActive(filter.filterMode, underAttack)
              && exists i :: 0 <= i < |filter.filterMessages| && Strings.Occurs(message, filter.filterMessages[i])
  {
    if IsActive(filter.filterMode, underAttack) && AnyContained(message, filter.filterMessages) then Deny
    else Neutral
  }

  /** The LogEvent overload: a null event (None) is NEUTRAL, otherwise the
      event's formatted message is judged. */
  function FilterEvent(filter: ConsoleFilter, underAttack: bool, event: Option<LogEvent>): (r: FilterResult)
    ensures r != Accept
    ensures event.None? ==> r == Neutral
    ensures event.Some? ==> r == IsLoggable(filter, underAttack, event.value.formattedMessage)
  {
    match event
    case None => Neutral
    case Some(e) => IsLoggable(filter, underAttack, e.formattedMessage)
  }

  /** A log message, reduced to its formatted text. */
  datatype Message = Message(formattedMessage: string)

  /** The Message overload: the message's formatted text is judged. */
  function FilterMessage(filter: ConsoleFilter, underAttack: bool, msg: Message): (r: FilterResult)
    ensures r != Accept
    ensures r == IsLoggable(filter, underAttack, msg.formattedMessage)
  {
    IsLoggable(filter, underAttack, msg.formattedMessage)
  }

  /** The String overload: the raw message string is judged as given; its
      format parameters are never substituted. */
  function FilterString(filter: ConsoleFilter, underAttack: bool, msg: string, params: seq<string>): (r: FilterResult)
    ensures r != Accept
    ensures r == Deny <==>
              IsActive(filter.filterMode, underAttack)
              && exists i :: 0 <= i < |filter.filterMessages| && Strings.Occurs(msg, filter.filterMessages[i])
  {
    IsLoggable(filter, underAttack, msg)
  }

  /** The parameters play no part in the String overload's verdict. */
  lemma FilterStringIgnoresParams(filter: ConsoleFilter, underAttack: bool, msg: string,
                                  p1: seq<string>, p2: seq<string>)
    ensures FilterString(filter, underAttack, msg, p1) == FilterString(filter, underAttack, msg, p2)
  {
  }

  /** The Object overload: a null object (None) is NEUTRAL, otherwise its
      string form is judged. */
  function FilterObject(filter: ConsoleFilter, underAttack: bool, msg: Option<string>): (r: FilterResult)
    ensures r != Accept
    ensures msg.None? ==> r == Neutral
    ensures msg.Some? ==> r == IsLoggable(filter, underAttack, msg.value)
  {
    if msg.None? then Neutral else IsLoggable(filter, underAttack, msg.value)
  }

  /** Mode NEVER never hides anything; ATTACK hides nothing outside an attack;
      under ALWAYS the attack state is irrelevant. */
  lemma ModeGate(filter: ConsoleFilter, underAttack: bool, message: string)
    ensures filter.filterMode == Never ==> IsLoggable(filter, underAttack, message) == Neutral
    ensures filter.filterMode == Attack && !underAttack ==> IsLoggable(filter, underAttack, message) == Neutral
    ensures filter.filterMode == Always ==>
              IsLoggable(filter, underAttack, message) == IsLoggable(filter, !underAttack, message)
  {
  }

  /** An empty filter list hides nothing. */
  lemma EmptyFilterListNeutral(filter: ConsoleFilter, underAttack: bool, message: string)
    requires filter.filterMessages == []
    ensures IsLoggable(filter, underAttack, message) == Neutral
  {
  }

  /** An empty filter string hides every message whenever the filter is active. */
  lemma EmptyFilterStringDeniesAll(filter: ConsoleFilter, underAttack: bool, message: string)
    requires "" in filter.filterMessages
    requires IsActive(filter.filterMode, underAttack)
    ensures IsLoggable(filter, underAttack, message) == Deny
  {
    var i :| 0 <= i < |filter.filterMessages| && filter.filterMessages[i] == "";
    Strings.ContainsEmpty(message);
  }

  /** With the default filter, a disconnect line is hidden during an attack and
      shown otherwise. */
  lemma DefaultFilterExample()
    ensures IsLoggable(DefaultConfig.consoleFilter, true, "Steve lost connection") == Deny
    ensures IsLoggable(DefaultConfig.consoleFilter, false, "Steve lost connection") == Neutral
  {
    var m := "Steve lost connection";
    assert Strings.IsPrefix("lost connection", m[6..]);
    assert DefaultConfig.consoleFilter.filterMessages[4] == "lost connection";
  }
}
