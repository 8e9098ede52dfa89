/**
 * The lifecycle gate of the AnPoll Telegram bot handler (bot/handler.py):
 * the two-valued handler state, the `InvalidHandlerState` exception and its
 * message, the handler's construction, the state guard that runs an action
 * only in the required state, and the (empty) message handler.
 */
module Handler {
  import opened Wrappers
  import StrFormat

  /** The supported action names. They are only declared; nothing in the handler uses them yet. */
  const ActionStart: string := "start"
  const ActionStop: string := "stop"

  /** The two possible handler states. */
  datatype State = Started | Stopped

  /** The string by which the handler names a state. */
  function StateName(s: State): string
  {
    match s
    case Started => "started"
    case Stopped => "stopped"
  }

  /** The state a string names, if it names one. */
  function StateNamed(name: string): (r: Option<State>)
    ensures r.Some? ==> StateName(r.value) == name
  {
    if name == StateName(Started) then Some(Started)
    else if name == StateName(Stopped) then Some(Stopped)
    else None
  }

  /** Naming a state and reading the name back gives the same state. */
  lemma StateNameRoundTrip(s: State)
    ensures StateNamed(StateName(s)) == Some(s)
  {
  }

  /**
   * Comparing two states by their names, as the source compares its state
   * strings, is the same as comparing the states themselves.
   */
  lemma StateNamesDistinct(a: State, b: State)
    ensures StateName(a) == StateName(b) <==> a == b
  {
  }

  /** The message template of `InvalidHandlerState`, with the required state as its field. */
  const MessageTemplate: string := "This action should be run in '{0}' state"
  const MessagePrefix: string := "This action should be run in '"
  const MessageSuffix: string := "' state"

  /** The exceptions the lifecycle gate raises. */
  datatype HandlerError = InvalidHandlerState(required: State)
  {
    /** The exception's message: the template formatted with the required state's name. */
    function Message(): (m: string)
      ensures m == MessagePrefix + StateName(required) + MessageSuffix
    {
      assert MessageTemplate == MessagePrefix + StrFormat.Field + MessageSuffix;
      StrFormat.FormatOneField(MessagePrefix, MessageSuffix, StateName(required));
      StrFormat.FormatFields(MessageTemplate, StateName(required))
    }
  }

  /** The state named between the quotes of an `InvalidHandlerState` message, if the text is one. */
  function StateInMessage(m: string): Option<State>
  {
    if |m| >= |MessagePrefix| + |MessageSuffix|
       && m[..|MessagePrefix|] == MessagePrefix
       && m[|m| - |MessageSuffix|..] == MessageSuffix
    then StateNamed(m[|MessagePrefix|..|m| - |MessageSuffix|])
    else None
  }

  /** The message of an `InvalidHandlerState` names exactly the state it requires. */
  lemma MessageNamesRequiredState(e: HandlerError)
    ensures StateInMessage(e.Message()) == Some(e.required)
  {
  }

  /** Two `InvalidHandlerState` exceptions with the same message require the same state. */
  lemma MessageDeterminesState(e: HandlerError, f: HandlerError)
    ensures e.Message() == f.Message() <==> e == f
  {
    MessageNamesRequiredState(e);
    MessageNamesRequiredState(f);
  }

  /** Python's `admins or []`: a non-empty list is kept, `None` and the empty list become `[]`. */
  function AdminsOrEmpty(admins: Option<seq<string>>): (r: seq<string>)
    ensures r == [] <==> admins == None || admins == Some([])
    ensures r != [] ==> admins == Some(r)
  {
    match admins
    case None => []
    case Some(list) => if list != [] then list else []
  }

  /** A reference to an object of the messaging library (bot client, message loop); its contents are not modelled. */
  type ForeignHandle = nat

  /** The AnPoll bot handler. */
  class Handler {
    var admins: seq<string>
    var bot: Option<ForeignHandle>
    var loop: Option<ForeignHandle>
    var state: State
    var token: string

    /** A new handler: stopped, with the given token and admins, and not yet connected. */
    constructor (token: string, admins: Option<seq<string>>)
      ensures this.admins == AdminsOrEmpty(admins)
      ensures this.bot == None && this.loop == None
      ensures this.state == Stopped
      ensures this.token == token
    {
      this.admins := AdminsOrEmpty(admins);
      this.bot := None;
      this.loop := None;
      this.state := Stopped;
      this.token := token;
    }

    /**
     * The state guard: `action(args)` is run and its result returned when the
     * handler is in the `required` state; otherwise `InvalidHandlerState(required)`
     * is raised and the action is not run. The guard only reads the handler.
     * (In the source the guard is wrapped by `functools.wraps` without
     * arguments and by `utils.decorator`; that wrapping is not modelled.)
     */
    function RunWhenInState<A, T>(required: State, action: A -> T, args: A): (r: Result<T, HandlerError>)
      reads this
      ensures r.Failure? <==> state != required
      ensures r.Failure? ==> r.error == InvalidHandlerState(required)
      ensures r.Success? ==> r.value == action(args)
    {
      if StateName(state) != StateName(required) then
        Failure(InvalidHandlerState(required))
      else
        StateNamesDistinct(state, required);
        Success(action(args))
    }

    /** The message handler: it does nothing with any message. */
    method HandleMessage<M>(msg: M)
      ensures unchanged(this)
    {
    }
  }

  /**
   * A freshly constructed handler refuses every action that must run in the
   * started state, with the message naming that state.
   */
  method FreshHandlerRefusesStartedActions<A, T>(token: string, admins: Option<seq<string>>, action: A -> T, args: A)
    returns (r: Result<T, HandlerError>)
    ensures r == Failure(InvalidHandlerState(Started))
    ensures r.error.Message() == "This action should be run in 'started' state"
  {
    var h := new Handler(token, admins);
    r := h.RunWhenInState(Started, action, args);
  }
}
