# AnPoll bot handler: lifecycle gate

A Dafny model of the lifecycle gate of the AnPoll Telegram bot's `Handler`
class (`bot/handler.py`). The handler is in one of two states, `"started"`
or `"stopped"`, and starts out stopped. A guard runs a wrapped action only
when the handler is in the state the action requires. Otherwise it raises
`InvalidHandlerState`, whose message names the required state.

Files:

- `wrappers.dfy`: `Option` (Python's `None` or a value) and `Result`
  (a returned value or a raised exception).
- `str_format.dfy`: the part of Python's `str.format` the exception message
  uses. A template's `{0}` fields are replaced by one string argument.
- `handler.dfy`: the `State` datatype and its names, the `HandlerError`
  datatype for `InvalidHandlerState` and its message, and the `Handler`
  class with its constructor, the guard `RunWhenInState` and the no-op
  `HandleMessage`.

The source compares the state strings `"started"` and `"stopped"`. The model
uses a two-constructor datatype instead. `StateName` maps each state to the
source's string, and `Handler.StateNamesDistinct` proves that comparing the
names is the same as comparing the states. The guard itself compares the
names, as the source does.

The guard is pure: it reads the handler's state and either returns the
action's result or the exception. It is a class function with `reads this`,
so it cannot change any field. The wrapped action is a total function
applied to its arguments.

## Model

| member | source | states |
|---|---|---|
| `StrFormat.FormatOneField` | bot/handler.py:12-14 | Formatting a template made of literal text around a single `{0}` field gives that text with the argument in place of the field. |
| `StrFormat.FormatLiteral` | bot/handler.py:13 | Text without a replacement field formats to itself. |
| `Handler.HandlerError.Message` | bot/handler.py:10-14 | The `InvalidHandlerState` message is exactly `This action should be run in '<state>' state`, with the required state's name substituted. |
| `Handler.MessageNamesRequiredState` | bot/handler.py:11-14 | The state named between the quotes of the message is exactly the required state, so the message can be read back. |
| `Handler.MessageDeterminesState` | bot/handler.py:11-14 | Two `InvalidHandlerState` exceptions have the same message if and only if they require the same state. |
| `Handler.StateNamed` | bot/handler.py:24-25 | Reading a state from a string gives only a state whose name is that string. |
| `Handler.StateNameRoundTrip` | bot/handler.py:24-25 | Reading back the name of a state gives that state. |
| `Handler.StateNamesDistinct` | bot/handler.py:24-25 | The names `"started"` and `"stopped"` differ, so comparing names is the same as comparing states. |
| `Handler.AdminsOrEmpty` | bot/handler.py:30 | `admins or []` is the empty list exactly when no admins or the empty list is given, and is the given list when that is non-empty. |
| `Handler.Handler.constructor` | bot/handler.py:28-34 | A new handler is stopped, stores the token unchanged, has `admins` as `admins or []`, and has neither a bot nor a loop. |
| `Handler.Handler.RunWhenInState` | bot/handler.py:37-47 | The guard fails exactly when the state differs from the required one. It then fails with `InvalidHandlerState(required)` whatever the action. Otherwise it returns the action's result. It changes no field. |
| `Handler.Handler.HandleMessage` | bot/handler.py:49-52 | Handling any message changes nothing. |
| `Handler.FreshHandlerRefusesStartedActions` | bot/handler.py:28-47 | On a freshly constructed handler, any action that requires the started state fails with `InvalidHandlerState(started)` and the message `This action should be run in 'started' state`. |

## Left out

- `Handler.run` (bot/handler.py:54-58) creates a `telepot.Bot` and starts its network message loop. This is foreign I/O. `bot` and `loop` are kept as optional opaque handles, so the model can state that both are absent after construction.
- `bot/utils.py` (`_decorator`, `decorator`) is Python descriptor plumbing with no behaviour of its own. The guard is modelled as the check it performs, not as a decorator.
- The `functools.wraps` calls without arguments (bot/handler.py:38, 40) are not modelled. As written they would not produce a working wrapper. The model states the check those lines evidently intend.
- `bot/bot.py` (argument parsing, reading the token file, `sys.exit`) is process glue.
- `Handler.Handler.RunWhenInState`: the required state is one of the two states. In the source it is any string, and a string that is neither name makes every call fail. The wrapped action's side effects are not modelled: it is a pure function, so "not run" is stated as the failure being the same whatever the action.
- `Handler.Handler.constructor`: `admins` is `None` or a list of strings. Other Python values and their truthiness are not modelled, and neither is the aliasing between the given list and the stored one.
- `StrFormat.FormatOneField`: only the positional field `{0}` is modelled. Other `str.format` syntax (`{{`, `}}`, named fields, format specifications) and its errors are not, because the message template uses none of it.
- The action names `start` and `stop` (bot/handler.py:20-21) are declared as constants only. The source has no start or stop transition, command dispatch, lock table or membership sets, so the model has none either.
