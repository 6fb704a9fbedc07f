/**
 * The framework value types the switch message and the handler exchange:
 * the on/off and open/closed state types, commands delivered to a channel,
 * and the unchecked Java exceptions that escape the modelled code.
 */
module Types {
  import opened Wrappers

  datatype OnOff = ON | OFF
  datatype OpenClosed = OPEN | CLOSED

  /** A framework `Type` value: an on/off state, an open/closed state, or any other type known only by its full string. */
  datatype TypeValue =
    | OnOffType(onOff: OnOff)
    | OpenClosedType(openClosed: OpenClosed)
    | OtherType(text: string)

  /** A command delivered to a channel: the refresh request, or a typed value. */
  datatype Command = RefreshCommand | ValueCommand(value: TypeValue)

  /** Unchecked exceptions that are not caught by the handler. */
  datatype Failure = IllegalArgument | NullPointer

  function OnOffName(o: OnOff): string
  {
    match o
    case ON => "ON"
    case OFF => "OFF"
  }

  function OpenClosedName(c: OpenClosed): string
  {
    match c
    case OPEN => "OPEN"
    case CLOSED => "CLOSED"
  }

  /** `toFullString()` of a type value. */
  function FullString(t: TypeValue): string
  {
    match t
    case OnOffType(o) => OnOffName(o)
    case OpenClosedType(c) => OpenClosedName(c)
    case OtherType(s) => s
  }

  /** `toFullString()` of a command; the refresh command prints as REFRESH. */
  function CommandFullString(c: Command): string
  {
    match c
    case RefreshCommand => "REFRESH"
    case ValueCommand(v) => FullString(v)
  }

  /**
   * `OnOffType.valueOf(name)`: the constant whose name is exactly `name`;
   * any other name raises (None here).
   */
  function OnOffValueOf(name: string): (r: Option<OnOff>)
    ensures forall o: OnOff :: r == Some(o) <==> OnOffName(o) == name
    ensures r.None? <==> name != "ON" && name != "OFF"
  {
    if name == "ON" then Some(ON)
    else if name == "OFF" then Some(OFF)
    else None
  }
}
