/**
 * The engine's input messages: a message kind together with a list of typed
 * arguments. The list's shape is fixed per kind only by convention; the
 * predicate `WellFormed` writes that convention down.
 */
module Messages {

  datatype MessageKind =
    | KeyDown
    | KeyUp
    | MouseLeftButtonDown
    | MouseMiddleButtonDown
    | MouseRightButtonDown
    | MouseLeftButtonUp
    | MouseMiddleButtonUp
    | MouseRightButtonUp
    | MouseMove
    | MouseWheel

  datatype Argument = IntegerArgument(value: int) | ScreenPositionArgument(x: int, y: int)

  datatype Message = Message(kind: MessageKind, args: seq<Argument>)

  predicate IsButtonDown(k: MessageKind) {
    k.MouseLeftButtonDown? || k.MouseMiddleButtonDown? || k.MouseRightButtonDown?
  }

  predicate IsButtonUp(k: MessageKind) {
    k.MouseLeftButtonUp? || k.MouseMiddleButtonUp? || k.MouseRightButtonUp?
  }

  predicate IsButton(k: MessageKind) {
    IsButtonDown(k) || IsButtonUp(k)
  }

  /** Kinds whose single argument is an integer; every other kind carries a screen position. */
  predicate CarriesInteger(k: MessageKind) {
    k.KeyDown? || k.KeyUp? || k.MouseWheel?
  }

  /** The argument convention: exactly one argument, of the type its kind expects. */
  predicate WellFormed(m: Message) {
    && |m.args| == 1
    && (if CarriesInteger(m.kind) then m.args[0].IntegerArgument? else m.args[0].ScreenPositionArgument?)
  }

  predicate AllWellFormed(q: seq<Message>) {
    forall i :: 0 <= i < |q| ==> WellFormed(q[i])
  }
}
