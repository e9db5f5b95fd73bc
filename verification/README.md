# SDL2 game window input adapter

A Dafny model of the input side of OpenSAGE's `Sdl2GameWindow`. This is the adapter that turns the
native window library's callbacks into the engine's input messages and hands them to the game, one
pump per frame.

The adapter keeps three pieces of state: a FIFO queue of pending messages, a sticky `closing` flag, and a
cached cursor position `(lastMouseX, lastMouseY)`. In the model these are an immutable
`WindowState` record, and every callback and the pump are pure functions:

- `Native` holds what the native layer supplies. Input events become a `NativeEvent` datatype, one per
  callback invocation. The input snapshot (a real-valued pointer position) and the window rectangle are
  plain values. The float-to-int cast is `Truncate`, which rounds toward zero.
- `Messages` defines the engine's message: a kind plus a list of typed arguments. It also states the
  per-kind argument convention (`WellFormed`).
- `GameWindow` holds the callbacks (`HandleKeyDown` … `HandleClosing`) and their dispatcher `Handle`.
  It also has the native delivery `Deliver`, the pump `Pump`, and `PumpEvents`. `PumpEvents` is the
  pump written as the source writes it: callbacks, then the cache update, then the early stop, then the
  drain loop.
- `WindowProperties` gives an independent translation table (`Translate`, `Translations`) and proves
  the adapter against it. It proves FIFO delivery, stop-while-closing, stickiness of the closing flag,
  the argument convention, and the one-pump cursor lag.

The cursor lag is the source's own documented behaviour, and it is modelled as written. Button callbacks
run inside the native pump and read the cursor cache. The cache is refreshed only after that pump
returns. So a button message carries the position from the previous pump's snapshot.
`ButtonPositionLagsOnePump` proves this, and `ClickAfterMoveReportsStalePosition` shows it on a
concrete move-then-click.

Notifications are modelled as a sequence of `Notification` values in the order they are raised. A resize
raises `ClientSizeChanged` right away, during native delivery, so it comes before any message the same
pump delivers. It is raised even while the window is closing. Queued messages are raised as
`InputMessageReceived` only in the drain step.

The wheel argument follows the code, `(int)(delta * 100)`. That is truncation toward zero, not rounding
to the nearest integer.

## Model

| member | source | states |
|---|---|---|
| Native.Truncate | src/OpenSage.Platform/Sdl2GameWindow.cs:170-171 | the int cast of a float drops the fraction toward zero: for non-negative v, r <= v < r+1; for negative v, r-1 < v <= r |
| GameWindow.ClientBounds | src/OpenSage.Platform/Sdl2GameWindow.cs:21-28 | client bounds have origin (0,0) and the window's width and height |
| GameWindow.DownKind | src/OpenSage.Platform/Sdl2GameWindow.cs:91-104 | a press maps to a button-down kind exactly for Left, Middle and Right; other buttons map to nothing |
| GameWindow.UpKind | src/OpenSage.Platform/Sdl2GameWindow.cs:119-132 | a release maps to a button-up kind exactly for Left, Middle and Right; other buttons map to nothing |
| GameWindow.WheelArgument | src/OpenSage.Platform/Sdl2GameWindow.cs:155 | the wheel argument is delta*100 truncated toward zero (bounded within 1 of it, same sign) |
| GameWindow.HandleClosing | src/OpenSage.Platform/Sdl2GameWindow.cs:65-68 | the close request sets the closing flag; queue and cursor cache are untouched |
| GameWindow.HandleResized | src/OpenSage.Platform/Sdl2GameWindow.cs:70-73 | a resize raises exactly one size-changed notification and leaves the state (queue included) unchanged |
| GameWindow.HandleKeyDown | src/OpenSage.Platform/Sdl2GameWindow.cs:75-80 | key down appends exactly one KeyDown message with the key code as its only integer argument at the tail; nothing else changes |
| GameWindow.HandleKeyUp | src/OpenSage.Platform/Sdl2GameWindow.cs:82-87 | key up appends exactly one KeyUp message with the key code as its only integer argument at the tail; nothing else changes |
| GameWindow.HandleMouseDown | src/OpenSage.Platform/Sdl2GameWindow.cs:89-115 | a main-button press appends one button-down message positioned at the cached cursor; any other button leaves the whole state unchanged |
| GameWindow.HandleMouseUp | src/OpenSage.Platform/Sdl2GameWindow.cs:117-143 | a main-button release appends one button-up message positioned at the cached cursor; any other button leaves the whole state unchanged |
| GameWindow.HandleMouseMove | src/OpenSage.Platform/Sdl2GameWindow.cs:145-150 | a move appends one MouseMove message at the event's own coordinates and does not touch the cursor cache |
| GameWindow.HandleMouseWheel | src/OpenSage.Platform/Sdl2GameWindow.cs:152-157 | a wheel event appends exactly one MouseWheel message carrying the scaled delta |
| GameWindow.Handle | src/OpenSage.Platform/Sdl2GameWindow.cs:50-63 | each registered callback keeps the cursor cache, only ever sets the closing flag, and raises a notification only for a resize |
| GameWindow.Deliver | src/OpenSage.Platform/Sdl2GameWindow.cs:167 | running the callbacks never writes the cursor cache; closing becomes set exactly when it was set or a close request was delivered; one size change is raised per resize |
| GameWindow.Received | src/OpenSage.Platform/Sdl2GameWindow.cs:178-181 | draining raises one notification per queued message, front first |
| GameWindow.Pump | src/OpenSage.Platform/Sdl2GameWindow.cs:164-184 | the cache takes the snapshot; the pump continues exactly when not closing; continuing empties the queue; stopping keeps this delivery's queue and raises no message |
| GameWindow.RunCallbacks | src/OpenSage.Platform/Sdl2GameWindow.cs:167 | running callbacks one at a time in a loop gives the same state and notifications as the delivery function |
| GameWindow.Drain | src/OpenSage.Platform/Sdl2GameWindow.cs:178-181 | the dequeue-until-empty loop raises the queue's messages in FIFO order and leaves the queue empty, other fields unchanged |
| GameWindow.PumpEvents | src/OpenSage.Platform/Sdl2GameWindow.cs:164-184 | the step-by-step pump (callbacks, cache update, early stop, drain loop) agrees with the pump function |
| WindowProperties.Translate | src/OpenSage.Platform/Sdl2GameWindow.cs:75-157 | the event-to-message table is total; exactly resizes, close requests and extra buttons yield no message; every message has one argument of its kind's type |
| WindowProperties.Translations | src/OpenSage.Platform/Sdl2GameWindow.cs:15 | the messages of an event run number at most the events and all respect the argument convention |
| WindowProperties.HandleAppendsTranslation | src/OpenSage.Platform/Sdl2GameWindow.cs:75-157 | every callback appends exactly the table's message for its event, seen with the cached cursor, at the queue's tail |
| WindowProperties.ButtonKindsDistinct | src/OpenSage.Platform/Sdl2GameWindow.cs:89-143 | Left, Middle and Right map to three distinct press kinds and three distinct release kinds, and no press kind equals a release kind |
| WindowProperties.ExtraButtonIgnored | src/OpenSage.Platform/Sdl2GameWindow.cs:101-110 | a press or release of any other button changes nothing and raises nothing |
| WindowProperties.TranslationsAppend | src/OpenSage.Platform/Sdl2GameWindow.cs:15 | translating two event runs back to back is translating each in turn, in order |
| WindowProperties.DeliverAppendsTranslations | src/OpenSage.Platform/Sdl2GameWindow.cs:167 | after delivery the queue is the old queue followed by the events' messages in event order, buttons using the cache from before delivery |
| WindowProperties.DeliverCompose | src/OpenSage.Platform/Sdl2GameWindow.cs:167 | delivering a+b equals delivering a then b, with notifications concatenated in order |
| WindowProperties.ButtonsCarryCursor | src/OpenSage.Platform/Sdl2GameWindow.cs:113 | every button message of a run carries the cursor position it was translated with, never an event's own coordinates |
| WindowProperties.PumpDeliversInOrder | src/OpenSage.Platform/Sdl2GameWindow.cs:178-183 | when not closing, the pump returns true, raises this delivery's size changes, then all queued messages in FIFO order (old first), and leaves the queue empty |
| WindowProperties.PumpWhileClosing | src/OpenSage.Platform/Sdl2GameWindow.cs:167-176 | while closing, the pump returns false, delivers no message, keeps the queue including this call's messages, and still updates the cursor cache |
| WindowProperties.PumpKeepsMessagesWellFormed | src/OpenSage.Platform/Sdl2GameWindow.cs:75-157 | the per-kind argument convention holds for every queued and every delivered message, across callbacks and pumps |
| WindowProperties.ButtonPositionLagsOnePump | src/OpenSage.Platform/Sdl2GameWindow.cs:167-171 | a button message delivered by a pump carries the previous pump's snapshot position, whatever the current snapshot |
| WindowProperties.ClickAfterMoveReportsStalePosition | src/OpenSage.Platform/Sdl2GameWindow.cs:145-171 | a move to (100,50) then a left press in one pump delivers the move at (100,50) and the press at the old cached position; the cache then becomes (100,50) |
| WindowProperties.KeyPressDelivered | src/OpenSage.Platform/Sdl2GameWindow.cs:75-80 | on a fresh window, a key-down of code 65 followed by a pump delivers exactly one KeyDown message with argument 65 |
| WindowProperties.ClosingIsFinal | src/OpenSage.Platform/Sdl2GameWindow.cs:173-176 | once closing is set, every later pump returns false and the flag stays set |
| WindowProperties.StopIsNeverFollowedByContinue | src/OpenSage.Platform/Sdl2GameWindow.cs:17 | after a pump returns false, no later pump returns true: closing is never cleared |
| WindowProperties.ClientBoundsIgnoresPosition | src/OpenSage.Platform/Sdl2GameWindow.cs:21-28 | two windows of the same size have the same client bounds, wherever they sit |
| WindowProperties.ClientBoundsFixedAtOrigin | src/OpenSage.Platform/Sdl2GameWindow.cs:21-28 | a rectangle equals its client bounds exactly when it is at the origin; client bounds are idempotent |

## Left out

- src/OpenSage.Mods.Generals/GeneralsZeroHourDefinition.cs is not part of this model. It is a record of constant strings, an enum value, a type handle and three registry paths. It has no behaviour, and the install-path lookup that reads it is not visible.
- Window construction, callback registration against the native library, `IsMouseVisible`, `NativeWindowHandle` and `Dispose` are not modelled. They are calls into the native library, whose behaviour is not visible. Native delivery is an input sequence of events plus a snapshot.
- `SetCursor` is not modelled. Its body is empty, so it has no effect to state.
- The listeners behind `RaiseClientSizeChanged` and `RaiseInputMessageReceived` belong to the unseen `GameWindow` base. Their effects are not modelled. The model records only the order in which notifications are raised.
- GameWindow.WheelArgument: the product delta*100 is exact real arithmetic. Single-precision rounding of the product is not modelled.
- Native.Truncate: a 32-bit cast of an out-of-range float is not modelled. The result is an unbounded integer.
- The key code `(int) evt.Key` is an opaque integer. The numbering of the native key enumeration is not modelled.
