/**
 * The SDL2 game window's input adapter as a pure state machine. Native
 * callbacks translate events into messages and append them to a FIFO queue;
 * the pump runs the callbacks, refreshes the cursor cache from the input
 * snapshot, and then either stops (the window is closing) or drains the queue
 * to the listener.
 */
module GameWindow {
  import opened Wrappers
  import opened Messages
  import N = Native

  /** What the window raises to its observers, in the order it raises them. */
  datatype Notification = ClientSizeChanged | InputMessageReceived(message: Message)

  /** The adapter's own state: pending messages, the sticky closing flag and the cursor cache. */
  datatype WindowState = WindowState(queue: seq<Message>, closing: bool, lastMouseX: int, lastMouseY: int)

  /** A freshly constructed adapter: every field at its default value. */
  const Initial := WindowState([], false, 0, 0)

  /** The state after one callback and the notifications that callback raised. */
  datatype Step = Step(state: WindowState, raised: seq<Notification>)

  /** What one pump returns (continue or stop), what it raised, and the state it leaves. */
  datatype PumpResult = PumpResult(proceed: bool, raised: seq<Notification>, state: WindowState)

  /** One call of the pump as the caller sees it: the events the native layer delivers and its snapshot. */
  datatype Batch = Batch(events: seq<N.NativeEvent>, snapshot: N.InputSnapshot)

  // ---------------------------------------------------------------------------
  // Client bounds

  /** The client area: the window's size, anchored at the origin. */
  function ClientBounds(window: N.Rectangle): (r: N.Rectangle)
    ensures r.x == 0 && r.y == 0
    ensures r.width == window.width && r.height == window.height
  {
    N.Rectangle(0, 0, window.width, window.height)
  }

  // ---------------------------------------------------------------------------
  // Callbacks

  /** The message kind a button press maps to; no kind for buttons other than the three main ones. */
  function DownKind(b: N.MouseButton): (r: Option<MessageKind>)
    ensures r.Some? <==> !b.Extra?
    ensures r.Some? ==> IsButtonDown(r.value)
  {
    match b
    case Left => Some(MouseLeftButtonDown)
    case Middle => Some(MouseMiddleButtonDown)
    case Right => Some(MouseRightButtonDown)
    case Extra(_) => None
  }

  /** The message kind a button release maps to; no kind for buttons other than the three main ones. */
  function UpKind(b: N.MouseButton): (r: Option<MessageKind>)
    ensures r.Some? <==> !b.Extra?
    ensures r.Some? ==> IsButtonUp(r.value)
  {
    match b
    case Left => Some(MouseLeftButtonUp)
    case Middle => Some(MouseMiddleButtonUp)
    case Right => Some(MouseRightButtonUp)
    case Extra(_) => None
  }

  /** The integer argument of a wheel message: the delta scaled by 100, with the fraction cut off toward zero. */
  function WheelArgument(delta: real): (r: int)
    ensures 0.0 <= delta ==> 0 <= r && r as real <= delta * 100.0 < r as real + 1.0
    ensures delta < 0.0 ==> r <= 0 && r as real - 1.0 < delta * 100.0 <= r as real
  {
    N.Truncate(delta * 100.0)
  }

  function Enqueue(s: WindowState, m: Message): WindowState {
    s.(queue := s.queue + [m])
  }

  /** Sets the closing flag and touches nothing else. */
  function HandleClosing(s: WindowState): (r: WindowState)
    ensures r.closing
    ensures r.queue == s.queue && r.lastMouseX == s.lastMouseX && r.lastMouseY == s.lastMouseY
  {
    s.(closing := true)
  }

  /** Raises the size-changed notification; no message is queued and the state is unchanged. */
  function HandleResized(s: WindowState): (r: Step)
    ensures r.state == s
    ensures r.raised == [ClientSizeChanged]
  {
    Step(s, [ClientSizeChanged])
  }

  /** Appends one key-down message carrying the key code, and changes nothing else. */
  function HandleKeyDown(s: WindowState, key: int): (r: WindowState)
    ensures |r.queue| == |s.queue| + 1 && r.queue[..|s.queue|] == s.queue
    ensures r.queue[|s.queue|] == Message(KeyDown, [IntegerArgument(key)])
    ensures r.closing == s.closing && r.lastMouseX == s.lastMouseX && r.lastMouseY == s.lastMouseY
  {
    Enqueue(s, Message(KeyDown, [IntegerArgument(key)]))
  }

  /** Appends one key-up message carrying the key code, and changes nothing else. */
  function HandleKeyUp(s: WindowState, key: int): (r: WindowState)
    ensures |r.queue| == |s.queue| + 1 && r.queue[..|s.queue|] == s.queue
    ensures r.queue[|s.queue|] == Message(KeyUp, [IntegerArgument(key)])
    ensures r.closing == s.closing && r.lastMouseX == s.lastMouseX && r.lastMouseY == s.lastMouseY
  {
    Enqueue(s, Message(KeyUp, [IntegerArgument(key)]))
  }

  /**
   * A press of one of the three main buttons appends a button-down message
   * positioned at the CACHED cursor; any other button leaves the state as it is.
   */
  function HandleMouseDown(s: WindowState, b: N.MouseButton): (r: WindowState)
    ensures b.Extra? ==> r == s
    ensures !b.Extra? ==>
      && |r.queue| == |s.queue| + 1 && r.queue[..|s.queue|] == s.queue
      && IsButtonDown(r.queue[|s.queue|].kind)
      && r.queue[|s.queue|].args == [ScreenPositionArgument(s.lastMouseX, s.lastMouseY)]
    ensures r.closing == s.closing && r.lastMouseX == s.lastMouseX && r.lastMouseY == s.lastMouseY
  {
    match DownKind(b)
    case None => s
    case Some(kind) => Enqueue(s, Message(kind, [ScreenPositionArgument(s.lastMouseX, s.lastMouseY)]))
  }

  /**
   * A release of one of the three main buttons appends a button-up message
   * positioned at the CACHED cursor; any other button leaves the state as it is.
   */
  function HandleMouseUp(s: WindowState, b: N.MouseButton): (r: WindowState)
    ensures b.Extra? ==> r == s
    ensures !b.Extra? ==>
      && |r.queue| == |s.queue| + 1 && r.queue[..|s.queue|] == s.queue
      && IsButtonUp(r.queue[|s.queue|].kind)
      && r.queue[|s.queue|].args == [ScreenPositionArgument(s.lastMouseX, s.lastMouseY)]
    ensures r.closing == s.closing && r.lastMouseX == s.lastMouseX && r.lastMouseY == s.lastMouseY
  {
    match UpKind(b)
    case None => s
    case Some(kind) => Enqueue(s, Message(kind, [ScreenPositionArgument(s.lastMouseX, s.lastMouseY)]))
  }

  /** Appends one move message at the event's own position; the cursor cache is left alone. */
  function HandleMouseMove(s: WindowState, x: int, y: int): (r: WindowState)
    ensures |r.queue| == |s.queue| + 1 && r.queue[..|s.queue|] == s.queue
    ensures r.queue[|s.queue|] == Message(MouseMove, [ScreenPositionArgument(x, y)])
    ensures r.closing == s.closing && r.lastMouseX == s.lastMouseX && r.lastMouseY == s.lastMouseY
  {
    Enqueue(s, Message(MouseMove, [ScreenPositionArgument(x, y)]))
  }

  /** Appends one wheel message carrying the scaled delta. */
  function HandleMouseWheel(s: WindowState, delta: real): (r: WindowState)
    ensures |r.queue| == |s.queue| + 1 && r.queue[..|s.queue|] == s.queue
    ensures r.queue[|s.queue|].kind == MouseWheel
    ensures r.queue[|s.queue|].args == [IntegerArgument(WheelArgument(delta))]
    ensures r.closing == s.closing && r.lastMouseX == s.lastMouseX && r.lastMouseY == s.lastMouseY
  {
    Enqueue(s, Message(MouseWheel, [IntegerArgument(WheelArgument(delta))]))
  }

  /** Runs the callback registered for one native event. */
  function Handle(s: WindowState, ev: N.NativeEvent): (r: Step)
    ensures r.state.lastMouseX == s.lastMouseX && r.state.lastMouseY == s.lastMouseY
    ensures r.state.closing == (s.closing || ev.Closing?)
    ensures ev.Resized? ==> r.raised == [ClientSizeChanged]
    ensures !ev.Resized? ==> r.raised == []
  {
    match ev
    case KeyDown(key) => Step(HandleKeyDown(s, key), [])
    case KeyUp(key) => Step(HandleKeyUp(s, key), [])
    case MouseDown(b) => Step(HandleMouseDown(s, b), [])
    case MouseUp(b) => Step(HandleMouseUp(s, b), [])
    case MouseMove(x, y) => Step(HandleMouseMove(s, x, y), [])
    case MouseWheel(delta) => Step(HandleMouseWheel(s, delta), [])
    case Resized => HandleResized(s)
    case Closing => Step(HandleClosing(s), [])
  }

  // ---------------------------------------------------------------------------
  // Native delivery and the pump

  function CountResized(evs: seq<N.NativeEvent>): (n: nat)
    ensures n <= |evs|
  {
    if |evs| == 0 then 0 else (if evs[0].Resized? then 1 else 0) + CountResized(evs[1..])
  }

  /**
   * The native layer running the callbacks for `evs`, first to last. The
   * cursor cache is never written here, the closing flag is only ever set,
   * and the only notifications raised are one size change per resize.
   */
  function Deliver(s: WindowState, evs: seq<N.NativeEvent>): (r: Step)
    ensures r.state.lastMouseX == s.lastMouseX && r.state.lastMouseY == s.lastMouseY
    ensures r.state.closing == (s.closing || N.Closing in evs)
    ensures |r.raised| == CountResized(evs)
    ensures forall i :: 0 <= i < |r.raised| ==> r.raised[i] == ClientSizeChanged
    decreases |evs|
  {
    if |evs| == 0 then Step(s, [])
    else
      var h := Handle(s, evs[0]);
      var t := Deliver(h.state, evs[1..]);
      assert evs == [evs[0]] + evs[1..];
      Step(t.state, h.raised + t.raised)
  }

  /** The listener notifications for draining `q`, one per message, front first. */
  function Received(q: seq<Message>): (r: seq<Notification>)
    ensures |r| == |q|
    ensures forall i :: 0 <= i < |q| ==> r[i] == InputMessageReceived(q[i])
  {
    if |q| == 0 then [] else [InputMessageReceived(q[0])] + Received(q[1..])
  }

  /**
   * One `PumpEvents` call: deliver the native events, refresh the cursor
   * cache from the snapshot, then stop if closing or else drain the queue.
   */
  function Pump(s: WindowState, b: Batch): (r: PumpResult)
    ensures r.state.lastMouseX == N.Truncate(b.snapshot.mouseX)
    ensures r.state.lastMouseY == N.Truncate(b.snapshot.mouseY)
    ensures r.state.closing == (s.closing || N.Closing in b.events)
    ensures r.proceed <==> !r.state.closing
    ensures r.proceed ==> r.state.queue == []
    ensures !r.proceed ==> r.state.queue == Deliver(s, b.events).state.queue
    ensures !r.proceed ==> forall i :: 0 <= i < |r.raised| ==> r.raised[i] == ClientSizeChanged
  {
    var d := Deliver(s, b.events);
    var cached := d.state.(lastMouseX := N.Truncate(b.snapshot.mouseX), lastMouseY := N.Truncate(b.snapshot.mouseY));
    if cached.closing then PumpResult(false, d.raised, cached)
    else PumpResult(true, d.raised + Received(cached.queue), cached.(queue := []))
  }

  /** The native pump: runs the callbacks one by one, in delivery order. */
  method RunCallbacks(s: WindowState, evs: seq<N.NativeEvent>) returns (state: WindowState, raised: seq<Notification>)
    ensures Step(state, raised) == Deliver(s, evs)
  {
    state := s;
    raised := [];
    var i := 0;
    while i < |evs|
      invariant 0 <= i <= |evs|
      invariant Deliver(s, evs) == Step(Deliver(state, evs[i..]).state, raised + Deliver(state, evs[i..]).raised)
    {
      assert evs[i..][1..] == evs[i + 1..];
      var h := Handle(state, evs[i]);
      ghost var rest := Deliver(h.state, evs[i + 1..]);
      assert raised + (h.raised + rest.raised) == (raised + h.raised) + rest.raised;
      state := h.state;
      raised := raised + h.raised;
      i := i + 1;
    }
    assert evs[i..] == [];
  }

  /** The drain loop: dequeue and raise until the queue is empty. */
  method Drain(s: WindowState) returns (raised: seq<Notification>, state: WindowState)
    ensures raised == Received(s.queue)
    ensures state == s.(queue := [])
  {
    raised := [];
    state := s;
    ghost var taken := 0;
    while |state.queue| > 0
      invariant 0 <= taken <= |s.queue|
      invariant state.queue == s.queue[taken..]
      invariant raised == Received(s.queue[..taken])
      invariant state.closing == s.closing && state.lastMouseX == s.lastMouseX && state.lastMouseY == s.lastMouseY
      decreases |state.queue|
    {
      raised := raised + [InputMessageReceived(state.queue[0])];
      state := state.(queue := state.queue[1..]);
      taken := taken + 1;
    }
    assert s.queue[..taken] == s.queue;
  }

  /**
   * `PumpEvents` written as the source writes it: run the callbacks, update
   * the cache, return early when closing, and otherwise drain the queue.
   */
  method PumpEvents(s: WindowState, b: Batch) returns (proceed: bool, raised: seq<Notification>, state: WindowState)
    ensures PumpResult(proceed, raised, state) == Pump(s, b)
  {
    state, raised := RunCallbacks(s, b.events);
    state := state.(lastMouseX := N.Truncate(b.snapshot.mouseX), lastMouseY := N.Truncate(b.snapshot.mouseY));
    if state.closing {
      return false, raised, state;
    }
    var delivered;
    delivered, state := Drain(state);
    raised := raised + delivered;
    proceed := true;
  }

  /** Consecutive pumps, one per batch; the continue/stop answer of each and the final state. */
  function Run(s: WindowState, batches: seq<Batch>): (r: (seq<bool>, WindowState))
    ensures |r.0| == |batches|
    decreases |batches|
  {
    if |batches| == 0 then ([], s)
    else
      var p := Pump(s, batches[0]);
      var rest := Run(p.state, batches[1..]);
      ([p.proceed] + rest.0, rest.1)
  }
}
