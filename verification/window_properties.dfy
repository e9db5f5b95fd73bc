/**
 * Properties of the SDL2 window adapter, stated against an independent
 * translation table: which message (if any) each native event yields, given
 * the cursor position the callback sees.
 */
module WindowProperties {
  import opened Wrappers
  import opened Messages
  import N = Native
  import opened GameWindow

  /**
   * The translation table. Exactly the resize, the close request and the
   * extra mouse buttons yield nothing; every message yielded respects the
   * argument convention.
   */
  function Translate(ev: N.NativeEvent, cursorX: int, cursorY: int): (r: Option<Message>)
    ensures r.None? <==> (ev.Resized? || ev.Closing? || ((ev.MouseDown? || ev.MouseUp?) && ev.button.Extra?))
    ensures r.Some? ==> WellFormed(r.value)
  {
    match ev
    case KeyDown(key) => Some(Message(MessageKind.KeyDown, [IntegerArgument(key)]))
    case KeyUp(key) => Some(Message(MessageKind.KeyUp, [IntegerArgument(key)]))
    case MouseDown(b) =>
      (match DownKind(b)
       case None => None
       case Some(kind) => Some(Message(kind, [ScreenPositionArgument(cursorX, cursorY)])))
    case MouseUp(b) =>
      (match UpKind(b)
       case None => None
       case Some(kind) => Some(Message(kind, [ScreenPositionArgument(cursorX, cursorY)])))
    case MouseMove(x, y) => Some(Message(MessageKind.MouseMove, [ScreenPositionArgument(x, y)]))
    case MouseWheel(delta) => Some(Message(MessageKind.MouseWheel, [IntegerArgument(WheelArgument(delta))]))
    case Resized => None
    case Closing => None
  }

  /** The messages a run of events yields, in event order, all seen with the same cursor. */
  function Translations(evs: seq<N.NativeEvent>, cursorX: int, cursorY: int): (r: seq<Message>)
    ensures |r| <= |evs|
    ensures AllWellFormed(r)
    decreases |evs|
  {
    if |evs| == 0 then []
    else ToSeq(Translate(evs[0], cursorX, cursorY)) + Translations(evs[1..], cursorX, cursorY)
  }

  // ---------------------------------------------------------------------------
  // One callback

  /** Each callback appends exactly the table's message, seen with the cached cursor, to the tail of the queue. */
  lemma HandleAppendsTranslation(s: WindowState, ev: N.NativeEvent)
    ensures Handle(s, ev).state.queue == s.queue + ToSeq(Translate(ev, s.lastMouseX, s.lastMouseY))
  {
  }

  /** Main buttons map to three distinct press kinds and three distinct release kinds, never shared. */
  lemma ButtonKindsDistinct(b1: N.MouseButton, b2: N.MouseButton)
    requires !b1.Extra? && !b2.Extra?
    ensures DownKind(b1) == DownKind(b2) <==> b1 == b2
    ensures UpKind(b1) == UpKind(b2) <==> b1 == b2
    ensures DownKind(b1) != UpKind(b2)
  {
  }

  /** An unknown button press or release changes nothing and raises nothing. */
  lemma ExtraButtonIgnored(s: WindowState, i: nat)
    ensures Handle(s, N.MouseDown(N.Extra(i))) == Step(s, [])
    ensures Handle(s, N.MouseUp(N.Extra(i))) == Step(s, [])
  {
  }

  // ---------------------------------------------------------------------------
  // A run of callbacks

  /** Translation distributes over concatenation of event runs: order is kept across the seam. */
  lemma {:induction false} TranslationsAppend(a: seq<N.NativeEvent>, b: seq<N.NativeEvent>, x: int, y: int)
    ensures Translations(a + b, x, y) == Translations(a, x, y) + Translations(b, x, y)
    decreases |a|
  {
    if |a| == 0 {
      assert a + b == b;
    } else {
      assert (a + b)[1..] == a[1..] + b;
      TranslationsAppend(a[1..], b, x, y);
    }
  }

  /**
   * FIFO: after the native layer runs the callbacks for `evs`, the queue is
   * the old queue followed by the events' messages in event order, and every
   * button message carries the cursor cached BEFORE the run.
   */
  lemma {:induction false} DeliverAppendsTranslations(s: WindowState, evs: seq<N.NativeEvent>)
    ensures Deliver(s, evs).state.queue == s.queue + Translations(evs, s.lastMouseX, s.lastMouseY)
    decreases |evs|
  {
    if |evs| > 0 {
      var h := Handle(s, evs[0]);
      HandleAppendsTranslation(s, evs[0]);
      DeliverAppendsTranslations(h.state, evs[1..]);
      var m := ToSeq(Translate(evs[0], s.lastMouseX, s.lastMouseY));
      assert s.queue + m + Translations(evs[1..], s.lastMouseX, s.lastMouseY)
          == s.queue + (m + Translations(evs[1..], s.lastMouseX, s.lastMouseY));
    }
  }

  /** Running two batches of callbacks back to back is running their concatenation. */
  lemma {:induction false} DeliverCompose(s: WindowState, a: seq<N.NativeEvent>, b: seq<N.NativeEvent>)
    ensures Deliver(s, a + b).state == Deliver(Deliver(s, a).state, b).state
    ensures Deliver(s, a + b).raised == Deliver(s, a).raised + Deliver(Deliver(s, a).state, b).raised
    decreases |a|
  {
    if |a| == 0 {
      assert a + b == b;
    } else {
      assert (a + b)[1..] == a[1..] + b;
      DeliverCompose(Handle(s, a[0]).state, a[1..], b);
    }
  }

  /** Every button message yielded by a run carries the cursor the run was translated with. */
  lemma {:induction false} ButtonsCarryCursor(evs: seq<N.NativeEvent>, x: int, y: int)
    ensures forall i :: 0 <= i < |Translations(evs, x, y)| && IsButton(Translations(evs, x, y)[i].kind) ==>
      Translations(evs, x, y)[i].args == [ScreenPositionArgument(x, y)]
    decreases |evs|
  {
    if |evs| > 0 {
      ButtonsCarryCursor(evs[1..], x, y);
      var head := ToSeq(Translate(evs[0], x, y));
      var t := Translations(evs, x, y);
      forall i | 0 <= i < |t| && IsButton(t[i].kind)
        ensures t[i].args == [ScreenPositionArgument(x, y)]
      {
        if i >= |head| {
          assert t[i] == Translations(evs[1..], x, y)[i - |head|];
        }
      }
    }
  }

  // ---------------------------------------------------------------------------
  // The pump

  /**
   * When the window is not closing, one pump raises the size changes of this
   * delivery and then hands the listener every queued message, old ones
   * first, then this delivery's in event order, and leaves the queue empty.
   */
  lemma PumpDeliversInOrder(s: WindowState, b: Batch)
    requires !s.closing && N.Closing !in b.events
    ensures Pump(s, b).proceed
    ensures Pump(s, b).state.queue == []
    ensures Pump(s, b).raised[..CountResized(b.events)] == Deliver(s, b.events).raised
    ensures Pump(s, b).raised[CountResized(b.events)..] == Received(s.queue + Translations(b.events, s.lastMouseX, s.lastMouseY))
  {
    DeliverAppendsTranslations(s, b.events);
  }

  /**
   * While closing, the pump returns stop, hands the listener nothing, keeps
   * every queued message (this delivery's included) and still refreshes the
   * cursor cache.
   */
  lemma PumpWhileClosing(s: WindowState, b: Batch)
    requires s.closing || N.Closing in b.events
    ensures !Pump(s, b).proceed
    ensures Pump(s, b).state.closing
    ensures Pump(s, b).state.queue == s.queue + Translations(b.events, s.lastMouseX, s.lastMouseY)
    ensures forall i :: 0 <= i < |Pump(s, b).raised| ==> !Pump(s, b).raised[i].InputMessageReceived?
    ensures Pump(s, b).state.lastMouseX == N.Truncate(b.snapshot.mouseX)
    ensures Pump(s, b).state.lastMouseY == N.Truncate(b.snapshot.mouseY)
  {
    DeliverAppendsTranslations(s, b.events);
  }

  /** The argument convention is an invariant of the queue under every callback and every pump. */
  lemma PumpKeepsMessagesWellFormed(s: WindowState, b: Batch)
    requires AllWellFormed(s.queue)
    ensures AllWellFormed(Deliver(s, b.events).state.queue)
    ensures AllWellFormed(Pump(s, b).state.queue)
    ensures forall i :: 0 <= i < |Pump(s, b).raised| && Pump(s, b).raised[i].InputMessageReceived? ==>
      WellFormed(Pump(s, b).raised[i].message)
  {
    DeliverAppendsTranslations(s, b.events);
    var q := Deliver(s, b.events).state.queue;
    var t := Translations(b.events, s.lastMouseX, s.lastMouseY);
    assert forall i :: 0 <= i < |q| ==> q[i] == (if i < |s.queue| then s.queue[i] else t[i - |s.queue|]);
  }

  /**
   * The cursor lag: a button message delivered by a pump carries the
   * position cached by the PREVIOUS pump's snapshot, whatever this pump's
   * snapshot says.
   */
  lemma ButtonPositionLagsOnePump(s: WindowState, b1: Batch, b2: Batch)
    requires Pump(s, b1).proceed
    ensures var r2 := Pump(Pump(s, b1).state, b2);
      forall i :: 0 <= i < |r2.raised| && r2.raised[i].InputMessageReceived? && IsButton(r2.raised[i].message.kind) ==>
        r2.raised[i].message.args == [ScreenPositionArgument(N.Truncate(b1.snapshot.mouseX), N.Truncate(b1.snapshot.mouseY))]
  {
    var s1 := Pump(s, b1).state;
    var x, y := N.Truncate(b1.snapshot.mouseX), N.Truncate(b1.snapshot.mouseY);
    DeliverAppendsTranslations(s1, b2.events);
    ButtonsCarryCursor(b2.events, x, y);
    var r2 := Pump(s1, b2);
    var t := Translations(b2.events, x, y);
    assert s1.queue == [];
    if r2.proceed {
      var k := CountResized(b2.events);
      assert r2.raised[k..] == Received(t);
      forall i | 0 <= i < |r2.raised| && r2.raised[i].InputMessageReceived? && IsButton(r2.raised[i].message.kind)
        ensures r2.raised[i].message.args == [ScreenPositionArgument(x, y)]
      {
        assert i >= k;
        assert r2.raised[i] == r2.raised[k..][i - k];
      }
    }
  }

  /** The scenario of a move followed by a left click: the click reports the stale cache, not the move's position. */
  lemma ClickAfterMoveReportsStalePosition(s: WindowState)
    requires s.queue == [] && !s.closing
    ensures var r := Pump(s, Batch([N.MouseMove(100, 50), N.MouseDown(N.Left)], N.InputSnapshot(100.0, 50.0)));
      && r.proceed
      && r.raised == [InputMessageReceived(Message(MessageKind.MouseMove, [ScreenPositionArgument(100, 50)])),
                      InputMessageReceived(Message(MouseLeftButtonDown, [ScreenPositionArgument(s.lastMouseX, s.lastMouseY)]))]
      && r.state.lastMouseX == 100 && r.state.lastMouseY == 50
  {
  }

  /** The scenario of one key press: a fresh window delivers exactly one key-down message with code 65. */
  lemma KeyPressDelivered(snapshot: N.InputSnapshot)
    ensures Pump(Initial, Batch([N.KeyDown(65)], snapshot)).raised
         == [InputMessageReceived(Message(MessageKind.KeyDown, [IntegerArgument(65)]))]
  {
  }

  // ---------------------------------------------------------------------------
  // Repeated pumps

  /** Once the window is closing, every later pump answers stop and the flag stays set. */
  lemma {:induction false} ClosingIsFinal(s: WindowState, batches: seq<Batch>)
    requires s.closing
    ensures Run(s, batches).1.closing
    ensures forall i :: 0 <= i < |batches| ==> !Run(s, batches).0[i]
    decreases |batches|
  {
    if |batches| > 0 {
      ClosingIsFinal(Pump(s, batches[0]).state, batches[1..]);
    }
  }

  /** No resumption: after a pump answers stop, no later pump answers continue. */
  lemma {:induction false} StopIsNeverFollowedByContinue(s: WindowState, batches: seq<Batch>, i: int, j: int)
    requires 0 <= i < j < |batches|
    requires !Run(s, batches).0[i]
    ensures !Run(s, batches).0[j]
    decreases i
  {
    var p := Pump(s, batches[0]);
    if i == 0 {
      ClosingIsFinal(p.state, batches[1..]);
      assert Run(s, batches).0[j] == Run(p.state, batches[1..]).0[j - 1];
    } else {
      assert Run(s, batches).0[i] == Run(p.state, batches[1..]).0[i - 1];
      assert Run(s, batches).0[j] == Run(p.state, batches[1..]).0[j - 1];
      StopIsNeverFollowedByContinue(p.state, batches[1..], i - 1, j - 1);
    }
  }

  // ---------------------------------------------------------------------------
  // Client bounds

  /** Client bounds depend on the window's size only, never on where the window sits. */
  lemma ClientBoundsIgnoresPosition(w1: N.Rectangle, w2: N.Rectangle)
    requires w1.width == w2.width && w1.height == w2.height
    ensures ClientBounds(w1) == ClientBounds(w2)
  {
  }

  /** A rectangle is its own client bounds exactly when it sits at the origin. */
  lemma ClientBoundsFixedAtOrigin(w: N.Rectangle)
    ensures ClientBounds(w) == w <==> (w.x == 0 && w.y == 0)
    ensures ClientBounds(ClientBounds(w)) == ClientBounds(w)
  {
  }
}
