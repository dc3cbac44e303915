/** Input events for listeners: the handle_* builders that turn raw touch
    and key input into one event and one call of a listener's handler, and
    the manager that keeps the registered listeners in a list. */
module EventListener {

  datatype Vec2 = Vec2(x: real, y: real)

  datatype TouchEventType = FingerDown | FingerUp | FingerMove

  /** A touch event; `movement` stays at its default (0, 0) unless the
      builder sets it. */
  datatype TouchEvent = TouchEvent(
    eventType: TouchEventType,
    touchId: int,
    normalizedCoord: Vec2,
    coord: Vec2,
    movement: Vec2)

  datatype KeyEventType = KeyDown | KeyUp

  datatype KeyEvent = KeyEvent(eventType: KeyEventType, keyboardCode: int)

  /** The one handler a handle_* call ends in, with the event it is given. */
  datatype Dispatch =
    | OnTouchBegin(touch: TouchEvent)
    | OnTouchEnd(touch: TouchEvent)
    | OnTouchMove(touch: TouchEvent)
    | OnKeyDown(key: KeyEvent)
    | OnKeyUp(key: KeyEvent)

  const Zero: Vec2 := Vec2(0.0, 0.0)

  /** A dispatch reaches the handler named after its event's type: finger
      down to on_touch_begin, finger up to on_touch_end, finger motion to
      on_touch_move, key down and key up to theirs. */
  predicate Routed(d: Dispatch)
  {
    match d
    case OnTouchBegin(e) => e.eventType == FingerDown
    case OnTouchEnd(e) => e.eventType == FingerUp
    case OnTouchMove(e) => e.eventType == FingerMove
    case OnKeyDown(e) => e.eventType == KeyDown
    case OnKeyUp(e) => e.eventType == KeyUp
  }

  /** The touch event carries the touch id and both forms of the point:
      the normalised one as given, and the window coordinate the window
      computes from it (`toWindow` stands for coordinate_from_normalized). */
  predicate Locates(e: TouchEvent, toWindow: (real, real) -> Vec2, touchId: int, nx: real, ny: real)
  {
    e.touchId == touchId && e.normalizedCoord == Vec2(nx, ny) && e.coord == toWindow(nx, ny)
  }

  function TouchAt(t: TouchEventType, toWindow: (real, real) -> Vec2, touchId: int, nx: real, ny: real): (e: TouchEvent)
    ensures e.eventType == t && e.movement == Zero && Locates(e, toWindow, touchId, nx, ny)
  {
    TouchEvent(t, touchId, Vec2(nx, ny), toWindow(nx, ny), Zero)
  }

  /** handle_touch_begin; the pressure is not passed on. */
  function HandleTouchBegin(toWindow: (real, real) -> Vec2, touchId: int, nx: real, ny: real, pressure: real): (d: Dispatch)
    ensures d.OnTouchBegin? && Routed(d)
    ensures Locates(d.touch, toWindow, touchId, nx, ny) && d.touch.movement == Zero
  {
    OnTouchBegin(TouchAt(FingerDown, toWindow, touchId, nx, ny))
  }

  /** handle_touch_end as the source writes it: the finger-up event goes to
      on_touch_begin. */
  function HandleTouchEndAsWritten(toWindow: (real, real) -> Vec2, touchId: int, nx: real, ny: real): (d: Dispatch)
    ensures d.OnTouchBegin? && d.touch.eventType == FingerUp && Locates(d.touch, toWindow, touchId, nx, ny)
  {
    OnTouchBegin(TouchAt(FingerUp, toWindow, touchId, nx, ny))
  }

  /** Whatever the input, the as-written handle_touch_end hands a finger-up
      event to the finger-down handler and never reaches on_touch_end. */
  lemma TouchEndAsWrittenMisroutes(toWindow: (real, real) -> Vec2, touchId: int, nx: real, ny: real)
    ensures var d := HandleTouchEndAsWritten(toWindow, touchId, nx, ny);
      !Routed(d) && d.OnTouchBegin? && !d.OnTouchEnd?
  {
  }

  /** handle_touch_end as intended: the finger-up event goes to on_touch_end. */
  function HandleTouchEnd(toWindow: (real, real) -> Vec2, touchId: int, nx: real, ny: real): (d: Dispatch)
    ensures d.OnTouchEnd? && Routed(d)
    ensures Locates(d.touch, toWindow, touchId, nx, ny) && d.touch.movement == Zero
  {
    OnTouchEnd(TouchAt(FingerUp, toWindow, touchId, nx, ny))
  }

  /** The corrected handler differs from the as-written one only in the
      handler it calls: both carry the same event. */
  lemma TouchEndSameEvent(toWindow: (real, real) -> Vec2, touchId: int, nx: real, ny: real)
    ensures HandleTouchEnd(toWindow, touchId, nx, ny).touch == HandleTouchEndAsWritten(toWindow, touchId, nx, ny).touch
  {
  }

  /** handle_touch_move: the only builder that sets the movement. */
  function HandleTouchMove(toWindow: (real, real) -> Vec2, touchId: int, nx: real, ny: real, dx: real, dy: real): (d: Dispatch)
    ensures d.OnTouchMove? && Routed(d)
    ensures Locates(d.touch, toWindow, touchId, nx, ny) && d.touch.movement == Vec2(dx, dy)
  {
    OnTouchMove(TouchAt(FingerMove, toWindow, touchId, nx, ny).(movement := Vec2(dx, dy)))
  }

  function HandleKeyDown(code: int): (d: Dispatch)
    ensures d.OnKeyDown? && Routed(d) && d.key.keyboardCode == code
  {
    OnKeyDown(KeyEvent(KeyDown, code))
  }

  function HandleKeyUp(code: int): (d: Dispatch)
    ensures d.OnKeyUp? && Routed(d) && d.key.keyboardCode == code
  {
    OnKeyUp(KeyEvent(KeyUp, code))
  }

  /** A listener is known by its address; here by an id. */
  type ListenerId = nat

  /** `std::list::remove`: every occurrence of `x` goes, the rest stay in order. */
  function Removed(s: seq<ListenerId>, x: ListenerId): (r: seq<ListenerId>)
    ensures x !in r
    ensures forall y :: y != x ==> multiset(r)[y] == multiset(s)[y]
  {
    if s == [] then []
    else
      var front := Removed(s[..|s| - 1], x);
      var last := s[|s| - 1];
      assert s == s[..|s| - 1] + [last];
      if last == x then front else front + [last]
  }

  /** Removal works piecewise, so the survivors keep their relative order. */
  lemma {:induction false} RemovedAppend(a: seq<ListenerId>, b: seq<ListenerId>, x: ListenerId)
    ensures Removed(a + b, x) == Removed(a, x) + Removed(b, x)
    decreases |b|
  {
    if b == [] {
      assert a + b == a;
    } else {
      var n := |b| - 1;
      RemovedAppend(a, b[..n], x);
      assert (a + b)[..|a + b| - 1] == a + b[..n];
    }
  }

  /** Removing a listener that is not registered changes nothing. */
  lemma {:induction false} RemovedAbsent(s: seq<ListenerId>, x: ListenerId)
    requires x !in s
    ensures Removed(s, x) == s
  {
    if s != [] {
      RemovedAbsent(s[..|s| - 1], x);
      assert s == s[..|s| - 1] + [s[|s| - 1]];
    }
  }

  /** Registering a new listener and unregistering it gives the list back. */
  lemma RegisterUnregister(s: seq<ListenerId>, x: ListenerId)
    requires x !in s
    ensures Removed(s + [x], x) == s
  {
    RemovedAbsent(s, x);
    assert (s + [x])[..|s|] == s;
  }

  class EventListenerManager {
    var listeners: seq<ListenerId>

    constructor ()
      ensures listeners == []
    {
      listeners := [];
    }

    /** register_event_listener: at the back. */
    method Register(l: ListenerId)
      modifies this
      ensures listeners == old(listeners) + [l]
    {
      listeners := listeners + [l];
    }

    /** unregister_event_listener. */
    method Unregister(l: ListenerId)
      modifies this
      ensures listeners == Removed(old(listeners), l)
    {
      listeners := Removed(listeners, l);
    }

    /** each_event_listener: the callback is applied to every listener in
        registration order; the results are what it returned. */
    method EachEventListener<T>(callback: ListenerId -> T) returns (results: seq<T>)
      ensures |results| == |listeners|
      ensures forall i :: 0 <= i < |listeners| ==> results[i] == callback(listeners[i])
    {
      results := [];
      var i := 0;
      while i < |listeners|
        invariant 0 <= i <= |listeners|
        invariant |results| == i
        invariant forall k :: 0 <= k < i ==> results[k] == callback(listeners[k])
      {
        results := results + [callback(listeners[i])];
        i := i + 1;
      }
    }
  }
}
