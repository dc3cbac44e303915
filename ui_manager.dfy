/** The UI manager's input side. Touch events are queued as they arrive and
    dispatched to the widget under the touch each time the stage renders.
    Dispatch does not consume the queue; the queue is dropped at the end of
    the frame. */
module UIManager {
  import opened Wrappers
  import EventListener
  import Widget

  /** A queued UI event; a touch is the only kind there is. */
  datatype UIEvent = TouchUIEvent(touch: EventListener.TouchEvent)

  /** Whether a widget's box, projected by the camera into the viewport,
      contains a window coordinate. */
  type HitTest = (Widget.WidgetId, EventListener.Vec2) -> bool

  /** find_widget_at_window_coordinate's rule: the last widget visited that
      contains the point. */
  function LastHit(order: seq<Widget.WidgetId>, hit: HitTest, p: EventListener.Vec2): (r: Option<Widget.WidgetId>)
    ensures r.None? <==> forall i :: 0 <= i < |order| ==> !hit(order[i], p)
    ensures r.Some? ==> r.value in order && hit(r.value, p)
  {
    if order == [] then None
    else
      var n := |order| - 1;
      if hit(order[n], p) then Some(order[n])
      else
        var r := LastHit(order[..n], hit, p);
        assert r.None? ==> forall i :: 0 <= i < |order| ==> !hit(order[i], p) by {
          if r.None? {
            forall i | 0 <= i < n
              ensures !hit(order[i], p)
            {
              assert order[i] == order[..n][i];
            }
          }
        }
        r
  }

  /** When several widgets contain the point, the one found is the last of
      them: no widget visited after it contains the point. */
  lemma {:induction false} LastHitIsLast(order: seq<Widget.WidgetId>, hit: HitTest, p: EventListener.Vec2)
    requires LastHit(order, hit, p).Some?
    ensures exists i :: (0 <= i < |order| && order[i] == LastHit(order, hit, p).value &&
      forall j :: i < j < |order| ==> !hit(order[j], p))
  {
    var n := |order| - 1;
    if !hit(order[n], p) {
      var front := order[..n];
      LastHitIsLast(front, hit, p);
      var i :| 0 <= i < |front| && front[i] == LastHit(front, hit, p).value &&
        forall j :: i < j < |front| ==> !hit(front[j], p);
      forall j | i < j < |order|
        ensures !hit(order[j], p)
      {
        if j < n {
          assert order[j] == front[j];
        }
      }
      assert order[i] == front[i];
    }
  }

  /** The point a touch event is hit-tested at: its window coordinate. */
  function PointOf(e: UIEvent): EventListener.Vec2
  {
    EventListener.Vec2(e.touch.coord.x, e.touch.coord.y)
  }

  /** The widget call one event leads to: fingerdown for a finger-down and
      fingerup for a finger-up on the widget hit; nothing for a miss or any
      other type. */
  function DispatchOf(e: UIEvent, order: seq<Widget.WidgetId>, hit: HitTest): (r: seq<Widget.FingerCall>)
    ensures |r| <= 1
    ensures r != [] ==> r[0].widget in order && hit(r[0].widget, PointOf(e)) && r[0].finger == e.touch.touchId
  {
    match LastHit(order, hit, PointOf(e))
    case None => []
    case Some(w) =>
      match e.touch.eventType
      case FingerDown => [Widget.FingerDownCall(w, e.touch.touchId)]
      case FingerUp => [Widget.FingerUpCall(w, e.touch.touchId)]
      case FingerMove => []
  }

  /** A call is made exactly for a finger-down or finger-up that hits a
      widget; it goes to the last widget hit and is fingerdown exactly for a
      finger-down. */
  lemma DispatchOfCases(e: UIEvent, order: seq<Widget.WidgetId>, hit: HitTest)
    ensures DispatchOf(e, order, hit) == [] <==>
      LastHit(order, hit, PointOf(e)).None? || e.touch.eventType == EventListener.FingerMove
    ensures DispatchOf(e, order, hit) != [] ==>
      DispatchOf(e, order, hit)[0].widget == LastHit(order, hit, PointOf(e)).value &&
      (DispatchOf(e, order, hit)[0].FingerDownCall? <==> e.touch.eventType == EventListener.FingerDown)
  {
  }

  /** The widget calls a queue of events leads to, in arrival order. */
  function Dispatched(events: seq<UIEvent>, order: seq<Widget.WidgetId>, hit: HitTest): (r: seq<Widget.FingerCall>)
    ensures |r| <= |events|
  {
    if events == [] then []
    else
      var n := |events| - 1;
      Dispatched(events[..n], order, hit) + DispatchOf(events[n], order, hit)
  }

  lemma DispatchedStep(events: seq<UIEvent>, i: nat, order: seq<Widget.WidgetId>, hit: HitTest)
    requires i < |events|
    ensures Dispatched(events[..i + 1], order, hit) == Dispatched(events[..i], order, hit) + DispatchOf(events[i], order, hit)
  {
    assert events[..i + 1][..i] == events[..i];
  }

  /** Dispatch goes event by event: the calls for two queues one after the
      other are the calls for the first, then those for the second. */
  lemma {:induction false} DispatchedAppend(a: seq<UIEvent>, b: seq<UIEvent>, order: seq<Widget.WidgetId>, hit: HitTest)
    ensures Dispatched(a + b, order, hit) == Dispatched(a, order, hit) + Dispatched(b, order, hit)
    decreases |b|
  {
    if b == [] {
      assert a + b == a;
    } else {
      var n := |b| - 1;
      DispatchedAppend(a, b[..n], order, hit);
      assert (a + b)[..|a + b| - 1] == a + b[..n];
      assert (a + b)[|a + b| - 1] == b[n];
      var tail := DispatchOf(b[n], order, hit);
      calc {
        Dispatched(a + b, order, hit);
        Dispatched(a + b[..n], order, hit) + tail;
        (Dispatched(a, order, hit) + Dispatched(b[..n], order, hit)) + tail;
        { AppendAssociative(Dispatched(a, order, hit), Dispatched(b[..n], order, hit), tail); }
        Dispatched(a, order, hit) + (Dispatched(b[..n], order, hit) + tail);
      }
    }
  }

  /** A finger put down and lifted at one point over a widget no finger
      holds makes it fire "pressed", "released" and "clicked". */
  lemma TapOnWidget(t: Widget.Table, down: UIEvent, up: UIEvent, order: seq<Widget.WidgetId>, hit: HitTest, w: Widget.WidgetId)
    requires down.touch.eventType == EventListener.FingerDown && up.touch.eventType == EventListener.FingerUp
    requires down.touch.touchId == up.touch.touchId && PointOf(down) == PointOf(up)
    requires LastHit(order, hit, PointOf(down)) == Some(w)
    requires w in t && Widget.Held(t, w) == {}
    ensures Widget.Replay(t, Dispatched([down, up], order, hit)) == t
    ensures Widget.ReplaySignals(t, Dispatched([down, up], order, hit)) ==
      [Widget.Pressed(w), Widget.Released(w), Widget.Clicked(w)]
  {
    var f := down.touch.touchId;
    DispatchedStep([down, up], 0, order, hit);
    DispatchedStep([down, up], 1, order, hit);
    assert [down, up][..0] == [];
    assert [down, up][..2] == [down, up];
    assert Dispatched([down, up], order, hit) == [Widget.FingerDownCall(w, f), Widget.FingerUpCall(w, f)];
    Widget.TapRoundTrip(t, w, f);
  }

  class UIManager {
    /** The widgets the manager owns. */
    const widgets: Widget.Widgets
    var queue: seq<UIEvent>

    constructor (widgets: Widget.Widgets)
      ensures this.widgets == widgets && queue == []
    {
      this.widgets := widgets;
      queue := [];
    }

    /** queue_event: at the back. */
    method QueueEvent(e: EventListener.TouchEvent)
      modifies this`queue
      ensures queue == old(queue) + [TouchUIEvent(e)]
    {
      queue := queue + [TouchUIEvent(e)];
    }

    method OnTouchBegin(e: EventListener.TouchEvent)
      modifies this`queue
      ensures queue == old(queue) + [TouchUIEvent(e)]
    {
      QueueEvent(e);
    }

    method OnTouchEnd(e: EventListener.TouchEvent)
      modifies this`queue
      ensures queue == old(queue) + [TouchUIEvent(e)]
    {
      QueueEvent(e);
    }

    method ClearEventQueue()
      modifies this`queue
      ensures queue == []
    {
      queue := [];
    }

    /** find_widget_at_window_coordinate over the widgets in the order the
        manager visits them. */
    method FindWidgetAtWindowCoordinate(order: seq<Widget.WidgetId>, hit: HitTest, p: EventListener.Vec2)
      returns (result: Option<Widget.WidgetId>)
      ensures result == LastHit(order, hit, p)
    {
      result := None;
      var i := 0;
      while i < |order|
        invariant 0 <= i <= |order|
        invariant result == LastHit(order[..i], hit, p)
      {
        assert order[..i + 1][..i] == order[..i];
        if hit(order[i], p) {
          result := Some(order[i]);
        }
        i := i + 1;
      }
      assert order[..i] == order;
    }

    /** The calls one event leads to, made on the widgets. */
    method DispatchEvent(e: UIEvent, order: seq<Widget.WidgetId>, hit: HitTest)
      requires forall x :: x in order ==> x in widgets.table
      modifies widgets
      ensures widgets.table == Widget.Replay(old(widgets.table), DispatchOf(e, order, hit))
      ensures widgets.signals == old(widgets.signals) + Widget.ReplaySignals(old(widgets.table), DispatchOf(e, order, hit))
    {
      var w := FindWidgetAtWindowCoordinate(order, hit, PointOf(e));
      if w.None? {
        return;
      }
      var f := e.touch.touchId;
      if e.touch.eventType == EventListener.FingerDown {
        Widget.ReplayOne(widgets.table, Widget.FingerDownCall(w.value, f));
        widgets.FingerDown(w.value, f);
      } else if e.touch.eventType == EventListener.FingerUp {
        Widget.ReplayOne(widgets.table, Widget.FingerUpCall(w.value, f));
        widgets.FingerUp(w.value, f);
      }
    }

    /** process_event_queue: every queued event, oldest first, goes to the
        widget it hits; the queue itself is left as it was. */
    method ProcessEventQueue(order: seq<Widget.WidgetId>, hit: HitTest)
      requires forall x :: x in order ==> x in widgets.table
      modifies widgets
      ensures queue == old(queue)
      ensures widgets.table == Widget.Replay(old(widgets.table), Dispatched(queue, order, hit))
      ensures widgets.signals == old(widgets.signals) + Widget.ReplaySignals(old(widgets.table), Dispatched(queue, order, hit))
    {
      ghost var t0, s0 := widgets.table, widgets.signals;
      var events := queue;
      var i := 0;
      assert events[..0] == [];
      while i < |events|
        invariant 0 <= i <= |events| && events == queue
        invariant widgets.table == Widget.Replay(t0, Dispatched(events[..i], order, hit))
        invariant widgets.signals == s0 + Widget.ReplaySignals(t0, Dispatched(events[..i], order, hit))
      {
        ghost var calls := Dispatched(events[..i], order, hit);
        ghost var s1 := widgets.signals;
        DispatchedStep(events, i, order, hit);
        Widget.ReplayAppend(t0, calls, DispatchOf(events[i], order, hit));
        Widget.ReplaySignalsAppend(t0, calls, DispatchOf(events[i], order, hit));
        DispatchEvent(events[i], order, hit);
        AppendAssociative(s0, Widget.ReplaySignals(t0, calls), Widget.ReplaySignals(Widget.Replay(t0, calls), DispatchOf(events[i], order, hit)));
        i := i + 1;
      }
      assert events[..i] == queue;
    }

    /** delete_widget: the null id 0 is ignored; otherwise the widget is
        cleaned up, which releases every finger still on it, and then
        destroyed. */
    method DeleteWidget(id: Widget.WidgetId)
      requires id == 0 || id in widgets.table
      modifies widgets
      ensures id == 0 ==> widgets.table == old(widgets.table) && widgets.signals == old(widgets.signals)
      ensures id != 0 ==> widgets.table == Widget.Destroyed(old(widgets.table), id)
      ensures id != 0 ==>
                widgets.signals == old(widgets.signals) +
                (if old(widgets.table)[id].fingersDown != {} then [Widget.Released(id), Widget.Clicked(id)] else [])
    {
      if id == 0 {
        return;
      }
      ghost var t0 := widgets.table;
      widgets.Cleanup(id);
      Widget.DestroyedIgnoresFingers(t0, id);
      widgets.Destroy(id);
    }
  }
}
