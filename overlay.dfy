/** An overlay's input gating: which mouse buttons and fingers it holds as
    down, recorded only while it is rendered and all released when its
    rendering stops. */
module Overlay {
  import opened Wrappers

  class Overlay {
    /** is_being_rendered(), decided by the render sequence outside this model. */
    var beingRendered: bool
    var mouseButtonsDown: set<int>
    var fingersDown: set<int>

    constructor (rendered: bool)
      ensures beingRendered == rendered && mouseButtonsDown == {} && fingersDown == {}
    {
      beingRendered := rendered;
      mouseButtonsDown := {};
      fingersDown := {};
    }

    /** __handle_mouse_down: recorded only while rendered. */
    method HandleMouseDown(button: int)
      modifies this`mouseButtonsDown
      ensures mouseButtonsDown == if beingRendered then old(mouseButtonsDown) + {button} else old(mouseButtonsDown)
      ensures beingRendered ==> button in mouseButtonsDown
    {
      if !beingRendered {
        return;
      }
      mouseButtonsDown := mouseButtonsDown + {button};
    }

    /** __handle_mouse_up: ignored while not rendered when asked to check;
        otherwise the button is released if it was down. */
    method HandleMouseUp(button: int, checkRendered: bool)
      modifies this`mouseButtonsDown
      ensures checkRendered && !beingRendered ==> mouseButtonsDown == old(mouseButtonsDown)
      ensures !(checkRendered && !beingRendered) ==> mouseButtonsDown == old(mouseButtonsDown) - {button}
      ensures button !in old(mouseButtonsDown) ==> mouseButtonsDown == old(mouseButtonsDown)
    {
      if checkRendered && !beingRendered {
        return;
      }
      if button in mouseButtonsDown {
        mouseButtonsDown := mouseButtonsDown - {button};
      }
    }

    /** __handle_touch_down: recorded only while rendered. */
    method HandleTouchDown(finger: int, x: int, y: int)
      modifies this`fingersDown
      ensures fingersDown == if beingRendered then old(fingersDown) + {finger} else old(fingersDown)
      ensures beingRendered ==> finger in fingersDown
    {
      if !beingRendered {
        return;
      }
      fingersDown := fingersDown + {finger};
    }

    /** __handle_touch_up: the finger twin of HandleMouseUp. */
    method HandleTouchUp(finger: int, x: int, y: int, checkRendered: bool)
      modifies this`fingersDown
      ensures checkRendered && !beingRendered ==> fingersDown == old(fingersDown)
      ensures !(checkRendered && !beingRendered) ==> fingersDown == old(fingersDown) - {finger}
      ensures finger !in old(fingersDown) ==> fingersDown == old(fingersDown)
    {
      if checkRendered && !beingRendered {
        return;
      }
      if finger in fingersDown {
        fingersDown := fingersDown - {finger};
      }
    }

    /** __handle_touch_motion changes nothing; `passed` says whether the
        motion gets past both guards (rendered, and the finger already
        down), which is where the handler would act on it. */
    method HandleTouchMotion(finger: int, x: int, y: int) returns (passed: bool)
      ensures passed <==> beingRendered && finger in fingersDown
    {
      if !beingRendered {
        return false;
      }
      if finger !in fingersDown {
        return false;
      }
      return true;
    }

    /** __handle_mouse_move changes nothing; `passed` says whether it gets
        past the rendered guard. */
    method HandleMouseMove(x: int, y: int) returns (passed: bool)
      ensures passed <==> beingRendered
    {
      if !beingRendered {
        return false;
      }
      return true;
    }

    /** on_render_stopped: an unchecked mouse-up for every button of a copy
        of the held set, then an unchecked touch-up for every finger. */
    method OnRenderStopped()
      modifies this`mouseButtonsDown, this`fingersDown
      ensures mouseButtonsDown == {} && fingersDown == {}
    {
      var buttons := mouseButtonsDown;
      while |buttons| > 0
        invariant mouseButtonsDown == buttons
        decreases buttons
      {
        ghost var _ := Pick(buttons);
        var b :| b in buttons;
        HandleMouseUp(b, false);
        buttons := buttons - {b};
      }
      var fingers := fingersDown;
      while |fingers| > 0
        invariant fingersDown == fingers && mouseButtonsDown == {}
        decreases fingers
      {
        ghost var _ := Pick(fingers);
        var f :| f in fingers;
        HandleTouchUp(f, 0, 0, false);
        fingers := fingers - {f};
      }
    }
  }
}
