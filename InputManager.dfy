/**
 * Keyboard state with edge detection (src/engine/InputManager.ts). The window listeners are
 * replaced by calling `OnKeyDown` / `OnKeyUp` directly with the event's key code.
 */
module Input {
  class InputManager {
    var keysDown: set<string>
    var keysJustPressed: set<string>
    var keysJustReleased: set<string>

    constructor ()
      ensures keysDown == {} && keysJustPressed == {} && keysJustReleased == {}
    {
      keysDown, keysJustPressed, keysJustReleased := {}, {}, {};
    }

    /** A key goes down; it is "just pressed" only if it was not already held (auto-repeat). */
    method OnKeyDown(code: string)
      modifies this
      ensures keysDown == old(keysDown) + {code}
      ensures keysJustPressed == if code in old(keysDown) then old(keysJustPressed) else old(keysJustPressed) + {code}
      ensures keysJustReleased == old(keysJustReleased)
    {
      if code !in keysDown {
        keysJustPressed := keysJustPressed + {code};
      }
      keysDown := keysDown + {code};
    }

    /** A key goes up: it is no longer held and is "just released". */
    method OnKeyUp(code: string)
      modifies this
      ensures keysDown == old(keysDown) - {code}
      ensures keysJustReleased == old(keysJustReleased) + {code}
      ensures keysJustPressed == old(keysJustPressed)
    {
      keysDown := keysDown - {code};
      keysJustReleased := keysJustReleased + {code};
    }

    predicate IsDown(code: string)
      reads this
    {
      code in keysDown
    }

    predicate JustPressed(code: string)
      reads this
    {
      code in keysJustPressed
    }

    /** Forgets this frame's edges; held keys stay held. */
    method EndFrame()
      modifies this
      ensures keysJustPressed == {} && keysJustReleased == {}
      ensures keysDown == old(keysDown)
    {
      keysJustPressed := {};
      keysJustReleased := {};
    }
  }

  /** A press of a key that was up is seen as held and as just pressed until the frame ends;
      a repeated press of a held key is never just pressed. */
  method PressScenario(code: string) returns (held: bool, edge: bool, repeatEdge: bool, edgeAfterFrame: bool)
    ensures held && edge
    ensures !repeatEdge && !edgeAfterFrame
  {
    var input := new InputManager();
    input.OnKeyDown(code);
    held, edge := input.IsDown(code), input.JustPressed(code);
    input.EndFrame();
    input.OnKeyDown(code);
    repeatEdge := input.JustPressed(code);
    input.EndFrame();
    edgeAfterFrame := input.JustPressed(code);
  }
}
