// The cross-platform mouse: a button-state map fed by the surface's button
// events and emptied on every update, and the last known cursor position.

module MouseInput {

  /** A mouse button, as the value of the button enumeration. */
  type Button = int

  datatype Point = Point(x: real, y: real)

  /** A snapshot of the buttons and the position. */
  datatype MouseState = MouseState(buttons: map<Button, bool>, position: Point)

  class Mouse {
    var buttons: map<Button, bool>
    var position: Point

    /** No button is known and the position is the origin. */
    constructor()
      ensures buttons == map[] && position == Point(0.0, 0.0)
    {
      buttons := map[];
      position := Point(0.0, 0.0);
    }

    /** The buttons and position as they are now. */
    function GetState(): (r: MouseState)
      reads this
      ensures r.buttons == buttons && r.position == position
    {
      MouseState(buttons, position)
    }

    /** Records the state of one button; every other button keeps its entry. */
    method SetButtonState(button: Button, state: bool)
      modifies this
      ensures buttons == old(buttons)[button := state]
      ensures button in buttons && buttons[button] == state
      ensures forall b :: b != button ==> (b in buttons <==> b in old(buttons))
      ensures forall b :: b != button && b in buttons ==> buttons[b] == old(buttons)[b]
      ensures position == old(position)
    {
      if button !in buttons {
        buttons := buttons[button := state];
      }
      buttons := buttons[button := state];
    }

    /** A button released on the surface reads as up. */
    method MouseUp(button: Button)
      modifies this
      ensures buttons == old(buttons)[button := false]
      ensures position == old(position)
    {
      SetButtonState(button, false);
    }

    /** A button pressed on the surface reads as down. */
    method MouseDown(button: Button)
      modifies this
      ensures buttons == old(buttons)[button := true]
      ensures position == old(position)
    {
      SetButtonState(button, true);
    }

    /** Every update forgets all buttons, so none is reported afterwards. */
    method Update()
      modifies this
      ensures buttons == map[]
      ensures forall b :: b !in GetState().buttons
      ensures position == old(position)
    {
      buttons := map[];
    }
  }
}
