/**
 * The player's input for one frame, as the core reads it. The source polls
 * an input handler (key and mouse listeners); the model receives what those
 * polls would have answered as one value.
 */
module Controls {

  /**
   * up/down/left/right:  'w'/'ArrowUp', 's'/'ArrowDown', 'a'/'ArrowLeft', 'd'/'ArrowRight' held
   * interact:            'e' or 'E' held
   * mouseDown:           the mouse button is held
   * mouseClicked:        a quick click was registered
   * escapePressed:       'Escape' was pressed (edge-triggered)
   * shopPressed:         'b' was pressed (edge-triggered)
   * mouseX, mouseY:      the mouse position
   */
  datatype Input = Input(
    up: bool, down: bool, left: bool, right: bool,
    interact: bool,
    mouseDown: bool, mouseClicked: bool,
    escapePressed: bool, shopPressed: bool,
    mouseX: real, mouseY: real)

  /** No key held, no button pressed, the mouse at the origin. */
  const Idle := Input(false, false, false, false, false, false, false, false, false, 0.0, 0.0)
}
