/** The keyboard keys the game rules read. A frame's input is the set of keys
    held (`pressed`) or the set of keys that went down this frame
    (`just_pressed`); either is a `set<Key>` parameter. */
module Keys {

  datatype Key =
    | KeyW | KeyA | KeyS | KeyD | KeyJ | KeyL | KeyB
    | ArrowUp | ArrowDown | ArrowLeft | ArrowRight
    | Numpad1 | Numpad3 | Digit1
    | Space | Escape
}
