/** The keyboard as the game reads it: the engine's key codes the game names, and the
    `ButtonInput<KeyCode>` resource. */
module Input {

  /** The key codes the game refers to; every other key is `Other`, told apart by its code. */
  datatype KeyCode =
    | Digit0 | Digit1 | Digit2 | Digit3 | Digit4 | Digit5 | Digit6 | Digit7 | Digit8 | Digit9
    | KeyA | KeyB | KeyC | KeyD | KeyE | KeyF | KeyG | KeyH | KeyI | KeyJ | KeyK | KeyL | KeyM
    | KeyN | KeyO | KeyP | KeyQ | KeyR | KeyS | KeyT | KeyU | KeyV | KeyW | KeyX | KeyY | KeyZ
    | Escape
    | F1 | F2 | F3 | F4 | F5 | F6 | F7 | F8 | F9 | F10 | F11 | F12
    | Insert | Delete | Home | End | PageUp | PageDown
    | ArrowUp | ArrowDown | ArrowLeft | ArrowRight
    | Space | Backspace | Enter | Tab | CapsLock
    | ShiftLeft | ShiftRight | ControlLeft | ControlRight | AltLeft | AltRight
    | ContextMenu
    | Other(code: nat)

  /** `ButtonInput<KeyCode>`: the keys held down this frame and the keys pressed this frame. */
  datatype ButtonInput = ButtonInput(pressed: set<KeyCode>, justPressed: set<KeyCode>)
}
