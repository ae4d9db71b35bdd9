/** The input the game loop reads each frame: the queued window and keyboard
    events, and which movement keys are held down. */
module Input {
  /** The keys the game and the menu react to; every other key is `OtherKey`. */
  datatype Key = Space | Z | R | Return | P | Escape | Left | Right | Up | Down | OtherKey

  /** A queued event: closing the window, a key going down, or anything else. */
  datatype Event = Quit | KeyDown(key: Key) | OtherEvent
}
