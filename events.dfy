/** The keyboard events the scenes react to (pygame.KEYDOWN with its key and unicode text). */
module Events {
  /** The keys the scenes distinguish; every other key is `OtherKey` with its key code. */
  datatype Key =
    | Return
    | Backspace
    | Space
    | Escape
    | KeyC
    | Up
    | Down
    | Left
    | Right
    | OtherKey(code: int)

  /** A pygame event: a key press with the text it produced, or anything else. */
  datatype Event =
    | KeyDown(key: Key, unicode: string)
    | OtherEvent
}
