/** Terminal input as the engine sees it: key codes, press/repeat/release kinds,
    key events and the other events a terminal can deliver. Only the parts the
    engine distinguishes are kept; every other key is `OtherKey`. */
module Keys {

  datatype KeyCode =
    | Char(c: char)
    | Left
    | Right
    | Up
    | Down
    | OtherKey

  datatype KeyEventKind = Press | Repeat | Release

  datatype KeyEvent = KeyEvent(code: KeyCode, kind: KeyEventKind)

  /** A terminal event: a key event, or anything else (resize, mouse, focus, paste). */
  datatype Event = Key(key: KeyEvent) | OtherEvent

  datatype Option<T> = None | Some(value: T)
}
