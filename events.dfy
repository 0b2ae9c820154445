/**
 * Terminal input events, as the crossterm library delivers them. Only the
 * parts the application's event handling looks at are kept.
 */
module Events {

  /** The modifier flags a key event carries; a key event holds a set of them. */
  datatype Modifier = Shift | Control | Alt | Super | Hyper | Meta

  /** Key codes; `Other` stands for every code the application does not name (arrows left/right, F-keys, ...). */
  datatype KeyCode = Esc | Char(c: char) | Down | Up | Enter | Other(code: nat)

  datatype KeyEventKind = Press | Repeat | Release

  datatype KeyEvent = KeyEvent(code: KeyCode, modifiers: set<Modifier>, kind: KeyEventKind)

  datatype Event =
    | FocusGained
    | FocusLost
    | Key(key: KeyEvent)
    | Mouse
    | Paste
    | Resize

  /** The modifier set `KeyModifiers::CONTROL`: control and nothing else. */
  const ControlOnly: set<Modifier> := {Control}
}
