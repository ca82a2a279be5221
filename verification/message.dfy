/**
 The messages the notepad reacts to, and the values they carry: which
 drop-down menu is open, the editor buffer, and the raw toolkit events
 (keys, modifiers, mouse wheel) that the update step interprets itself.
 */
module Messages {
  import opened Wrappers
  import opened Paths

  /** Which drop-down menu is open; `None` when all are closed. */
  datatype MenuState = None | File | Edit | Format | View | Help

  function DefaultMenuState(): MenuState
  {
    MenuState.None
  }

  /**
   The editor buffer: its text and the text currently selected in it,
   if any. Where the caret is and how a selection is made belong to the
   editor widget, which is not part of this model.
   */
  datatype Content = Content(text: string, selection: Option<string>)

  /** An empty buffer, as a new document starts. */
  function NewContent(): Content
  {
    Content([], Option.None)
  }

  /** A buffer holding `t`, as an opened file starts. */
  function ContentWithText(t: string): Content
  {
    Content(t, Option.None)
  }

  /** The named keys the update step distinguishes. */
  datatype NamedKey = Escape | F5 | DeleteKey | OtherNamed

  datatype Key = Named(named: NamedKey) | Character(chars: string) | Unidentified

  datatype Modifiers = Modifiers(control: bool, logo: bool)

  /** A wheel movement, in lines or in pixels. */
  datatype ScrollDelta = Lines(x: real, y: real) | Pixels(x: real, y: real)

  /** The toolkit events the update step looks at; everything else is `OtherEvent`. */
  datatype InputEvent =
    | KeyPressed(key: Key, modifiers: Modifiers)
    | KeyReleased(modifiers: Modifiers)
    | WheelScrolled(delta: ScrollDelta)
    | OtherEvent

  datatype Message =
    | FontLoaded(loaded: Result<(), string>)
    | NewFile
    | OpenFile
    | SaveFile
    | SaveFileAs
    | Exit
    | Undo
    | Cut
    | Copy
    | Paste
    | Delete
    | SelectAll
    | TimeDate
    | WordWrapToggled
    | ZoomIn
    | ZoomOut
    | ZoomReset
    | StatusBarToggled
    | About
    | CloseAboutDialog
      /** An edit performed by the editor widget, as an opaque buffer transformer. */
    | EditorAction(action: Content -> Content)
    | FileOpened(openResult: Result<(Path, string), string>)
    | FileSaved(saveResult: Result<Path, string>)
    | FileMenuToggled
    | EditMenuToggled
    | FormatMenuToggled
    | ViewMenuToggled
    | HelpMenuToggled
    | CloseAllMenus
    | Event(event: InputEvent)
    | ClipboardPaste(pasted: Option<string>)
    | MouseScroll(scroll: real)
    | MenuHovered(hovered: MenuState)
}
