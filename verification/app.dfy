/**
 The notepad application state and its update step. Each message turns
 a state into a new state plus at most one effect for the host to carry
 out (a file dialog, a write, the clipboard, process exit); the results
 of those effects come back later as `FileOpened`, `FileSaved` and
 `ClipboardPaste` messages.
 */
module App {
  import opened Wrappers
  import opened Paths
  import opened Font
  import opened Messages
  import opened TextLines

  datatype State = State(
    content: Content,
    currentFile: Option<Path>,
    isModified: bool,
    wordWrap: bool,
    fontSize: real,
    showStatusBar: bool,
    zoomLevel: i16,
    menuState: MenuState,
    showAboutDialog: bool,
    ctrlPressed: bool)

  /** What the host is asked to do after an update. */
  datatype Effect =
    | NoEffect
      /** Show the open dialog and read the chosen file; answered by `FileOpened`. */
    | PickAndReadFile
      /** Write `text` to `path`; answered by `FileSaved`. */
    | WriteFile(path: Path, text: string)
      /** Show the save dialog and write `text` there; answered by `FileSaved`. */
    | PickAndWriteFile(text: string)
    | ExitProcess
    | WriteClipboard(text: string)
      /** Read the clipboard; answered by `ClipboardPaste`. */
    | ReadClipboard

  datatype Step = Step(state: State, effect: Effect)

  /**
   The editor widget's own edit primitives, which depend on the caret and
   selection and are not part of this model: delete the selection (or the
   character at the caret), select everything, insert one character.
   */
  datatype Editor = Editor(
    delete: Content -> Content,
    selectAll: Content -> Content,
    insert: (Content, char) -> Content)

  /** What an update may consult besides the state: the editor and the local clock as text. */
  datatype Env = Env(editor: Editor, now: string)

  /** The zoom fields agree with each other and lie on the 10-percent grid inside the bounds. */
  predicate ZoomValid(s: State)
  {
    && MinZoomLevel <= s.zoomLevel <= MaxZoomLevel
    && s.zoomLevel as int % 10 == 0
    && s.fontSize == CalculateFontSize(s.zoomLevel)
  }

  /** The state a fresh window starts in. */
  function Default(): (s: State)
    ensures ZoomValid(s)
    ensures s.content.text == [] && s.currentFile.None? && !s.isModified
    ensures s.menuState == MenuState.None && !s.showAboutDialog && !s.ctrlPressed
    ensures s.wordWrap && s.showStatusBar
  {
    State(
      content := NewContent(),
      currentFile := Option.None,
      isModified := false,
      wordWrap := true,
      fontSize := DefaultFontSize,
      showStatusBar := true,
      zoomLevel := DefaultZoomLevel,
      menuState := DefaultMenuState(),
      showAboutDialog := false,
      ctrlPressed := false)
  }

  /** The name the title shows: the file's name, or "Untitled" with no file; none if the path has no name. */
  function DisplayName(s: State): Option<string>
  {
    if s.currentFile.None? then Some("Untitled") else FileName(s.currentFile.value)
  }

  const TitleSuffix: string := " - MemoChan"

  /**
   The window title. `None` stands for the panic of unwrapping a missing
   file name, which happens only for a path with no final name.
   */
  function Title(s: State): (r: Option<string>)
    ensures r.None? <==> s.currentFile.Some? && FileName(s.currentFile.value).None?
    ensures r.Some? ==> |r.value| > |TitleSuffix| && r.value[|r.value| - |TitleSuffix|..] == TitleSuffix
    ensures r.Some? && s.isModified ==> r.value[0] == '*'
  {
    var name := DisplayName(s);
    if name.None? then Option.None
    else Some((if s.isModified then "*" else "") + name.value + TitleSuffix)
  }

  /** The menu shown after the button of `menu` is pressed while `current` is open. */
  function Toggle(current: MenuState, menu: MenuState): (r: MenuState)
    requires menu != MenuState.None
    ensures r == MenuState.None <==> current == menu
    ensures r != MenuState.None ==> r == menu
  {
    if current == menu then MenuState.None else menu
  }

  /** Inserts the characters of `t` one at a time, as typing them would. */
  function InsertAll(c: Content, t: string, insert: (Content, char) -> Content): Content
    decreases |t|
  {
    if t == [] then c else InsertAll(insert(c, t[0]), t[1..], insert)
  }

  function CloseMenus(s: State): State
  {
    s.(menuState := MenuState.None)
  }

  /** Whether a chord counts as Ctrl: either Control or the Command/Windows key. */
  predicate CtrlHeld(m: Modifiers)
  {
    m.control || m.logo
  }

  /** The message a Ctrl (or Command) chord with `key` stands for, if any. */
  function Shortcut(key: Key): (r: Option<Message>)
    ensures r.Some? ==> key.Character? && |key.chars| == 1 && !r.value.Event?
    ensures r.Some? ==> !r.value.Exit? && !r.value.FileOpened? && !r.value.FileSaved?
  {
    if !key.Character? || |key.chars| != 1 then Option.None
    else
      match key.chars[0]
      case 'n' | 'N' => Some(NewFile)
      case 'o' | 'O' => Some(OpenFile)
      case 's' | 'S' => Some(SaveFile)
      case '+' | '=' => Some(ZoomIn)
      case '-' => Some(ZoomOut)
      case '0' => Some(ZoomReset)
      case 'a' | 'A' => Some(SelectAll)
      case 'z' | 'Z' => Some(Undo)
      case 'x' | 'X' => Some(Cut)
      case 'c' | 'C' => Some(Copy)
      case 'v' | 'V' => Some(Paste)
      case _ => Option.None
  }

  function ZoomTo(s: State, z: i16): State
  {
    s.(zoomLevel := z, fontSize := CalculateFontSize(z))
  }

  /** A wheel step while Ctrl is held: one grid step toward the bound, never past it. */
  function Scroll(s: State, delta: real): (r: State)
    ensures MinZoomLevel <= s.zoomLevel <= MaxZoomLevel ==> MinZoomLevel <= r.zoomLevel <= MaxZoomLevel
    ensures delta > 0.0 ==> s.zoomLevel <= r.zoomLevel && r.zoomLevel as int <= s.zoomLevel as int + 10
    ensures delta <= 0.0 ==> r.zoomLevel <= s.zoomLevel && s.zoomLevel as int - 10 <= r.zoomLevel as int
    ensures r == s || r == s.(zoomLevel := r.zoomLevel, fontSize := CalculateFontSize(r.zoomLevel))
  {
    if delta > 0.0 then
      if s.zoomLevel < MaxZoomLevel then
        ZoomTo(s, if s.zoomLevel + 10 < MaxZoomLevel then s.zoomLevel + 10 else MaxZoomLevel)
      else s
    else
      if s.zoomLevel > MinZoomLevel then
        ZoomTo(s, if s.zoomLevel - 10 > MinZoomLevel then s.zoomLevel - 10 else MinZoomLevel)
      else s
  }

  predicate IsFileMessage(msg: Message)
  {
    msg.NewFile? || msg.OpenFile? || msg.SaveFile? || msg.SaveFileAs? || msg.Exit?
    || msg.FileOpened? || msg.FileSaved?
  }

  predicate IsEditMessage(msg: Message)
  {
    msg.Undo? || msg.Cut? || msg.Copy? || msg.Paste? || msg.Delete? || msg.SelectAll?
    || msg.TimeDate? || msg.EditorAction? || msg.ClipboardPaste?
  }

  predicate IsViewMessage(msg: Message)
  {
    msg.WordWrapToggled? || msg.ZoomIn? || msg.ZoomOut? || msg.ZoomReset?
    || msg.StatusBarToggled? || msg.About? || msg.CloseAboutDialog? || msg.MouseScroll?
  }

  predicate IsMenuMessage(msg: Message)
  {
    msg.FileMenuToggled? || msg.EditMenuToggled? || msg.FormatMenuToggled?
    || msg.ViewMenuToggled? || msg.HelpMenuToggled? || msg.CloseAllMenus? || msg.MenuHovered?
  }

  /** File menu commands and the answers to the file dialogs. */
  function ApplyFile(s: State, msg: Message): (r: Step)
    requires IsFileMessage(msg)
    ensures r.state.zoomLevel == s.zoomLevel && r.state.fontSize == s.fontSize
    ensures r.state.ctrlPressed == s.ctrlPressed
  {
    match msg
    case NewFile =>
      Step(s.(content := NewContent(), currentFile := Option.None, isModified := false,
              menuState := MenuState.None), NoEffect)
    case OpenFile => Step(CloseMenus(s), PickAndReadFile)
    case SaveFile =>
      if s.currentFile.Some? then Step(s, WriteFile(s.currentFile.value, s.content.text))
      else Step(s, PickAndWriteFile(s.content.text))
    case SaveFileAs => Step(CloseMenus(s), PickAndWriteFile(s.content.text))
    case Exit => Step(s, ExitProcess)
    case FileOpened(res) =>
      if res.Ok? then
        Step(s.(currentFile := Some(res.value.0), content := ContentWithText(res.value.1),
                isModified := false), NoEffect)
      else Step(s, NoEffect)
    case FileSaved(res) =>
      if res.Ok? then Step(s.(currentFile := Some(res.value), isModified := false), NoEffect)
      else Step(s, NoEffect)
  }

  /** Edit menu commands, editor actions and clipboard answers. */
  function ApplyEdit(s: State, msg: Message, env: Env): (r: Step)
    requires IsEditMessage(msg)
    ensures r.state.zoomLevel == s.zoomLevel && r.state.fontSize == s.fontSize
    ensures r.state.currentFile == s.currentFile && r.state.ctrlPressed == s.ctrlPressed
  {
    match msg
    case Undo => Step(CloseMenus(s), NoEffect)
    case Cut =>
      if s.content.selection.Some? then
        Step(s.(content := env.editor.delete(s.content), isModified := true,
                menuState := MenuState.None), WriteClipboard(s.content.selection.value))
      else Step(CloseMenus(s), NoEffect)
    case Copy =>
      if s.content.selection.Some? then
        Step(CloseMenus(s), WriteClipboard(s.content.selection.value))
      else Step(CloseMenus(s), NoEffect)
    case Paste => Step(CloseMenus(s), ReadClipboard)
    case Delete =>
      Step(s.(content := env.editor.delete(s.content), isModified := true,
              menuState := MenuState.None), NoEffect)
    case SelectAll =>
      Step(s.(content := env.editor.selectAll(s.content), menuState := MenuState.None), NoEffect)
    case TimeDate =>
      Step(s.(content := InsertAll(s.content, env.now, env.editor.insert), isModified := true,
              menuState := MenuState.None), NoEffect)
    case EditorAction(action) =>
      var c := action(s.content);
      Step(s.(content := c, isModified := s.isModified || c.text != s.content.text), NoEffect)
    case ClipboardPaste(pasted) =>
      if pasted.Some? then
        Step(s.(content := InsertAll(s.content, pasted.value, env.editor.insert), isModified := true),
             NoEffect)
      else Step(s, NoEffect)
  }

  /** Format, view and help commands: word wrap, zoom, status bar, the about dialog. */
  function ApplyView(s: State, msg: Message): (r: Step)
    requires IsViewMessage(msg)
    ensures r.effect == NoEffect
    ensures r.state.content == s.content && r.state.isModified == s.isModified
    ensures r.state.currentFile == s.currentFile && r.state.ctrlPressed == s.ctrlPressed
    ensures !(msg.ZoomIn? || msg.ZoomOut? || msg.ZoomReset? || msg.MouseScroll?) ==>
      r.state.zoomLevel == s.zoomLevel && r.state.fontSize == s.fontSize
  {
    match msg
    case WordWrapToggled => Step(CloseMenus(s.(wordWrap := !s.wordWrap)), NoEffect)
    case ZoomIn =>
      if s.zoomLevel < MaxZoomLevel then Step(CloseMenus(ZoomTo(s, s.zoomLevel + 10)), NoEffect)
      else Step(CloseMenus(s), NoEffect)
    case ZoomOut =>
      if s.zoomLevel > MinZoomLevel then Step(CloseMenus(ZoomTo(s, s.zoomLevel - 10)), NoEffect)
      else Step(CloseMenus(s), NoEffect)
    case ZoomReset =>
      Step(s.(zoomLevel := DefaultZoomLevel, fontSize := DefaultFontSize,
              menuState := MenuState.None), NoEffect)
    case StatusBarToggled => Step(CloseMenus(s.(showStatusBar := !s.showStatusBar)), NoEffect)
    case About => Step(s.(menuState := MenuState.None, showAboutDialog := true), NoEffect)
    case CloseAboutDialog => Step(s.(showAboutDialog := false), NoEffect)
    case MouseScroll(delta) => Step(Scroll(s, delta), NoEffect)
  }

  /** The menu bar: toggling, hovering and closing the drop-down menus. */
  function ApplyMenu(s: State, msg: Message): (r: Step)
    requires IsMenuMessage(msg)
    ensures r == Step(s.(menuState := r.state.menuState), NoEffect)
  {
    match msg
    case FileMenuToggled => Step(s.(menuState := Toggle(s.menuState, File)), NoEffect)
    case EditMenuToggled => Step(s.(menuState := Toggle(s.menuState, Edit)), NoEffect)
    case FormatMenuToggled => Step(s.(menuState := Toggle(s.menuState, Format)), NoEffect)
    case ViewMenuToggled => Step(s.(menuState := Toggle(s.menuState, View)), NoEffect)
    case HelpMenuToggled => Step(s.(menuState := Toggle(s.menuState, Help)), NoEffect)
    case CloseAllMenus => Step(CloseMenus(s), NoEffect)
    case MenuHovered(hovered) =>
      if s.menuState != MenuState.None && s.menuState != hovered then
        Step(s.(menuState := hovered), NoEffect)
      else Step(s, NoEffect)
  }

  /** A toolkit event: keys re-dispatch as the message they stand for, the Ctrl+wheel zooms. */
  function HandleEvent(s: State, ev: InputEvent, env: Env): (r: Step)
    decreases 1
    ensures !r.effect.ExitProcess?
    ensures r.state.currentFile == s.currentFile || r.state.currentFile.None?
  {
    if ev.KeyPressed? then
      var ctrl := CtrlHeld(ev.modifiers);
      var s1 := s.(ctrlPressed := ctrl);
      if ev.key == Named(Escape) then Step(CloseMenus(s1), NoEffect)
      else if ctrl && Shortcut(ev.key).Some? then Update(s1, Shortcut(ev.key).value, env)
      else if ev.key == Named(F5) then Update(s1, TimeDate, env)
      else if ev.key == Named(DeleteKey) then Update(s1, Delete, env)
      else Step(s1, NoEffect)
    else if ev.KeyReleased? then
      Step(s.(ctrlPressed := CtrlHeld(ev.modifiers)), NoEffect)
    else if ev.WheelScrolled? then
      if s.ctrlPressed && ev.delta.y != 0.0 then Update(s, MouseScroll(ev.delta.y), env)
      else Step(s, NoEffect)
    else Step(s, NoEffect)
  }

  /** One update step; `FontLoaded` only logs a failure, so it changes nothing. */
  function Update(s: State, msg: Message, env: Env): (r: Step)
    decreases if msg.Event? then 2 else 0
    ensures r.effect.ExitProcess? <==> msg.Exit?
    ensures !msg.Event? ==> r.state.ctrlPressed == s.ctrlPressed
    ensures r.state.currentFile != s.currentFile ==>
      msg.FileOpened? || msg.FileSaved? || r.state.currentFile.None?
  {
    if msg.Event? then HandleEvent(s, msg.event, env)
    else if IsFileMessage(msg) then ApplyFile(s, msg)
    else if IsEditMessage(msg) then ApplyEdit(s, msg, env)
    else if IsViewMessage(msg) then ApplyView(s, msg)
    else if IsMenuMessage(msg) then ApplyMenu(s, msg)
    else Step(s, NoEffect)
  }

  /** One message together with what the environment looked like when it arrived. */
  datatype Input = Input(msg: Message, env: Env)

  /** The state after a sequence of inputs, ignoring the effects requested on the way. */
  function Run(s: State, inputs: seq<Input>): State
    decreases |inputs|
  {
    if inputs == [] then s else Run(Update(s, inputs[0].msg, inputs[0].env).state, inputs[1..])
  }

  /**
   The status bar's line/column pair, scanned over the whole text: the
   line is one more than the number of line breaks, the column is the
   width of the last line, at least 1. The caret plays no part.
   */
  method GetCursorPosition(s: State) returns (line: nat, column: nat)
    ensures line == 1 + multiset(s.content.text)['\n']
    ensures column == if |LastLine(s.content.text)| > 1 then |LastLine(s.content.text)| else 1
    ensures (line, column) == CursorPosition(s.content.text)
  {
    var text := s.content.text;
    line := 1;
    var col: nat := 1;
    var i := 0;
    while i < |text|
      invariant 0 <= i <= |text|
      invariant line == 1 + CountNewlines(text[..i])
      invariant col == 1 + |LastLine(text[..i])|
    {
      assert text[..i + 1][..i] == text[..i];
      if text[i] == '\n' {
        line := line + 1;
        col := 1;
      } else {
        col := col + 1;
      }
      i := i + 1;
    }
    assert text[..i] == text;
    CountNewlinesIsMultiplicity(text);
    column := if col - 1 > 1 then col - 1 else 1;
  }
}
