/**
 Properties of the notepad's update step: the zoom invariant over any
 message sequence, the menu toggle and hover rules, the modified-flag
 lifecycle, keyboard dispatch, and the shape of the window title.
 */
module AppProperties {
  import opened Wrappers
  import opened Paths
  import opened Font
  import opened Messages
  import opened TextLines
  import opened App

  // ---------------------------------------------------------------- zoom

  /** On the 10-percent grid, one step toward a bound never passes it. */
  lemma GridStep(z: i16)
    requires MinZoomLevel <= z <= MaxZoomLevel && z as int % 10 == 0
    ensures z < MaxZoomLevel ==> z + 10 <= MaxZoomLevel && (z + 10) as int % 10 == 0
    ensures z > MinZoomLevel ==> z - 10 >= MinZoomLevel && (z - 10) as int % 10 == 0
  {
  }

  /** Zooming in by the menu or the keyboard keeps the zoom invariant. */
  lemma ZoomInPreservesZoom(s: State)
    requires ZoomValid(s)
    ensures ZoomValid(ApplyView(s, ZoomIn).state)
  {
    GridStep(s.zoomLevel);
  }

  /** Zooming out by the menu or the keyboard keeps the zoom invariant. */
  lemma ZoomOutPreservesZoom(s: State)
    requires ZoomValid(s)
    ensures ZoomValid(ApplyView(s, ZoomOut).state)
  {
    GridStep(s.zoomLevel);
  }

  /** Moving to a grid point inside the bounds gives a valid zoom. */
  lemma ZoomToGridPoint(s: State, z: i16)
    requires MinZoomLevel <= z <= MaxZoomLevel && z as int % 10 == 0
    ensures ZoomValid(ZoomTo(s, z))
  {
  }

  /** Ctrl+wheel zooming keeps the zoom invariant. */
  lemma ScrollPreservesZoom(s: State, delta: real)
    requires ZoomValid(s)
    ensures ZoomValid(ApplyView(s, MouseScroll(delta)).state)
  {
    GridStep(s.zoomLevel);
    assert ApplyView(s, MouseScroll(delta)).state == Scroll(s, delta);
    if delta > 0.0 && s.zoomLevel < MaxZoomLevel {
      ZoomToGridPoint(s, s.zoomLevel + 10);
    } else if delta <= 0.0 && s.zoomLevel > MinZoomLevel {
      ZoomToGridPoint(s, s.zoomLevel - 10);
    }
  }

  /** The view commands keep the zoom invariant; the other commands there leave the zoom alone. */
  lemma ViewCommandPreservesZoom(s: State, msg: Message)
    requires IsViewMessage(msg) && ZoomValid(s)
    ensures ZoomValid(ApplyView(s, msg).state)
  {
    if msg.ZoomIn? {
      ZoomInPreservesZoom(s);
    } else if msg.ZoomOut? {
      ZoomOutPreservesZoom(s);
    } else if msg.MouseScroll? {
      ScrollPreservesZoom(s, msg.scroll);
    } else if msg.ZoomReset? {
      DefaultZoomGivesDefaultSize();
    }
  }

  /** Every update keeps the zoom fields on the grid, inside the bounds, and in agreement. */
  lemma UpdatePreservesZoom(s: State, msg: Message, env: Env)
    requires ZoomValid(s)
    ensures ZoomValid(Update(s, msg, env).state)
    decreases if msg.Event? then 2 else 0
  {
    if msg.Event? {
      EventPreservesZoom(s, msg.event, env);
    } else {
      CommandPreservesZoom(s, msg, env);
    }
  }

  /** Messages other than events keep the zoom invariant: only the view group touches the zoom. */
  lemma CommandPreservesZoom(s: State, msg: Message, env: Env)
    requires ZoomValid(s) && !msg.Event?
    ensures ZoomValid(Update(s, msg, env).state)
  {
    var r := Update(s, msg, env);
    if IsFileMessage(msg) {
      assert r == ApplyFile(s, msg);
    } else if IsEditMessage(msg) {
      assert r == ApplyEdit(s, msg, env);
    } else if IsViewMessage(msg) {
      assert r == ApplyView(s, msg);
      ViewCommandPreservesZoom(s, msg);
    } else {
      assert r.state.zoomLevel == s.zoomLevel && r.state.fontSize == s.fontSize;
    }
  }

  /** Key and wheel events keep the zoom invariant, through the message they stand for. */
  lemma EventPreservesZoom(s: State, ev: InputEvent, env: Env)
    requires ZoomValid(s)
    ensures ZoomValid(HandleEvent(s, ev, env).state)
    decreases 1
  {
    if ev.KeyPressed? {
      var s1 := s.(ctrlPressed := CtrlHeld(ev.modifiers));
      if ev.key == Named(Escape) {
      } else if s1.ctrlPressed && Shortcut(ev.key).Some? {
        UpdatePreservesZoom(s1, Shortcut(ev.key).value, env);
      } else if ev.key == Named(F5) {
        UpdatePreservesZoom(s1, TimeDate, env);
      } else if ev.key == Named(DeleteKey) {
        UpdatePreservesZoom(s1, Delete, env);
      }
    } else if ev.WheelScrolled? && s.ctrlPressed && ev.delta.y != 0.0 {
      UpdatePreservesZoom(s, MouseScroll(ev.delta.y), env);
    }
  }

  /** The zoom invariant holds after any sequence of inputs from a valid state. */
  lemma {:induction false} RunPreservesZoom(s: State, inputs: seq<Input>)
    requires ZoomValid(s)
    ensures ZoomValid(Run(s, inputs))
    decreases |inputs|
  {
    if inputs != [] {
      UpdatePreservesZoom(s, inputs[0].msg, inputs[0].env);
      RunPreservesZoom(Update(s, inputs[0].msg, inputs[0].env).state, inputs[1..]);
    }
  }

  /** From a fresh window, the zoom stays a multiple of 10 in [50, 500] whatever happens. */
  lemma ReachableZoomBounded(inputs: seq<Input>)
    ensures 50 <= Run(Default(), inputs).zoomLevel <= 500
    ensures Run(Default(), inputs).zoomLevel as int % 10 == 0
    ensures Run(Default(), inputs).fontSize == CalculateFontSize(Run(Default(), inputs).zoomLevel)
  {
    RunPreservesZoom(Default(), inputs);
  }

  /** Zooming in at the maximum, or out at the minimum, only closes the menus. */
  lemma ZoomSaturatesAtBounds(s: State, env: Env)
    ensures s.zoomLevel == MaxZoomLevel ==> Update(s, ZoomIn, env) == Step(CloseMenus(s), NoEffect)
    ensures s.zoomLevel == MinZoomLevel ==> Update(s, ZoomOut, env) == Step(CloseMenus(s), NoEffect)
  {
  }

  /** Below the maximum, zooming out undoes zooming in (apart from closing the menus). */
  lemma ZoomOutUndoesZoomIn(s: State, env: Env)
    requires ZoomValid(s) && s.zoomLevel < MaxZoomLevel
    ensures Update(Update(s, ZoomIn, env).state, ZoomOut, env).state == CloseMenus(s)
  {
  }

  /** Resetting the zoom gives 100 percent and the default size, and closes the menus; nothing else changes. */
  lemma ZoomResetRestoresDefault(s: State, env: Env)
    ensures Update(s, ZoomReset, env).state.zoomLevel == DefaultZoomLevel == 100
    ensures Update(s, ZoomReset, env).state.fontSize == DefaultFontSize == CalculateFontSize(100)
    ensures Update(s, ZoomReset, env).state.menuState == MenuState.None
    ensures Update(s, ZoomReset, env).state
            == ZoomTo(CloseMenus(s), DefaultZoomLevel)
  {
    DefaultZoomGivesDefaultSize();
  }

  /**
   On valid states a Ctrl+wheel step up moves the zoom exactly as the zoom-in
   command does, but leaves an open menu open.
   */
  lemma WheelUpMatchesZoomIn(s: State, delta: real, env: Env)
    requires ZoomValid(s) && delta > 0.0
    ensures Update(s, MouseScroll(delta), env).state == Update(s, ZoomIn, env).state.(menuState := s.menuState)
  {
    ScrollUpMatchesZoomIn(s, delta);
    assert Update(s, MouseScroll(delta), env) == ApplyView(s, MouseScroll(delta));
    assert Update(s, ZoomIn, env) == ApplyView(s, ZoomIn);
  }

  /** On the grid, a wheel step up lands where the zoom-in command does. */
  lemma ScrollUpMatchesZoomIn(s: State, delta: real)
    requires ZoomValid(s) && delta > 0.0
    ensures Scroll(s, delta) == ApplyView(s, ZoomIn).state.(menuState := s.menuState)
  {
    GridStep(s.zoomLevel);
  }

  /** Likewise a Ctrl+wheel step down (or a zero step) and the zoom-out command. */
  lemma WheelDownMatchesZoomOut(s: State, delta: real, env: Env)
    requires ZoomValid(s) && delta <= 0.0
    ensures Update(s, MouseScroll(delta), env).state == Update(s, ZoomOut, env).state.(menuState := s.menuState)
  {
    ScrollDownMatchesZoomOut(s, delta);
    assert Update(s, MouseScroll(delta), env) == ApplyView(s, MouseScroll(delta));
    assert Update(s, ZoomOut, env) == ApplyView(s, ZoomOut);
  }

  /** On the grid, a wheel step down lands where the zoom-out command does. */
  lemma ScrollDownMatchesZoomOut(s: State, delta: real)
    requires ZoomValid(s) && delta <= 0.0
    ensures Scroll(s, delta) == ApplyView(s, ZoomOut).state.(menuState := s.menuState)
  {
    GridStep(s.zoomLevel);
  }

  /**
   Off the grid the two differ: from 495 the wheel stops at 500 while the
   zoom command goes past the maximum. No such state is reachable.
   */
  lemma ZoomCommandOvershootsOffGrid(s: State, env: Env)
    requires s.zoomLevel == 495
    ensures Update(s, ZoomIn, env).state.zoomLevel == 505 > MaxZoomLevel
    ensures Update(s, MouseScroll(1.0), env).state.zoomLevel == MaxZoomLevel
  {
  }

  // ---------------------------------------------------------------- menus

  predicate IsMenuToggle(msg: Message)
  {
    msg.FileMenuToggled? || msg.EditMenuToggled? || msg.FormatMenuToggled?
    || msg.ViewMenuToggled? || msg.HelpMenuToggled?
  }

  /** The menu whose button sends `msg`. */
  function ToggledMenu(msg: Message): (m: MenuState)
    requires IsMenuToggle(msg)
    ensures m != MenuState.None
  {
    if msg.FileMenuToggled? then File
    else if msg.EditMenuToggled? then Edit
    else if msg.FormatMenuToggled? then Format
    else if msg.ViewMenuToggled? then View
    else Help
  }

  /** Pressing a menu button closes that menu if it was open and opens it otherwise; nothing else changes. */
  lemma MenuToggleOpensOrCloses(s: State, msg: Message, env: Env)
    requires IsMenuToggle(msg)
    ensures s.menuState == ToggledMenu(msg) ==> Update(s, msg, env) == Step(CloseMenus(s), NoEffect)
    ensures s.menuState != ToggledMenu(msg) ==>
      Update(s, msg, env) == Step(s.(menuState := ToggledMenu(msg)), NoEffect)
  {
  }

  /**
   Pressing the same menu button twice restores the state when no menu or
   that menu was open; with another menu open, it leaves all menus closed.
   */
  lemma MenuToggleTwice(s: State, msg: Message, env: Env)
    requires IsMenuToggle(msg)
    ensures s.menuState == MenuState.None || s.menuState == ToggledMenu(msg) ==>
      Update(Update(s, msg, env).state, msg, env).state == s
    ensures s.menuState != MenuState.None && s.menuState != ToggledMenu(msg) ==>
      Update(Update(s, msg, env).state, msg, env).state == CloseMenus(s)
  {
    MenuToggleOpensOrCloses(s, msg, env);
    MenuToggleOpensOrCloses(Update(s, msg, env).state, msg, env);
  }

  /**
   Hovering a menu button switches to that menu when some menu is open and
   does nothing when none is: it never opens a menu from the closed state.
   */
  lemma HoverSwitchesOnlyOpenMenus(s: State, h: MenuState, env: Env)
    ensures s.menuState == MenuState.None ==> Update(s, MenuHovered(h), env) == Step(s, NoEffect)
    ensures s.menuState != MenuState.None ==>
      Update(s, MenuHovered(h), env) == Step(s.(menuState := h), NoEffect)
  {
  }

  /** No menu is open at start, so hovering changes nothing until a menu is clicked open. */
  lemma DefaultHoverIgnored(h: MenuState, env: Env)
    ensures Default().menuState == MenuState.None
    ensures Update(Default(), MenuHovered(h), env) == Step(Default(), NoEffect)
  {
  }

  /** Hovering twice over the same button is the same as hovering once. */
  lemma HoverIdempotent(s: State, h: MenuState, env: Env)
    ensures Update(Update(s, MenuHovered(h), env).state, MenuHovered(h), env)
            == Update(s, MenuHovered(h), env)
  {
    HoverSwitchesOnlyOpenMenus(s, h, env);
    HoverSwitchesOnlyOpenMenus(Update(s, MenuHovered(h), env).state, h, env);
  }

  /** Every menu item except Save and Exit, and the closing click, leaves every menu closed. */
  lemma MenuCommandsCloseMenus(s: State, msg: Message, env: Env)
    requires msg.NewFile? || msg.OpenFile? || msg.SaveFileAs? || msg.Undo? || msg.Cut?
             || msg.Copy? || msg.Paste? || msg.Delete? || msg.SelectAll? || msg.TimeDate?
             || msg.WordWrapToggled? || msg.ZoomIn? || msg.ZoomOut? || msg.ZoomReset?
             || msg.StatusBarToggled? || msg.About? || msg.CloseAllMenus?
    ensures Update(s, msg, env).state.menuState == MenuState.None
  {
    if IsFileMessage(msg) {
      assert Update(s, msg, env) == ApplyFile(s, msg);
    } else if IsEditMessage(msg) {
      assert Update(s, msg, env) == ApplyEdit(s, msg, env);
    } else if IsViewMessage(msg) {
      assert Update(s, msg, env) == ApplyView(s, msg);
    } else {
      assert Update(s, msg, env) == ApplyMenu(s, msg);
    }
  }

  // ---------------------------------------------------------------- modified flag

  /** A new document, a successful open and a successful save all leave the document unmodified. */
  lemma FileLifecycleClearsModified(s: State, env: Env, path: Path, text: string)
    ensures !Update(s, NewFile, env).state.isModified
    ensures Update(s, NewFile, env).state.content == NewContent()
    ensures Update(s, NewFile, env).state.currentFile.None?
    ensures !Update(s, FileOpened(Ok((path, text))), env).state.isModified
    ensures Update(s, FileOpened(Ok((path, text))), env).state.content.text == text
    ensures Update(s, FileOpened(Ok((path, text))), env).state.content.selection.None?
    ensures Update(s, FileOpened(Ok((path, text))), env).state.currentFile == Some(path)
    ensures !Update(s, FileSaved(Ok(path)), env).state.isModified
    ensures Update(s, FileSaved(Ok(path)), env).state.content == s.content
    ensures Update(s, FileSaved(Ok(path)), env).state.currentFile == Some(path)
  {
  }

  /** A new document shows the cursor at line 1, column 1. */
  lemma NewDocumentCursorAtOrigin(s: State, env: Env)
    ensures CursorPosition(Update(s, NewFile, env).state.content.text) == (1, 1)
  {
  }

  /**
   The edits that change the text through the editor mark the document
   modified whatever the text becomes: Delete, the timestamp, a cut of a
   selection and any clipboard paste that returns text.
   */
  lemma EditsMarkModified(s: State, env: Env, t: string)
    ensures Update(s, Delete, env).state.isModified
    ensures Update(s, TimeDate, env).state.isModified
    ensures Update(s, ClipboardPaste(Some(t)), env).state.isModified
    ensures s.content.selection.Some? ==>
      Update(s, Cut, env).state.isModified
      && Update(s, Cut, env).effect == WriteClipboard(s.content.selection.value)
  {
  }

  /**
   Save changes nothing until the write is answered, not even the open
   menu, and writes the current text to the current file or asks where.
   */
  lemma SaveLeavesStateAlone(s: State, env: Env)
    ensures Update(s, SaveFile, env).state == s
    ensures Update(s, SaveFile, env).state.menuState == s.menuState
    ensures var e := Update(s, SaveFile, env).effect;
      (e.WriteFile? || e.PickAndWriteFile?) && e.text == s.content.text
      && (e.WriteFile? <==> s.currentFile.Some?)
      && (e.WriteFile? ==> e.path == s.currentFile.value)
  {
  }

  /** A failed open or save changes nothing and asks for nothing. */
  lemma FailedFileResultChangesNothing(s: State, env: Env, e: string)
    ensures Update(s, FileOpened(Err(e)), env) == Step(s, NoEffect)
    ensures Update(s, FileSaved(Err(e)), env) == Step(s, NoEffect)
  {
  }

  /** An editor action marks the document modified exactly when it changes the text, and never clears the mark. */
  lemma EditorActionTracksChange(s: State, action: Content -> Content, env: Env)
    ensures Update(s, EditorAction(action), env).state.isModified
            <==> s.isModified || action(s.content).text != s.content.text
    ensures s.isModified ==> Update(s, EditorAction(action), env).state.isModified
    ensures Update(s, EditorAction(action), env).state.content == action(s.content)
  {
  }

  /** Selecting all moves the selection but keeps the text, as the editor widget does. */
  ghost predicate SelectAllKeepsText(editor: Editor)
  {
    forall c :: editor.selectAll(c).text == c.text
  }

  /** A request for a new document: the File menu command, or Ctrl+N. */
  predicate StartsNewDocument(msg: Message)
  {
    msg.NewFile?
    || (msg.Event? && msg.event.KeyPressed? && CtrlHeld(msg.event.modifiers)
        && Shortcut(msg.event.key) == Some(NewFile))
  }

  /**
   A change of the text made by `msg` either marks the document modified, or
   is one of the two wholesale replacements that start an unmodified buffer:
   a new empty document asked for by `msg`, or the text of the file `msg`
   reports as opened.
   */
  predicate ChangeAccountedFor(s: State, msg: Message, r: State)
  {
    r.content.text != s.content.text ==>
      r.isModified
      || (StartsNewDocument(msg) && r.content == NewContent() && r.currentFile.None?)
      || (msg.FileOpened? && msg.openResult.Ok?
          && r.content == ContentWithText(msg.openResult.value.1)
          && r.currentFile == Some(msg.openResult.value.0))
  }

  /**
   Every change of the text either marks the document modified or replaces
   the buffer wholesale: a new empty document, or an opened file.
   */
  lemma TextChangeMarksModified(s: State, msg: Message, env: Env)
    requires SelectAllKeepsText(env.editor)
    ensures ChangeAccountedFor(s, msg, Update(s, msg, env).state)
    decreases if msg.Event? then 2 else 0
  {
    if msg.Event? {
      EventChangeMarksModified(s, msg.event, env);
    } else {
      CommandChangeMarksModified(s, msg, env);
    }
  }

  /** The same for messages other than events; select-all is the one edit that keeps the text unmarked. */
  lemma CommandChangeMarksModified(s: State, msg: Message, env: Env)
    requires SelectAllKeepsText(env.editor) && !msg.Event?
    ensures ChangeAccountedFor(s, msg, Update(s, msg, env).state)
  {
    var r := Update(s, msg, env);
    if IsFileMessage(msg) {
      assert r == ApplyFile(s, msg);
      FileChangeAccountedFor(s, msg);
    } else if IsEditMessage(msg) {
      assert r == ApplyEdit(s, msg, env);
      EditChangeAccountedFor(s, msg, env);
    } else {
      assert r.state.content == s.content;
    }
  }

  /** File commands replace the text only with a new document or an opened file. */
  lemma FileChangeAccountedFor(s: State, msg: Message)
    requires IsFileMessage(msg)
    ensures ChangeAccountedFor(s, msg, ApplyFile(s, msg).state)
  {
  }

  /** Edit commands that change the text mark the document modified. */
  lemma EditChangeAccountedFor(s: State, msg: Message, env: Env)
    requires IsEditMessage(msg) && SelectAllKeepsText(env.editor)
    ensures ChangeAccountedFor(s, msg, ApplyEdit(s, msg, env).state)
  {
    if msg.SelectAll? {
      assert env.editor.selectAll(s.content).text == s.content.text;
    }
  }

  /**
   Key and wheel events account for text changes through the message they
   stand for; no event opens a file, so only Ctrl+N replaces the buffer.
   */
  lemma EventChangeMarksModified(s: State, ev: InputEvent, env: Env)
    requires SelectAllKeepsText(env.editor)
    ensures ChangeAccountedFor(s, Event(ev), HandleEvent(s, ev, env).state)
    decreases 1
  {
    if ev.KeyPressed? {
      var s1 := s.(ctrlPressed := CtrlHeld(ev.modifiers));
      if ev.key == Named(Escape) {
      } else if s1.ctrlPressed && Shortcut(ev.key).Some? {
        TextChangeMarksModified(s1, Shortcut(ev.key).value, env);
      } else if ev.key == Named(F5) {
        TextChangeMarksModified(s1, TimeDate, env);
      } else if ev.key == Named(DeleteKey) {
        TextChangeMarksModified(s1, Delete, env);
      }
    } else if ev.WheelScrolled? && s.ctrlPressed && ev.delta.y != 0.0 {
      TextChangeMarksModified(s, MouseScroll(ev.delta.y), env);
    }
  }

  /** With an insert that appends at the end, inserting a string appends it. */
  lemma {:induction false} InsertAllAppends(c: Content, t: string, insert: (Content, char) -> Content)
    requires forall c': Content, ch: char :: insert(c', ch).text == c'.text + [ch]
    ensures InsertAll(c, t, insert).text == c.text + t
    decreases |t|
  {
    if t != [] {
      InsertAllAppends(insert(c, t[0]), t[1..], insert);
      assert t == [t[0]] + t[1..];
    }
  }

  /** Inserting `t` and then `u` character by character is inserting `t + u`. */
  lemma {:induction false} InsertAllComposes(c: Content, t: string, u: string,
                                             insert: (Content, char) -> Content)
    ensures InsertAll(InsertAll(c, t, insert), u, insert) == InsertAll(c, t + u, insert)
    decreases |t|
  {
    if t != [] {
      InsertAllComposes(insert(c, t[0]), t[1..], u, insert);
      assert (t + u)[0] == t[0] && (t + u)[1..] == t[1..] + u;
    } else {
      assert t + u == u;
    }
  }

  // ---------------------------------------------------------------- keyboard

  /** Escape closes the menus, whatever modifiers are held, and records them. */
  lemma EscapeClosesMenus(s: State, m: Modifiers, env: Env)
    ensures Update(s, Event(KeyPressed(Named(Escape), m)), env)
            == Step(s.(ctrlPressed := CtrlHeld(m), menuState := MenuState.None), NoEffect)
  {
  }

  /** A chord with a shortcut does exactly what its message does, after recording the modifiers. */
  lemma ShortcutDispatches(s: State, key: Key, m: Modifiers, env: Env)
    requires CtrlHeld(m) && Shortcut(key).Some?
    ensures Update(s, Event(KeyPressed(key, m)), env)
            == Update(s.(ctrlPressed := true), Shortcut(key).value, env)
  {
  }

  /** Letter shortcuts ignore case; Ctrl with `+` and with `=` both zoom in. */
  lemma ShortcutsIgnoreCase()
    ensures Shortcut(Character("n")).value.NewFile? && Shortcut(Character("N")).value.NewFile?
    ensures Shortcut(Character("o")).value.OpenFile? && Shortcut(Character("O")).value.OpenFile?
    ensures Shortcut(Character("s")).value.SaveFile? && Shortcut(Character("S")).value.SaveFile?
    ensures Shortcut(Character("a")).value.SelectAll? && Shortcut(Character("A")).value.SelectAll?
    ensures Shortcut(Character("z")).value.Undo? && Shortcut(Character("Z")).value.Undo?
    ensures Shortcut(Character("x")).value.Cut? && Shortcut(Character("X")).value.Cut?
    ensures Shortcut(Character("c")).value.Copy? && Shortcut(Character("C")).value.Copy?
    ensures Shortcut(Character("v")).value.Paste? && Shortcut(Character("V")).value.Paste?
  {
  }

  /** `+` and `=` both zoom in, `-` zooms out, `0` resets; other keys have no shortcut. */
  lemma ShortcutSymbols()
    ensures Shortcut(Character("+")).value.ZoomIn? && Shortcut(Character("=")).value.ZoomIn?
    ensures Shortcut(Character("-")).value.ZoomOut? && Shortcut(Character("0")).value.ZoomReset?
    ensures Shortcut(Character("q")).None? && Shortcut(Named(F5)).None?
  {
  }

  /** Exactly the eight bound letters in either case, and `+`, `=`, `-`, `0`, form a shortcut. */
  lemma ShortcutKeySet(k: Key)
    ensures Shortcut(k).Some? <==>
      k.Character? && |k.chars| == 1 && k.chars[0] in "nNoOsS+=-0aAzZxXcCvV"
  {
  }

  /** Ctrl+N from any state starts an empty, unmodified, untitled document. */
  lemma CtrlNStartsNewDocument(s: State, env: Env)
    ensures var r := Update(s, Event(KeyPressed(Character("n"), Modifiers(true, false))), env);
      r.state.content == NewContent() && !r.state.isModified && r.state.currentFile.None?
      && r.state.ctrlPressed && r.effect == NoEffect
  {
  }

  /** Ctrl+Z is bound but only closes the menus: undo is not implemented. */
  lemma CtrlZOnlyClosesMenus(s: State, env: Env)
    ensures Update(s, Event(KeyPressed(Character("z"), Modifiers(true, false))), env)
            == Step(s.(ctrlPressed := true, menuState := MenuState.None), NoEffect)
  {
  }

  /** A plain character key only records that Ctrl is up; typing reaches the text as editor actions. */
  lemma PlainKeyOnlyRecordsModifiers(s: State, c: string, env: Env)
    ensures Update(s, Event(KeyPressed(Character(c), Modifiers(false, false))), env)
            == Step(s.(ctrlPressed := false), NoEffect)
  {
  }

  /** F5 inserts the clock reading, with or without Ctrl, and marks the document modified. */
  lemma F5InsertsTimestamp(s: State, m: Modifiers, env: Env)
    ensures var r := Update(s, Event(KeyPressed(Named(F5), m)), env).state;
      r.isModified && r.content == InsertAll(s.content, env.now, env.editor.insert)
      && r.ctrlPressed == CtrlHeld(m)
  {
    var s1 := s.(ctrlPressed := CtrlHeld(m));
    assert Shortcut(Named(F5)).None?;
    assert HandleEvent(s, KeyPressed(Named(F5), m), env) == Update(s1, TimeDate, env);
  }

  /** Releasing a key only records the modifiers. */
  lemma KeyReleaseOnlyRecordsModifiers(s: State, m: Modifiers, env: Env)
    ensures Update(s, Event(KeyReleased(m)), env) == Step(s.(ctrlPressed := CtrlHeld(m)), NoEffect)
  {
  }

  /** The wheel zooms only while Ctrl is held and the movement is vertical. */
  lemma WheelZoomsOnlyWithCtrl(s: State, d: ScrollDelta, env: Env)
    ensures !s.ctrlPressed || d.y == 0.0 ==>
      Update(s, Event(WheelScrolled(d)), env) == Step(s, NoEffect)
    ensures s.ctrlPressed && d.y != 0.0 ==>
      Update(s, Event(WheelScrolled(d)), env) == Update(s, MouseScroll(d.y), env)
  {
  }

  // ---------------------------------------------------------------- title

  /** Reads a title back into its modified mark and its name. */
  function ParseTitle(t: string): (r: Option<(bool, string)>)
    ensures r.Some? ==> r.value.0 ==> |t| > |TitleSuffix| && t[0] == '*'
  {
    if |t| < |TitleSuffix| || t[|t| - |TitleSuffix|..] != TitleSuffix then Option.None
    else
      var body := t[..|t| - |TitleSuffix|];
      if |body| > 0 && body[0] == '*' then Some((true, body[1..])) else Some((false, body))
  }

  /** A fresh window is titled "Untitled - MemoChan". */
  lemma DefaultTitle()
    ensures Title(Default()) == Some("Untitled - MemoChan")
  {
    assert "" + "Untitled" + TitleSuffix == "Untitled - MemoChan";
  }

  /**
   The title carries the modified mark and the name: reading it back gives
   both, as long as a clean file's name does not itself start with `*`.
   */
  lemma TitleRoundTrip(s: State)
    requires DisplayName(s).Some?
    requires s.isModified || |DisplayName(s).value| == 0 || DisplayName(s).value[0] != '*'
    ensures ParseTitle(Title(s).value) == Some((s.isModified, DisplayName(s).value))
  {
    var name := DisplayName(s).value;
    var t := Title(s).value;
    var body := (if s.isModified then "*" else "") + name;
    assert t == body + TitleSuffix;
    assert t[..|t| - |TitleSuffix|] == body;
    assert t[|t| - |TitleSuffix|..] == TitleSuffix;
    if s.isModified {
      assert body[0] == '*' && body[1..] == name;
    } else {
      assert body == name;
    }
  }

  /** The title of a saved file is its final path component, after the modified mark. */
  lemma TitleShowsFileName(s: State, dir: string, n: string)
    requires IsNormalName(n) && s.currentFile == Some(Path(dir + "/" + n))
    ensures Title(s) == Some((if s.isModified then "*" else "") + n + TitleSuffix)
  {
    JoinedNameIsFileName(dir, n);
  }

  /** A clean file named `*a` and a modified file named `a` get the same title. */
  lemma ModifiedMarkIsAmbiguous(s: State)
    requires s.currentFile == Some(Path("*a")) && !s.isModified
    ensures Title(s) == Title(s.(currentFile := Some(Path("a")), isModified := true))
  {
    BareNameIsFileName("*a");
    BareNameIsFileName("a");
    assert "" + "*a" == "*" + "a";
  }
}
