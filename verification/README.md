# MemoChan notepad core, in Dafny

A model of the state machine behind MemoChan, a small Notepad-style text
editor. The model covers:

- the `Notepad` record and its `update` step: file commands, edit commands,
  zoom, menus, the about dialog, keyboard shortcuts and Ctrl+wheel zoom;
- the window title;
- the status bar's line/column computation;
- the three-way theme mode and the palette it selects;
- the font-size constants and the zoom-to-point-size conversion.

The update step is a pure function `Update(state, message, env)`. It returns
the new state together with an `Effect`. The effect is what the real program
hands to its async runtime: a file dialog, a file write, a clipboard access,
or process exit. The results of those effects come back as later messages
(`FileOpened`, `FileSaved`, `ClipboardPaste`). The editor widget's own edit
primitives and the wall clock reach the step through `env`.

Files:

- `font.dfy`: module `Font`. Zoom constants, an `i16` newtype for the zoom
  level, `CalculateFontSize` over `real`.
- `theme.dfy`: module `Theme`. `ThemeMode`, `Name`, `IsDark`, `Next`, the two
  palettes, `ForMode`.
- `message.dfy`: module `Messages`. `MenuState`, the editor buffer
  `Content`, keys, modifiers, wheel deltas, and the `Message` enum.
- `paths.dfy`: module `Paths`. The final-component rule behind
  `Path::file_name`, for `/`-separated paths.
- `text_lines.dfy`: module `TextLines`. Newline counting and the last line of
  a text.
- `app.dfy`: module `App`. `State`, `Default`, `Title`, the grouped update
  functions, `Update`, `Run`, and the `GetCursorPosition` loop.
- `app_properties.dfy`: module `AppProperties`. Lemmas about `Update`: the
  zoom invariant over any message sequence, menus, the modified flag,
  keyboard dispatch, the title.
- `wrappers.dfy`: module `Wrappers`. `Option` and `Result`.

Behaviour worth knowing, all proved below:

- The status bar position does not depend on the caret. It is computed from
  the whole text. The line is 1 plus the number of line breaks. The column
  is the width of the last line, but at least 1. So `""` and `"a"` both show
  column 1, and `"hello"` shows column 5.
- Ctrl+Z is bound, but `Undo` only closes the menus.
- `Delete`, `Cut` with a selection, `TimeDate` and any clipboard paste that
  returns text (even empty text) always mark the document modified. An `EditorAction` marks it
  modified only when the text actually changed.
- `SaveFile` does not close an open menu, although `SaveFileAs` does.
- Ctrl+wheel steps clamp to the zoom bounds. The `ZoomIn`/`ZoomOut` commands
  only test the bound before stepping. The two agree on every state reachable
  from the default one, because the zoom stays a multiple of 10 there.
- A clean file named `*a` and a modified file named `a` have the same title.

## Model

| member | source | states |
|---|---|---|
| Font.CalculateFontSize | src/config/font.rs:8-10 | the size is at least 8, at least the scaled default, and equals one of the two |
| Font.ZoomBoundsOrdered | src/config/font.rs:4-6 | 50 < 100 < 500, all three multiples of 10 |
| Font.DefaultZoomGivesDefaultSize | src/config/font.rs:2-4 | zoom 100 gives exactly the default size 14 |
| Font.FontSizeMonotonic | src/config/font.rs:9 | a larger zoom never gives a smaller font |
| Font.ClampThreshold | src/config/font.rs:9 | from 58 percent up the size is 14·z/100; below 58 it is 8 |
| Font.MinZoomIsClamped | src/config/font.rs:3-6 | at zoom 50 the raw size 7 is raised to 8 |
| Font.OnlyMinZoomClampedInRange | src/config/font.rs:5-9 | on the 10-percent grid in [50, 500], only 50 is clamped; sizes never exceed 70 |
| Theme.DefaultModeFollowsOs | src/theme/theme.rs:3-9 | a fresh configuration renders dark exactly when the OS prefers dark, and picks the matching palette |
| Theme.Name | src/theme/theme.rs:12-18 | the label is "System" exactly for `System` |
| Theme.NameInjective | src/theme/theme.rs:12-18 | distinct modes have distinct labels |
| Theme.IsDark | src/theme/theme.rs:20-26 | `Dark` is dark, `Light` is not, `System` follows the OS flag |
| Theme.OnlySystemFollowsOs | src/theme/theme.rs:20-26 | the OS flag matters for a mode iff the mode is `System` |
| Theme.Next | src/theme/theme.rs:29-35 | the next mode always differs from the current one |
| Theme.NextCyclesWithPeriodThree | src/theme/theme.rs:29-35 | three presses return to the start; two do not |
| Theme.ForMode | src/theme/theme.rs:81-87 | the dark palette iff the mode renders dark, otherwise the light palette |
| Theme.PalettesDistinct | src/theme/theme.rs:53-79 | the two palettes differ and both backgrounds are opaque |
| Paths.LastSlash | src/app.rs:56 | the position found holds the last `/` of the path, with none after it; none is found only in a path without `/` |
| Paths.FileNameOf | src/app.rs:56 | a file name is never empty, `.`, `..` or contains `/` |
| Paths.BareNameIsFileName | src/app.rs:56 | a bare normal name is its own file name |
| Paths.JoinedNameIsFileName | src/app.rs:56 | `dir/name` has file name `name` |
| Paths.TrailingSeparatorIgnored | src/app.rs:56 | a trailing `/` or `/.` does not change the file name |
| Paths.ParentHasNoFileName | src/app.rs:56 | a path ending in `..` has no file name, so the title's unwrap would panic |
| TextLines.CursorPosition | src/app.rs:426-441 | both coordinates are at least 1 |
| TextLines.CountNewlinesIsMultiplicity | src/app.rs:431-434 | the line counter equals the number of `'\n'` in the text |
| TextLines.LastLineIsTrailingLine | src/app.rs:431-437 | the column counter measures the longest break-free suffix of the text |
| TextLines.LastLineAfterBreak | src/app.rs:431-437 | after a final break, the column counts only what follows it, and the line grows by one |
| TextLines.CursorPositionExamples | src/app.rs:426-441 | "" gives (1,1), "hello" gives (1,5), "ab\n" gives (2,1), "a" gives the same as "" |
| App.GetCursorPosition | src/app.rs:426-441 | the loop returns 1 + newline count and the last-line width (at least 1), whatever the caret |
| App.Default | src/app.rs:26-41 | the initial state is empty, unmodified, untitled, zoom-valid, word-wrapped, with status bar and no menu |
| App.Title | src/app.rs:54-65 | the title ends in " - MemoChan", starts with `*` when modified, and is missing only when the path has no file name |
| App.Toggle | src/app.rs:239-273 | pressing a menu button closes it iff it was open, otherwise opens it |
| App.Shortcut | src/app.rs:291-327 | only single-character keys have shortcuts; no shortcut is an event, `Exit` or a dialog answer |
| App.ApplyFile | src/app.rs:75-237 | the file commands (75-123) and the open/save answers (219-237) never touch zoom, font size or modifier state |
| App.ApplyEdit | src/app.rs:125-367 | the edit commands (125-170), editor actions (209-217) and clipboard answers (359-367) never touch zoom, font, current file or modifier state |
| App.ApplyView | src/app.rs:172-381 | the view commands (172-207) and the wheel zoom (369-381) never touch the text, file or modified flag; only the zoom commands and the wheel change zoom |
| App.ApplyMenu | src/app.rs:239-387 | the menu toggles (239-276) and hovering (383-387) change nothing but the open menu and request nothing |
| App.Scroll | src/app.rs:369-381 | a wheel step moves the zoom at most 10 in the wheel's direction, stays in [50, 500] when it starts there, and keeps the font size in step with the zoom |
| App.HandleEvent | src/app.rs:278-357 | no key or wheel event exits, and an event can only drop the current file (Ctrl+N), never set one |
| App.Update | src/app.rs:67-391 | only `Exit` requests process exit; only events change the Ctrl flag; the current file is only set by an open or save answer |
| AppProperties.ZoomInPreservesZoom | src/app.rs:177-183 | zooming in keeps the zoom on the grid, in bounds, with matching font size |
| AppProperties.ZoomOutPreservesZoom | src/app.rs:184-190 | zooming out keeps the zoom invariant |
| AppProperties.ScrollPreservesZoom | src/app.rs:369-381 | a Ctrl+wheel step keeps the zoom invariant |
| AppProperties.CommandPreservesZoom | src/app.rs:75-387 | every message other than an event keeps the zoom invariant; only the view group touches the zoom |
| AppProperties.ViewCommandPreservesZoom | src/app.rs:172-207 | every view command keeps the zoom invariant |
| AppProperties.UpdatePreservesZoom | src/app.rs:67-391 | every message keeps the zoom invariant, including key events that re-dispatch |
| AppProperties.EventPreservesZoom | src/app.rs:278-357 | key and wheel events keep the zoom invariant |
| AppProperties.RunPreservesZoom | src/app.rs:67-391 | any message sequence from a valid state keeps the zoom invariant |
| AppProperties.ReachableZoomBounded | src/app.rs:26-41 | from the default state, zoom stays a multiple of 10 in [50, 500] with font size = `calculate_font_size(zoom)` |
| AppProperties.ZoomSaturatesAtBounds | src/app.rs:177-190 | `ZoomIn` at 500 and `ZoomOut` at 50 only close the menus |
| AppProperties.ZoomOutUndoesZoomIn | src/app.rs:177-190 | below 500, zoom out after zoom in restores the state (menus closed) |
| AppProperties.ZoomResetRestoresDefault | src/app.rs:191-195 | reset gives zoom 100, size 14 = `calculate_font_size(100)`, menus closed, nothing else changed |
| AppProperties.ScrollUpMatchesZoomIn | src/app.rs:369-374 | on the grid, a wheel step up lands where `ZoomIn` does |
| AppProperties.ScrollDownMatchesZoomOut | src/app.rs:375-380 | on the grid, a wheel step down lands where `ZoomOut` does |
| AppProperties.WheelUpMatchesZoomIn | src/app.rs:369-374 | on valid states a wheel step up zooms exactly like `ZoomIn`, but keeps the menu |
| AppProperties.WheelDownMatchesZoomOut | src/app.rs:375-380 | on valid states a wheel step down (or zero) zooms exactly like `ZoomOut`, but keeps the menu |
| AppProperties.ZoomCommandOvershootsOffGrid | src/app.rs:177-183 | off the grid, at 495, `ZoomIn` reaches 505 while the wheel stops at 500 |
| AppProperties.MenuToggleOpensOrCloses | src/app.rs:239-273 | a menu button closes its menu if open, else opens it; nothing else changes |
| AppProperties.MenuToggleTwice | src/app.rs:239-273 | two presses restore the state when no menu or that menu was open; otherwise all menus end closed |
| AppProperties.HoverSwitchesOnlyOpenMenus | src/app.rs:383-387 | hovering does nothing with all menus closed and otherwise switches to the hovered menu; nothing else changes |
| AppProperties.DefaultHoverIgnored | src/message.rs:63-67 | no menu is open at start, so hovering does nothing until a menu is clicked open |
| AppProperties.HoverIdempotent | src/app.rs:383-387 | hovering twice equals hovering once |
| AppProperties.MenuCommandsCloseMenus | src/app.rs:75-276 | every menu item except Save and Exit, and the click outside the menus, leaves all menus closed |
| AppProperties.FileLifecycleClearsModified | src/app.rs:75-237 | a new document is empty and untitled; an opened file's buffer holds exactly its text with no selection; a save keeps the buffer; all three clear the modified flag |
| AppProperties.NewDocumentCursorAtOrigin | src/app.rs:75-80 | after a new document the status bar shows line 1, column 1 |
| AppProperties.SaveLeavesStateAlone | src/app.rs:101-116 | Save changes no state, menus included, and writes the current text to the current file or asks where |
| AppProperties.FailedFileResultChangesNothing | src/app.rs:219-237 | a failed open or save leaves the state unchanged and requests nothing |
| AppProperties.EditorActionTracksChange | src/app.rs:209-217 | an editor action marks modified iff the text changed, and never clears the mark |
| AppProperties.TextChangeMarksModified | src/app.rs:67-391 | every text change marks the document modified, unless the message asked for a new document (empty, untitled) or reported an opened file (its text and path) |
| AppProperties.CommandChangeMarksModified | src/app.rs:75-387 | the same for every message other than an event |
| AppProperties.FileChangeAccountedFor | src/app.rs:75-237 | file commands and answers replace the text only with a new document or the opened file |
| AppProperties.EditChangeAccountedFor | src/app.rs:125-367 | an edit that changes the text marks the document modified |
| AppProperties.EventChangeMarksModified | src/app.rs:278-357 | a text change by a key or wheel event marks the document modified unless the event was Ctrl+N |
| AppProperties.EditsMarkModified | src/app.rs:128-367 | Delete, the timestamp, any clipboard paste that returns text, and a cut of a selection mark the document modified; the cut copies the selection |
| AppProperties.InsertAllAppends | src/app.rs:161-170 | with an end-of-text insert, inserting a string character by character appends it |
| AppProperties.InsertAllComposes | src/app.rs:359-367 | pasting `t` then `u` character by character equals pasting `t + u` |
| AppProperties.EscapeClosesMenus | src/app.rs:283-289 | Escape closes the menus under any modifiers and records the modifiers |
| AppProperties.ShortcutDispatches | src/app.rs:291-327 | a Ctrl chord with a shortcut does exactly what its message does |
| AppProperties.ShortcutKeySet | src/app.rs:291-327 | a key has a shortcut iff it is one of the characters `nNoOsS+=-0aAzZxXcCvV` |
| AppProperties.ShortcutsIgnoreCase | src/app.rs:293-325 | each letter shortcut accepts either case and names its command |
| AppProperties.ShortcutSymbols | src/app.rs:301-326 | `+` and `=` both zoom in, `-` zooms out, `0` resets; `q` and F5 have no shortcut |
| AppProperties.CtrlNStartsNewDocument | src/app.rs:293-295 | Ctrl+N from any state gives an empty, unmodified, untitled document |
| AppProperties.CtrlZOnlyClosesMenus | src/app.rs:314-316 | Ctrl+Z only closes the menus: undo is not implemented |
| AppProperties.PlainKeyOnlyRecordsModifiers | src/app.rs:280-339 | a character key without Ctrl only records that Ctrl is up |
| AppProperties.F5InsertsTimestamp | src/app.rs:330-333 | F5 inserts the clock text with or without Ctrl and marks the document modified |
| AppProperties.KeyReleaseOnlyRecordsModifiers | src/app.rs:340-342 | releasing a key only records the modifiers |
| AppProperties.WheelZoomsOnlyWithCtrl | src/app.rs:343-354 | the wheel does nothing unless Ctrl is held and the movement is vertical |
| AppProperties.DefaultTitle | src/app.rs:54-65 | a fresh window is titled "Untitled - MemoChan" |
| AppProperties.TitleRoundTrip | src/app.rs:54-65 | the modified mark and the name can be read back from the title, unless a clean name starts with `*` |
| AppProperties.TitleShowsFileName | src/app.rs:54-65 | the title shows the final path component, prefixed by `*` when modified |
| AppProperties.ModifiedMarkIsAmbiguous | src/app.rs:60-64 | a clean `*a` and a modified `a` share a title |

## Left out

- File I/O and dialogs: `OpenFile`, `SaveFile`, `SaveFileAs` and `save_file_as` only produce an `Effect`. The dialog, the read and the write are the host's. Their outcomes are modelled only as incoming `FileOpened`/`FileSaved` messages.
- Clipboard and process exit: `Cut`/`Copy` request `WriteClipboard`, `Paste` requests `ReadClipboard`, and `Exit` requests `ExitProcess`. The clipboard's contents arrive as `ClipboardPaste`.
- Editor widget internals: the caret, the selection, and what `Delete`, `SelectAll` and `Insert(c)` do to the text. These are opaque functions in `Env`. An `EditorAction` is an opaque `Content -> Content`. `Content::text()` is taken to be exactly the buffer text.
- The clock: `TimeDate` inserts `env.now`, an arbitrary string standing for the formatted `Local::now()`.
- AppProperties.TextChangeMarksModified: assumes the editor's select-all keeps the text, which the widget guarantees but this model cannot see.
- AppProperties.InsertAllAppends: assumes an insert that appends at the end. A real insert goes at the caret.
- Floating point: `f32` font sizes and wheel deltas are `real`. Rust's rounding may differ in the last bits. A NaN wheel delta, which zooms out in Rust, has no `real` counterpart.
- `usize` overflow of the line/column counters in `get_cursor_position` is not modelled. It cannot occur for a text that fits in memory.
- Paths: only `/` separators. `to_string_lossy` is the identity on `string`.
- Logging: `eprintln!` on a failed font load, open or save. `FontLoaded` changes no state.
- `Notepad::new`'s start-up tasks (font load, minimum window size), `subscription`, `theme`, and `view`: these are toolkit wiring.
- Colours: `Color32::from_rgba_unmultiplied` stores premultiplied values. The model keeps the constructor's arguments instead. `apply_egui_style` is toolkit styling.
- src/view/*.rs, src/config/theme.rs, src/editor/highlight.rs and src/main.rs: widget construction, colour constants, a wrapper over an external highlighting library, and start-up code.
