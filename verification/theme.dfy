/**
 The editor's theme choice: a three-way mode that either follows the
 operating system or forces light or dark, and the colour palette that a
 mode selects.
 */
module Theme {

  datatype ThemeMode = System | Light | Dark

  /** The mode a fresh configuration starts in. */
  function DefaultMode(): ThemeMode
  {
    System
  }

  /** The label shown for a mode. */
  function Name(m: ThemeMode): (r: string)
    ensures |r| >= 4
    ensures m.System? <==> r == "System"
  {
    match m
    case System => "System"
    case Light => "Light"
    case Dark => "Dark"
  }

  /** Whether a mode renders dark, given whether the operating system is dark. */
  function IsDark(m: ThemeMode, systemDark: bool): (r: bool)
    ensures m.Dark? ==> r
    ensures m.Light? ==> !r
    ensures m.System? ==> r == systemDark
  {
    match m
    case System => systemDark
    case Light => false
    case Dark => true
  }

  /** The mode after the theme button is pressed once. */
  function Next(m: ThemeMode): (r: ThemeMode)
    ensures r != m
  {
    match m
    case System => Light
    case Light => Dark
    case Dark => System
  }

  /** A colour as given to the toolkit's constructor (opaque or with alpha). */
  datatype Color =
    | Rgb(r: int, g: int, b: int)
    | RgbaUnmultiplied(r: int, g: int, b: int, a: int)

  datatype ThemeColors = ThemeColors(
    background: Color,
    text: Color,
    dimText: Color,
    accent: Color,
    selection: Color,
    lineNumber: Color,
    lineNumberBg: Color,
    gutterBg: Color,
    currentLineBg: Color)

  function DarkColors(): ThemeColors
  {
    ThemeColors(
      background := Rgb(0x1e, 0x1e, 0x1e),
      text := Rgb(0xd4, 0xd4, 0xd4),
      dimText := Rgb(0x80, 0x80, 0x80),
      accent := Rgb(0x56, 0x9c, 0xd6),
      selection := RgbaUnmultiplied(0x26, 0x4f, 0x78, 0x80),
      lineNumber := Rgb(0x85, 0x85, 0x85),
      lineNumberBg := Rgb(0x1e, 0x1e, 0x1e),
      gutterBg := Rgb(0x25, 0x25, 0x26),
      currentLineBg := RgbaUnmultiplied(0xff, 0xff, 0xff, 0x08))
  }

  function LightColors(): ThemeColors
  {
    ThemeColors(
      background := Rgb(0xff, 0xff, 0xff),
      text := Rgb(0x33, 0x33, 0x33),
      dimText := Rgb(0x80, 0x80, 0x80),
      accent := Rgb(0x00, 0x66, 0xcc),
      selection := RgbaUnmultiplied(0xad, 0xd6, 0xff, 0x80),
      lineNumber := Rgb(0x9e, 0x9e, 0x9e),
      lineNumberBg := Rgb(0xff, 0xff, 0xff),
      gutterBg := Rgb(0xf5, 0xf5, 0xf5),
      currentLineBg := RgbaUnmultiplied(0x00, 0x00, 0x00, 0x08))
  }

  /** The palette for a mode: the dark palette exactly when the mode renders dark. */
  function ForMode(m: ThemeMode, systemDark: bool): (r: ThemeColors)
    ensures r == DarkColors() <==> IsDark(m, systemDark)
    ensures r == LightColors() <==> !IsDark(m, systemDark)
  {
    if IsDark(m, systemDark) then DarkColors() else LightColors()
  }

  /** Pressing the theme button three times returns to the starting mode. */
  lemma NextCyclesWithPeriodThree(m: ThemeMode)
    ensures Next(Next(Next(m))) == m
    ensures Next(Next(m)) != m
  {
  }

  /** Distinct modes have distinct labels. */
  lemma NameInjective(a: ThemeMode, b: ThemeMode)
    requires Name(a) == Name(b)
    ensures a == b
  {
  }

  /** A forced mode ignores the operating system; only `System` follows it. */
  lemma OnlySystemFollowsOs(m: ThemeMode)
    ensures IsDark(m, true) != IsDark(m, false) <==> m.System?
  {
  }

  /** The dark and light palettes differ, and both backgrounds are opaque. */
  lemma PalettesDistinct()
    ensures DarkColors() != LightColors()
    ensures DarkColors().background.Rgb? && LightColors().background.Rgb?
  {
  }

  /** A fresh configuration follows the operating system's preference, palette included. */
  lemma DefaultModeFollowsOs(systemDark: bool)
    ensures IsDark(DefaultMode(), systemDark) == systemDark
    ensures ForMode(DefaultMode(), systemDark) == if systemDark then DarkColors() else LightColors()
  {
  }
}
