/**
 * The config.txt codec of LR2v3: the five persisted settings, the decoding
 * that `ParseConfigContent` performs on them, and the text that every
 * `SaveConfig_MethodN` writes.
 *
 * The decoder is stated here as functions over a `Settings` value; the
 * in-place version that updates the program's globals is
 * `Globals.Program.ParseConfigContent`, which is proved to compute `Decode`.
 */
module ConfigCodec {
  import opened Wrappers
  import opened CText
  import opened ColorRef

  /** `MAX_GRID`: the largest grid the program draws. */
  const MAX_GRID := 30

  /** The persisted settings, the globals `gridSize` .. `gridColor`. */
  datatype Settings = Settings(
    gridSize: int,
    windowWidth: int,
    windowHeight: int,
    bgColor: Colorref,
    gridColor: Colorref)

  /** The values the globals start with. */
  function Defaults(): (s: Settings)
    ensures 1 <= s.gridSize <= MAX_GRID
    ensures IsRgb(s.bgColor) && IsRgb(s.gridColor)
  {
    Settings(10, 320, 240, RGB(0, 0, 255), RGB(255, 0, 0))
  }

  /**
   * The contents of the locals `r`, `g`, `b` before `sscanf_s` stores into
   * them. The source leaves them uninitialised, so they are a parameter of
   * the decoder; they matter only for a colour line with fewer than three
   * numbers.
   */
  datatype Channels = Channels(r: int, g: int, b: int)

  /** `sscanf_s(val, "%d %d %d", &r, &g, &b)`: what r, g and b hold afterwards. */
  function ScanChannels(val: string, unset: Channels): (c: Channels)
    ensures |ScanInts(val, 3)| == 3 ==> c == Channels(ScanInts(val, 3)[0], ScanInts(val, 3)[1], ScanInts(val, 3)[2])
    ensures ScanInts(val, 3) == [] ==> c == unset
  {
    var vs := ScanInts(val, 3);
    Channels(
      if |vs| > 0 then vs[0] else unset.r,
      if |vs| > 1 then vs[1] else unset.g,
      if |vs| > 2 then vs[2] else unset.b)
  }

  /** The colour a `bgColor=` or `gridColor=` line stores. */
  function ColorValue(val: string, unset: Channels): Colorref {
    var c := ScanChannels(val, unset);
    RGB(c.r, c.g, c.b)
  }

  /** Lines that `ParseConfigContent` skips before looking for a key. */
  predicate Skipped(line: string) {
    |line| == 0 || line[0] == '#' || '=' !in line
  }

  /** The key of a `key=value` line: everything before the first `=`. */
  function Key(line: string): string
    requires '=' in line
  {
    line[..IndexOf(line, '=')]
  }

  /** The value of a `key=value` line: everything after the first `=`. */
  function Value(line: string): string
    requires '=' in line
  {
    line[IndexOf(line, '=') + 1..]
  }

  /** One pass of the `while (std::getline(...))` body of `ParseConfigContent`. */
  function ApplyLine(s: Settings, line: string, unset: Channels): Settings {
    if Skipped(line) then s
    else
      var key, val := Key(line), Value(line);
      if key == "gridSize" then s.(gridSize := Atoi(val))
      else if key == "windowWidth" then s.(windowWidth := Atoi(val))
      else if key == "windowHeight" then s.(windowHeight := Atoi(val))
      else if key == "bgColor" then s.(bgColor := ColorValue(val, unset))
      else if key == "gridColor" then s.(gridColor := ColorValue(val, unset))
      else s
  }

  /** The loop of `ParseConfigContent`: the lines applied in order. */
  function DecodeLines(s: Settings, lines: seq<string>, unset: Channels): Settings
    decreases |lines|
  {
    if |lines| == 0 then s else DecodeLines(ApplyLine(s, lines[0], unset), lines[1..], unset)
  }

  /** The two range checks after the loop. */
  function ClampGrid(n: int): (r: int)
    ensures 1 <= r <= MAX_GRID
    ensures 1 <= n <= MAX_GRID ==> r == n
    ensures n < 1 ==> r == 1
    ensures n > MAX_GRID ==> r == MAX_GRID
  {
    var lower := if n < 1 then 1 else n;
    if lower > MAX_GRID then MAX_GRID else lower
  }

  /**
   * `ParseConfigContent(content)` run on settings `s`: every line applied,
   * then `gridSize` clamped to 1..MAX_GRID whether or not a line set it.
   */
  function Decode(s: Settings, content: string, unset: Channels): (r: Settings)
    ensures 1 <= r.gridSize <= MAX_GRID
  {
    var t := DecodeLines(s, SplitLines(content), unset);
    t.(gridSize := ClampGrid(t.gridSize))
  }

  /** `static_cast<int>(GetRValue(c)) << " " << ... GetBValue(c)`. */
  function ColorText(c: Colorref): string {
    IntToDecimal(GetRValue(c) as int) + " "
    + IntToDecimal(GetGValue(c) as int) + " "
    + IntToDecimal(GetBValue(c) as int)
  }

  /**
   * The text the `<<` chain of every `SaveConfig_MethodN` produces:
   * one `key=value` line per setting, each ended by a newline.
   */
  function Encode(s: Settings): string {
    (KeyName(GridSize) + "=" + IntToDecimal(s.gridSize)) + "\n"
    + (KeyName(WindowWidth) + "=" + IntToDecimal(s.windowWidth)) + "\n"
    + (KeyName(WindowHeight) + "=" + IntToDecimal(s.windowHeight)) + "\n"
    + (KeyName(BgColor) + "=" + ColorText(s.bgColor)) + "\n"
    + (KeyName(GridColor) + "=" + ColorText(s.gridColor)) + "\n"
  }

  // ---------------------------------------------------------------------
  // Fields, for stating which setting a line touches
  // ---------------------------------------------------------------------

  datatype Field = GridSize | WindowWidth | WindowHeight | BgColor | GridColor

  /** The key under which a field is written and read. */
  function KeyName(f: Field): string {
    match f
    case GridSize => "gridSize"
    case WindowWidth => "windowWidth"
    case WindowHeight => "windowHeight"
    case BgColor => "bgColor"
    case GridColor => "gridColor"
  }

  /** The field a key names, if any; the comparison is exact and case-sensitive. */
  function FieldNamed(key: string): (f: Option<Field>)
    ensures f.Some? ==> KeyName(f.value) == key
    ensures forall g: Field :: KeyName(g) == key ==> f == Some(g)
  {
    if key == "gridSize" then Some(GridSize)
    else if key == "windowWidth" then Some(WindowWidth)
    else if key == "windowHeight" then Some(WindowHeight)
    else if key == "bgColor" then Some(BgColor)
    else if key == "gridColor" then Some(GridColor)
    else None
  }

  /** The field a configuration line assigns, if any. */
  function Target(line: string): Option<Field> {
    if Skipped(line) then None else FieldNamed(Key(line))
  }

  /** `s` and `t` agree on field `f`. */
  predicate SameField(s: Settings, t: Settings, f: Field) {
    match f
    case GridSize => s.gridSize == t.gridSize
    case WindowWidth => s.windowWidth == t.windowWidth
    case WindowHeight => s.windowHeight == t.windowHeight
    case BgColor => s.bgColor == t.bgColor
    case GridColor => s.gridColor == t.gridColor
  }
}
