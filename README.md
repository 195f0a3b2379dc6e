# LR2v3 configuration codec in Dafny

LR2v3 is a small Win32 program that draws a grid of noughts and crosses.
It keeps five settings in globals:

- the grid size;
- the window width and height;
- the background and grid colours.

It persists them in `config.txt` in one of four ways, chosen with `-m n` on
the command line. This project models the part of the program that is
logic rather than operating-system plumbing:

- **The decoder `ParseConfigContent`.** It splits the text into lines as
  `std::getline` does. It skips blank lines, `#` comments and lines without
  `=`. It splits every other line at its first `=` and assigns the setting
  the key names. Integers are read with `atoi`, colours with
  `sscanf("%d %d %d")` followed by `RGB`. At the end it clamps `gridSize`
  to 1..`MAX_GRID` and returns true.
  - It is modelled twice: as the functions `ConfigCodec.ApplyLine`,
    `ConfigCodec.DecodeLines` and `ConfigCodec.Decode` over a `Settings`
    value, and as the loop method `Globals.Program.ParseConfigContent`.
    The method updates the fields of a `Program` object in place and is
    proved to compute `Decode`.
- **The encoder.** This is the `<<` chain that `SaveConfig_Method1` ..
  `SaveConfig_Method4` repeat word for word. Methods 1, 2 and 4 send it
  into an `ostringstream`; method 3 sends it straight into an `ofstream`.
  It is the single function `ConfigCodec.Encode`.
- **`COLORREF` packing.** `RGB` and `GetRValue`/`GetGValue`/`GetBValue`
  are modelled on `bv32` (module `ColorRef`).
- **The C and C++ runtime text conversions.** These are `atoi`, one `%d`
  conversion of `sscanf`, `<<` on an `int`, `getline` splitting, and
  `std::string` built from a NUL-terminated buffer (module `CText`).
- **The start-up of `_tmain`** (modules `Startup` and `Globals`):
  1. The argument loop, where `-m n` selects the method and any other
     argument becomes `argSize`.
  2. The step that turns what a loader read into the text it parses, or
     gives up. Methods 1 and 4 stop at the first NUL, method 1 gives up on
     an empty file (`CreateFileMappingA` cannot map a zero-length file),
     method 2 gives up on a short `fread`, and method 3 passes everything.
  3. The command-line override of `gridSize`, applied after the load.

What is proved:

- **Decoded grid size.** It always lies in 1..30, and parsing always
  reports success.
- **Inert lines.** Blank lines, comments, lines without `=` and lines with
  an unknown key change nothing, and can be inserted between any two lines
  of a file (or at its start) without changing what it decodes to.
- **What a line touches.** A line touches only the field its key names.
  Keys are exact and case-sensitive.
- **Last write wins.** The last line for a key decides that field.
- **Integer values.** They take the `atoi` value. As a result, text
  without digits gives grid size 1 and `gridSize=999` gives 30.
- **Well-formed colours.** A line `r g b` stores `RGB(r, g, b)`, whose
  channels are r, g and b mod 256.
- **The saved text.** It is exactly five newline-terminated lines in a
  fixed order, with canonical channel values, and holds no NUL.
- **Save then load.** Whichever method is configured, the saved text
  loads back to the saved settings (`Startup.SaveThenLoad`), with only
  `gridSize` clamped.
- **The argument rules.**
  - The last `-m n` decides the method, and an n outside 1..4 selects 2.
  - The last other argument decides the grid size from the command line.
    A trailing `-m` counts as such an argument and reads as 0.
  - That size replaces the loaded one only inside 1..30, after the load.
    A grid size in range therefore stays in range, which the divisions by
    `gridSize` in the window code rely on.
- **The globals.** The start-up sequence keeps the grid size in range and
  the colours in the form `RGB` makes. From such a state, the
  configuration saved at exit loads back exactly
  (`Globals.Program.SavedStateReloads`).

## Model

| member | source | states |
|---|---|---|
| ColorRef.Pack | LR2v3/LR2v3.cpp:80 | a packed colour has its top byte zero |
| ColorRef.UnpackPack | LR2v3/LR2v3.cpp:160-166 | `GetRValue`, `GetGValue`, `GetBValue` of a packed colour return the red, green and blue byte packed into it |
| ColorRef.PackUnpack | LR2v3/LR2v3.cpp:160-166 | repacking the three extracted bytes gives the colour back exactly when its top byte is zero |
| ColorRef.ChannelsOfRGB | LR2v3/LR2v3.cpp:79-80 | the channels of `RGB(r, g, b)` are r, g and b mod 256 |
| ColorRef.RGBOfChannels | LR2v3/LR2v3.cpp:160-166 | `RGB` of the printed channel values of a colour `RGB` made rebuilds that colour |
| CText.SkipSpaces | LR2v3/LR2v3.cpp:74 | what remains after skipping is a suffix of the input that does not start with white space |
| CText.SkipSpacesDropsOnlySpaces | LR2v3/LR2v3.cpp:74 | `atoi` skips only white space: every character dropped in front of the remainder is a space character |
| CText.DigitRun | LR2v3/LR2v3.cpp:74 | the numeric prefix is the longest run of digits: all digits, followed by a non-digit or the end |
| CText.ScanInts | LR2v3/LR2v3.cpp:79 | `sscanf` with n conversions stores at most n values |
| CText.ScanIntsExtend | LR2v3/LR2v3.cpp:79 | allowing one more conversion only appends: the values already stored stay the same and in the same order |
| CText.ScanIntsSkipsSpaces | LR2v3/LR2v3.cpp:79 | white space in front of the value text changes nothing that `sscanf` stores |
| CText.ScanTwo | LR2v3/LR2v3.cpp:79 | two successful conversions followed by a failed one store exactly those two values |
| CText.ScanTwoDecimals | LR2v3/LR2v3.cpp:79 | `"%d %d %d"` over only two written integers stores those two and no third |
| CText.AtoiWithoutDigits | LR2v3/LR2v3.cpp:74-76 | a value with no digit is a matching failure and `atoi` gives 0 |
| CText.ScanIntSkipsSpaces | LR2v3/LR2v3.cpp:79 | white space before a number does not change what `%d` reads |
| CText.NatToDecimal | LR2v3/LR2v3.cpp:156-158 | `<<` writes at least one character, all decimal digits |
| CText.DecimalRoundTrip | LR2v3/LR2v3.cpp:156-158 | the digits written for n denote n |
| CText.DecimalIsCanonical | LR2v3/LR2v3.cpp:160-166 | a written number has a leading zero only when it is 0, and a byte value takes at most three digits |
| CText.ScanIntOfDecimal | LR2v3/LR2v3.cpp:74-76 | `%d` and `atoi` read back exactly the `int` that `<<` wrote, with what follows left unread |
| CText.ScanThreeDecimals | LR2v3/LR2v3.cpp:79 | `"%d %d %d"` over three written integers separated by spaces stores all three |
| CText.IndexOf | LR2v3/LR2v3.cpp:70 | `find` gives the first occurrence: the character is there and not before it |
| CText.SplitLines | LR2v3/LR2v3.cpp:66-68 | no line that `getline` yields contains a newline |
| CText.SplitLinesCons | LR2v3/LR2v3.cpp:68 | a newline-terminated line followed by more text is yielded as one line, then the rest |
| CText.SplitLinesAppend | LR2v3/LR2v3.cpp:68 | text that ends in a newline splits independently of the text that follows it |
| CText.CString | LR2v3/LR2v3.cpp:141 | the string built from a NUL-terminated buffer is the longest NUL-free prefix of the data, and all of it when there is no NUL |
| ConfigCodec.Defaults | LR2v3/LR2v3.cpp:22-26 | the initial settings have a grid size in range and colours `RGB` made |
| ConfigCodec.ScanChannels | LR2v3/LR2v3.cpp:78-79 | three parsed numbers become r, g, b; when none parses, r, g, b keep what they held |
| ConfigCodec.ClampGrid | LR2v3/LR2v3.cpp:88-89 | the clamped size lies in 1..MAX_GRID, is unchanged inside it, and is 1 below it and MAX_GRID above it |
| ConfigCodec.Decode | LR2v3/LR2v3.cpp:65-91 | after a decode `gridSize` lies in 1..MAX_GRID, whether or not a line set it |
| ConfigCodec.FieldNamed | LR2v3/LR2v3.cpp:74-86 | a key names a field exactly when it equals that field's key, character for character |
| CodecProperties.LineTouchesOnlyItsTarget | LR2v3/LR2v3.cpp:69-86 | a blank line, a comment, a line without `=` or one with an unknown key changes nothing; any line leaves every field but the one it names as it was |
| CodecProperties.TargetOfKeyValue | LR2v3/LR2v3.cpp:70-76 | a line `key=value` names field f exactly when the key is f's name: no trimming, no case folding |
| CodecProperties.KeyValueLine | LR2v3/LR2v3.cpp:70-73 | the key is the text before the first `=` and the value all of the text after it |
| CodecProperties.ApplyKeyValue | LR2v3/LR2v3.cpp:74-86 | a line with one of the five keys assigns that field its `atoi` or colour value and nothing else |
| CodecProperties.LineValueIgnoresState | LR2v3/LR2v3.cpp:74-86 | the value a line assigns does not depend on the settings before it |
| CodecProperties.DecodeLinesAppend | LR2v3/LR2v3.cpp:68-87 | decoding two runs of lines is decoding the first, then the second from where it left off |
| CodecProperties.LinesAvoidingField | LR2v3/LR2v3.cpp:68-87 | lines none of which names a field leave that field unchanged |
| CodecProperties.LastWriteWins | LR2v3/LR2v3.cpp:68-87 | when a key repeats, the field ends up with the value of its last line, whatever came before |
| CodecProperties.IgnoredLineTolerance | LR2v3/LR2v3.cpp:69-71 | inserting an ignored line between any two lines of a config text, or at its start, leaves its decoding unchanged |
| CodecProperties.UnmentionedFieldKept | LR2v3/LR2v3.cpp:65-91 | a field no line names keeps its previous value, except that `gridSize` is still clamped |
| CodecProperties.GridSizeLine | LR2v3/LR2v3.cpp:74 | a `gridSize=` line stores the clamped `atoi` value of its text |
| CodecProperties.GridSizeExamples | LR2v3/LR2v3.cpp:88-89 | `gridSize=999` decodes to 30 and `gridSize=0` to 1 |
| CodecProperties.NonNumericGridSize | LR2v3/LR2v3.cpp:74 | a grid size with no digit reads as 0 and ends up as 1 |
| CodecProperties.GridSizeDecimal | LR2v3/LR2v3.cpp:74 | a `gridSize=` line holding a written integer stores that integer, clamped |
| CodecProperties.NoSeparators | LR2v3/LR2v3.cpp:156-158 | a written integer holds only a sign and digits: no newline, `=` or NUL |
| CodecProperties.WellFormedColor | LR2v3/LR2v3.cpp:78-80 | a colour value `r g b` stores `RGB(r, g, b)` whatever r, g, b held before, and its channels are r, g and b mod 256 |
| CodecProperties.PartialColor | LR2v3/LR2v3.cpp:78-80 | a colour value with two numbers `r g` stores red r and green g, and blue from whatever `b` held before |
| CodecProperties.ColorTextReadsBack | LR2v3/LR2v3.cpp:160-162 | the saved text of a colour `RGB` made reads back as that colour |
| CodecProperties.DecodeLinesKeepsRgb | LR2v3/LR2v3.cpp:77-86 | decoding keeps both colours in the form `RGB` produces |
| CodecProperties.ColorTextIsCanonical | LR2v3/LR2v3.cpp:160-166 | a colour is saved as three unpadded decimals in 0..255 separated by single spaces |
| CodecProperties.ColorTextSeparators | LR2v3/LR2v3.cpp:160-166 | the saved text of a colour holds no newline and no NUL |
| CodecProperties.EncodeHasNoNul | LR2v3/LR2v3.cpp:156-166 | the saved text holds no NUL |
| CodecProperties.EncodeLines | LR2v3/LR2v3.cpp:156-166 | the saved text is exactly the five newline-terminated lines gridSize, windowWidth, windowHeight, bgColor, gridColor; the copies at lines 236-246, 290-300 and 371-381 build the same text |
| CodecProperties.RoundTrip | LR2v3/LR2v3.cpp:65-91 | decoding the saved text restores the saved settings, whatever came before and whatever r, g, b held, with only `gridSize` clamped |
| CodecProperties.DecimalReadsBack | LR2v3/LR2v3.cpp:74-76 | `atoi` of a written integer is that integer |
| Startup.MethodChoice | LR2v3/LR2v3.cpp:755-757 | the method after `-m n` lies in 1..4: n when n is in 1..4, otherwise 2 |
| Startup.ParseArguments | LR2v3/LR2v3.cpp:752-761 | the last `-m` value decides the method, the last other argument decides `argSize`, and `argSize` is -1 without one |
| Startup.MethodFlagConsumesValue | LR2v3/LR2v3.cpp:753-754 | `-m` consumes the argument after it, which is never read as a grid size |
| Startup.TrailingMethodFlag | LR2v3/LR2v3.cpp:753-761 | a `-m` appended to a command line that does not end on a dangling `-m` becomes the last positional argument. `argSize` is then `atoi("-m")`, 0, which cancels any earlier size and overrides nothing; the method values are unchanged |
| Startup.TrailingMethodFlagExamples | LR2v3/LR2v3.cpp:753-761 | for `15 -m` the grid size becomes 0; for `-m -m` the second `-m` is the method value, giving method 2 and no grid size |
| Startup.GridOverride | LR2v3/LR2v3.cpp:772-774 | a grid size in 1..MAX_GRID stays in that range after the override. The command-line size wins exactly when it lies in 1..MAX_GRID; otherwise the loaded size stays |
| Startup.LoaderContent | LR2v3/LR2v3.cpp:97-365 | the four loaders' content step (method 1: mapping failure at lines 113-124 and `std::string content(pData)` at 141; method 2: the `fread` count check at 267-278; method 3: the whole stream at 312-315; method 4: `ReadFile`, the NUL written after the data and the string at 338-364). A loader parses exactly when the file was read, method 1 only when it is not empty, and method 2 only when it read the full size. Methods 1 and 4 parse the C string of the bytes (the text before the first NUL); methods 2 and 3 parse all bytes |
| Startup.LoaderKeepsText | LR2v3/LR2v3.cpp:141 | NUL-free text of the reported size reaches the parser whole by every method; for method 1 it must be non-empty |
| Startup.SaveThenLoad | LR2v3/LR2v3.cpp:732-737 | text saved with any method is loaded back whole and decodes to the saved settings |
| ColorRef.RGB | LR2v3/LR2v3.cpp:80 | definition of the `RGB` macro as each argument cast to `BYTE`, then packed; stated by ChannelsOfRGB and RGBOfChannels |
| ColorRef.GetRValue | LR2v3/LR2v3.cpp:160 | definition of the low byte of a colour; stated by UnpackPack and PackUnpack |
| ColorRef.GetGValue | LR2v3/LR2v3.cpp:161 | definition of the second byte of a colour; stated by UnpackPack and PackUnpack |
| ColorRef.GetBValue | LR2v3/LR2v3.cpp:162 | definition of the third byte of a colour; stated by UnpackPack and PackUnpack |
| CText.ScanInt | LR2v3/LR2v3.cpp:79 | definition of one `%d` conversion (white space, optional sign, at least one digit); stated by ScanIntOfDecimal, ScanIntSkipsSpaces and AtoiWithoutDigits |
| CText.Atoi | LR2v3/LR2v3.cpp:74-76 | definition of `atoi` as one `%d` conversion, 0 when it fails; stated by ScanIntOfDecimal, DecimalReadsBack and AtoiWithoutDigits |
| CText.IntToDecimal | LR2v3/LR2v3.cpp:156-158 | definition of `<<` on an `int`, a minus sign and then the digits of the magnitude; stated by ScanIntOfDecimal, NoSeparators and DecimalIsCanonical |
| ConfigCodec.Skipped | LR2v3/LR2v3.cpp:69-71 | definition of the lines the loop skips: empty, starting with `#`, or without `=`; stated by LineTouchesOnlyItsTarget |
| ConfigCodec.Key | LR2v3/LR2v3.cpp:70-72 | definition of the key as the text before the first `=`; stated by KeyValueLine and TargetOfKeyValue |
| ConfigCodec.Value | LR2v3/LR2v3.cpp:70-73 | definition of the value as all text after the first `=`; stated by KeyValueLine |
| ConfigCodec.ColorValue | LR2v3/LR2v3.cpp:78-80 | definition of a colour line's value as `RGB` of what `sscanf_s` left in r, g, b; stated by WellFormedColor, PartialColor and ColorTextReadsBack |
| ConfigCodec.ApplyLine | LR2v3/LR2v3.cpp:69-86 | definition of one pass of the loop body; stated by LineTouchesOnlyItsTarget, ApplyKeyValue and LineValueIgnoresState, and implemented in place by Globals.Program.ApplyConfigLine |
| ConfigCodec.DecodeLines | LR2v3/LR2v3.cpp:68-87 | definition of the loop as the lines applied in order; stated by DecodeLinesAppend, LastWriteWins and LinesAvoidingField, and implemented in place by Globals.Program.ParseConfigContent |
| ConfigCodec.ColorText | LR2v3/LR2v3.cpp:160-162 | definition of a colour's saved text as its three channels separated by spaces; stated by ColorTextIsCanonical and ColorTextReadsBack |
| ConfigCodec.Encode | LR2v3/LR2v3.cpp:156-166 | definition of the `<<` chain, also at lines 236-246, 290-300 and 371-381; stated by EncodeLines, EncodeHasNoNul and RoundTrip |
| Startup.Positional | LR2v3/LR2v3.cpp:753-761 | definition of the arguments read as grid sizes: a `-m` with a successor and that successor are skipped; stated by ParseArguments, MethodFlagConsumesValue and TrailingMethodFlag |
| Startup.MethodValues | LR2v3/LR2v3.cpp:753-757 | definition of the successors of `-m`, in order; stated by ParseArguments and MethodFlagConsumesValue |
| Globals.Program.SavedStateReloads | LR2v3/LR2v3.cpp:732-737 | from any state the invariant allows, the text saved with the configured method loads back whole and decodes to exactly the current settings |
| Globals.Program.constructor | LR2v3/LR2v3.cpp:22-27 | the globals start from the defaults, with method 2 |
| Globals.Program.ParseConfigContent | LR2v3/LR2v3.cpp:65-91 | the loop leaves the globals as `Decode` of their old values, returns true, and keeps grid size and colours valid |
| Globals.Program.ApplyConfigLine | LR2v3/LR2v3.cpp:69-86 | one pass of the loop body updates the globals as `ApplyLine` does |
| Globals.Program.LoadConfig | LR2v3/LR2v3.cpp:764-769 | the configured loader either fails and leaves the globals alone, or decodes what it read into them |
| Globals.Program.Start | LR2v3/LR2v3.cpp:752-774 | after the arguments, the load and the override, the method, the success flag and the settings are as the rules above say, and the globals stay valid |

`ConfigCodec.Encode` is one function for the four identical `<<` chains
(LR2v3/LR2v3.cpp:156-166, 236-246, 290-300, 371-381). The four save
variants therefore produce the same text by construction.

## Left out

- File I/O of every loader and saver is left out: `CreateFileA`,
  `MapViewOfFile`, `ReadFile`/`WriteFile`, `fopen_s`/`fread`/`fwrite`,
  streams and handle cleanup. What a loader read is a parameter
  (`Startup.FileRead`): either nothing usable, or the size the file
  reported and the bytes actually read.
- The savers' write checks (short `fwrite`/`WriteFile`, failed opens) are
  left out. The model covers only the text they write.
- Text-mode newline translation in method 3 (`ofstream`/`ifstream`) is
  left out. Method 3 is modelled as passing the bytes through unchanged.
- `ftell` returning -1 in method 2, where `resize` would throw, is left
  out. A size that is not a `nat` is not representable.
- Method 1 relies on a NUL after the mapped data. When the data holds
  none, the model takes all of it. Reading past the mapped view is
  undefined behaviour and is not modelled.
- CText.Atoi: does not model `int` overflow, which C leaves undefined.
  Settings are unbounded integers and `atoi`/`%d` return the mathematical
  value, so the round trip holds for every integer.
- ConfigCodec.ScanChannels: the colour locals `r`, `g`, `b` of the source
  are uninitialised when `sscanf_s` stores fewer than three values. The
  model takes their prior contents as the parameter `unset`, the same for
  the whole decode.
- CodecProperties.RoundTrip: requires both colours to have a zero top
  byte, as every colour `RGB` makes does. A `COLORREF` with a non-zero top
  byte is saved without it and does not come back. The program only ever
  stores colours `RGB` made. `Globals.Program.Valid` keeps that, and
  `Globals.Program.SavedStateReloads` applies the round trip under it.
- `_ttoi` on wide-character arguments is modelled as `atoi` on `string`.
- No Unicode or encoding is modelled.
- `WindowProcedure` is left out: painting, mouse and keyboard handling,
  `rand()` colours and `ShellExecute`. GUI code has no logic to model
  here.
- `CreateDataFile`, `ReadDataFile_Method1..4` and `BenchmarkDataFile` are
  left out. They are data-file I/O plumbing with timing and console
  output.
- The console setup and `srand` in `_tmain` are left out. So is the
  window creation after the config load.
