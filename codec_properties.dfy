/**
 * What the config.txt codec guarantees: which lines change which setting,
 * that the last line for a key wins, that ignored lines can be dropped,
 * what a colour line stores, and that decoding the saved text restores the
 * settings.
 */
module CodecProperties {
  import opened Wrappers
  import opened CText
  import opened ColorRef
  import opened ConfigCodec

  // ---------------------------------------------------------------------
  // One line
  // ---------------------------------------------------------------------

  /**
   * A line assigns at most the field its key names; a blank line, a `#`
   * comment, a line without `=` and a line whose key is not one of the
   * five names change nothing at all.
   */
  lemma LineTouchesOnlyItsTarget(s: Settings, line: string, unset: Channels, f: Field)
    ensures Target(line) == None ==> ApplyLine(s, line, unset) == s
    ensures Target(line) != Some(f) ==> SameField(ApplyLine(s, line, unset), s, f)
  {
    if !Skipped(line) {
      var key := Key(line);
      assert Target(line) == FieldNamed(key);
    }
  }

  /**
   * The key is the exact text before the first `=` and the value all of the
   * text after it, so a line names field `f` exactly when it reads
   * `KeyName(f) + "=" + value`; a key that differs in case or has spaces
   * around it names nothing.
   */
  lemma {:induction false} TargetOfKeyValue(key: string, val: string, f: Field)
    requires '=' !in key
    ensures Target(key + "=" + val) == Some(f) <==> key == KeyName(f)
  {
    KeyValueLine(key, val);
    var line := key + "=" + val;
    if key == [] {
      assert Key(line) == [];
      assert FieldNamed([]) == None;
    } else {
      assert line[0] == key[0];
      if key[0] == '#' {
        assert Target(line) == None;
        match f case _ => assert KeyName(f)[0] != '#';
      }
    }
  }

  /** A `key=value` line is split at its first `=`. */
  lemma KeyValueLine(key: string, val: string)
    requires '=' !in key
    ensures '=' in key + "=" + val
    ensures Key(key + "=" + val) == key && Value(key + "=" + val) == val
  {
    var line := key + "=" + val;
    assert line[|key|] == '=';
    assert line[..|key|] == key;
    assert line[|key| + 1..] == val;
  }

  /** What a `key=value` line with one of the five keys stores. */
  lemma ApplyKeyValue(s: Settings, f: Field, val: string, unset: Channels)
    ensures var t := ApplyLine(s, KeyName(f) + "=" + val, unset);
      match f
      case GridSize => t == s.(gridSize := Atoi(val))
      case WindowWidth => t == s.(windowWidth := Atoi(val))
      case WindowHeight => t == s.(windowHeight := Atoi(val))
      case BgColor => t == s.(bgColor := ColorValue(val, unset))
      case GridColor => t == s.(gridColor := ColorValue(val, unset))
  {
    var line := KeyName(f) + "=" + val;
    assert '=' !in KeyName(f) by { match f case _ => }
    KeyValueLine(KeyName(f), val);
    assert line[0] == KeyName(f)[0];
    assert !Skipped(line);
  }

  /** The value a line gives its field does not depend on the settings it is applied to. */
  lemma LineValueIgnoresState(s: Settings, t: Settings, line: string, unset: Channels, f: Field)
    requires Target(line) == Some(f)
    ensures SameField(ApplyLine(s, line, unset), ApplyLine(t, line, unset), f)
  {
    assert !Skipped(line) && FieldNamed(Key(line)) == Some(f);
  }

  // ---------------------------------------------------------------------
  // Sequences of lines
  // ---------------------------------------------------------------------

  /** Decoding `a + b` decodes `a`, then `b` from where `a` left off. */
  lemma {:induction false} DecodeLinesAppend(s: Settings, a: seq<string>, b: seq<string>, unset: Channels)
    ensures DecodeLines(s, a + b, unset) == DecodeLines(DecodeLines(s, a, unset), b, unset)
    decreases |a|
  {
    if |a| == 0 {
      assert a + b == b;
    } else {
      assert (a + b)[0] == a[0];
      assert (a + b)[1..] == a[1..] + b;
      DecodeLinesAppend(ApplyLine(s, a[0], unset), a[1..], b, unset);
    }
  }

  /** Lines none of which names `f` leave `f` as it was. */
  lemma {:induction false} LinesAvoidingField(s: Settings, lines: seq<string>, unset: Channels, f: Field)
    requires forall i :: 0 <= i < |lines| ==> Target(lines[i]) != Some(f)
    ensures SameField(DecodeLines(s, lines, unset), s, f)
    decreases |lines|
  {
    if |lines| > 0 {
      var t := ApplyLine(s, lines[0], unset);
      LineTouchesOnlyItsTarget(s, lines[0], unset, f);
      assert forall i :: 0 <= i < |lines| - 1 ==> lines[1..][i] == lines[i + 1];
      LinesAvoidingField(t, lines[1..], unset, f);
    }
  }

  /**
   * Last write wins: when `line` names `f` and no later line does, `f` ends
   * up with the value `line` gives it, whatever came before.
   */
  lemma LastWriteWins(s: Settings, before: seq<string>, line: string, after: seq<string>, unset: Channels, f: Field)
    requires Target(line) == Some(f)
    requires forall i :: 0 <= i < |after| ==> Target(after[i]) != Some(f)
    ensures SameField(DecodeLines(s, before + [line] + after, unset), ApplyLine(s, line, unset), f)
  {
    var u := ApplyLine(DecodeLines(s, before, unset), line, unset);
    DecodeLinesAround(s, before, line, after, unset);
    LinesAvoidingField(u, after, unset, f);
    LineValueIgnoresState(DecodeLines(s, before, unset), s, line, unset, f);
    SameFieldTransitive(DecodeLines(u, after, unset), u, ApplyLine(s, line, unset), f);
  }

  /** Decoding `before + [line] + after` passes through `line` once. */
  lemma DecodeLinesAround(s: Settings, before: seq<string>, line: string, after: seq<string>, unset: Channels)
    ensures DecodeLines(s, before + [line] + after, unset)
         == DecodeLines(ApplyLine(DecodeLines(s, before, unset), line, unset), after, unset)
  {
    DecodeLinesAppend(s, before, [line] + after, unset);
    assert before + [line] + after == before + ([line] + after);
    assert ([line] + after)[0] == line && ([line] + after)[1..] == after;
  }

  lemma SameFieldTransitive(a: Settings, b: Settings, c: Settings, f: Field)
    requires SameField(a, b, f) && SameField(b, c, f)
    ensures SameField(a, c, f)
  {
  }

  // ---------------------------------------------------------------------
  // Whole texts
  // ---------------------------------------------------------------------

  /**
   * Inserting an ignored line (blank, comment, no `=`, or an unknown key
   * such as `foo=bar`) anywhere in a config text does not change what it
   * decodes to.
   */
  lemma IgnoredLineTolerance(s: Settings, before: string, line: string, after: string, unset: Channels)
    requires before == [] || before[|before| - 1] == '\n'
    requires '\n' !in line
    requires Target(line) == None
    ensures Decode(s, before + line + "\n" + after, unset) == Decode(s, before + after, unset)
  {
    var a, b := SplitLines(before), SplitLines(after);
    assert SplitLines(before + line + "\n" + after) == a + ([line] + b) by {
      var rest := line + "\n" + after;
      assert before + line + "\n" + after == before + rest;
      SplitLinesAppend(before, rest);
      SplitLinesCons(line, after);
    }
    assert SplitLines(before + after) == a + b by {
      SplitLinesAppend(before, after);
    }
    var t := DecodeLines(s, a, unset);
    assert DecodeLines(s, a + ([line] + b), unset) == DecodeLines(t, b, unset) by {
      DecodeLinesAppend(s, a, [line] + b, unset);
      assert ([line] + b)[0] == line && ([line] + b)[1..] == b;
      LineTouchesOnlyItsTarget(t, line, unset, GridSize);
    }
    assert DecodeLines(s, a + b, unset) == DecodeLines(t, b, unset) by {
      DecodeLinesAppend(s, a, b, unset);
    }
  }

  /**
   * A field no line of the text names keeps its previous value; for
   * `gridSize` that value is still clamped.
   */
  lemma UnmentionedFieldKept(s: Settings, content: string, unset: Channels, f: Field)
    requires forall i :: 0 <= i < |SplitLines(content)| ==> Target(SplitLines(content)[i]) != Some(f)
    ensures f != GridSize ==> SameField(Decode(s, content, unset), s, f)
    ensures f == GridSize ==> Decode(s, content, unset).gridSize == ClampGrid(s.gridSize)
  {
    LinesAvoidingField(s, SplitLines(content), unset, f);
  }

  /** A `gridSize=` line stores the `atoi` value of its text, clamped. */
  lemma GridSizeLine(s: Settings, val: string, unset: Channels)
    requires '\n' !in val
    ensures Decode(s, "gridSize=" + val + "\n", unset).gridSize == ClampGrid(Atoi(val))
  {
    var line := KeyName(GridSize) + "=" + val;
    var text := "gridSize=" + val + "\n";
    assert '\n' !in line;
    SplitLinesCons(line, "");
    assert line + "\n" + "" == text;
    assert SplitLines("") == [];
    var lines := SplitLines(text);
    assert lines == [line];
    ApplyKeyValue(s, GridSize, val, unset);
    var t := ApplyLine(s, line, unset);
    assert lines[1..] == [];
    assert DecodeLines(s, lines, unset) == DecodeLines(t, [], unset) == t;
  }

  /** Examples: out-of-range grid sizes are clamped. */
  lemma GridSizeExamples(s: Settings, unset: Channels)
    ensures Decode(s, "gridSize=999\n", unset).gridSize == MAX_GRID
    ensures Decode(s, "gridSize=0\n", unset).gridSize == 1
  {
    assert DigitChar(9) == '9';
    assert NatToDecimal(9) == "9";
    assert NatToDecimal(99) == NatToDecimal(9) + [DigitChar(9)] == "99";
    assert NatToDecimal(999) == NatToDecimal(99) + [DigitChar(9)] == "999";
    assert "gridSize=" + "999" + "\n" == "gridSize=999\n";
    GridSizeDecimal(s, 999, unset);
    assert DigitChar(0) == '0';
    assert IntToDecimal(0) == "0";
    assert "gridSize=" + "0" + "\n" == "gridSize=0\n";
    GridSizeDecimal(s, 0, unset);
  }

  /**
   * A grid size without any digit (`gridSize=abc`, `gridSize=`) reads as 0
   * and is clamped to 1.
   */
  lemma NonNumericGridSize(s: Settings, val: string, unset: Channels)
    requires '\n' !in val
    requires forall i :: 0 <= i < |val| ==> !IsDigit(val[i])
    ensures Decode(s, "gridSize=" + val + "\n", unset).gridSize == 1
  {
    GridSizeLine(s, val, unset);
    AtoiWithoutDigits(val);
  }

  /** A `gridSize=` line holding the rendering of `n` stores `n`, clamped. */
  lemma GridSizeDecimal(s: Settings, n: int, unset: Channels)
    ensures Decode(s, "gridSize=" + IntToDecimal(n) + "\n", unset).gridSize == ClampGrid(n)
  {
    NoSeparators(n);
    GridSizeLine(s, IntToDecimal(n), unset);
    ScanIntOfDecimal(n, []);
    assert IntToDecimal(n) + [] == IntToDecimal(n);
  }

  /** The rendering of an integer holds no newline, `=` or NUL. */
  lemma NoSeparators(n: int)
    ensures '\n' !in IntToDecimal(n) && '=' !in IntToDecimal(n) && '\0' !in IntToDecimal(n)
    ensures forall i :: 0 <= i < |IntToDecimal(n)| ==> IntToDecimal(n)[i] == '-' || IsDigit(IntToDecimal(n)[i])
  {
    var d := NatToDecimal(if n < 0 then -n else n);
    assert forall i :: 0 <= i < |d| ==> IsDigit(d[i]);
    if n < 0 {
      assert forall i :: 1 <= i < |IntToDecimal(n)| ==> IntToDecimal(n)[i] == d[i - 1];
    }
  }

  // ---------------------------------------------------------------------
  // Colours
  // ---------------------------------------------------------------------

  /**
   * A well-formed colour value `r g b` stores `RGB(r, g, b)`, whatever `r`,
   * `g` and `b` held before, and the stored colour unpacks to r, g and b
   * mod 256.
   */
  lemma WellFormedColor(r: int, g: int, b: int, unset: Channels)
    ensures var c := ColorValue(IntToDecimal(r) + " " + IntToDecimal(g) + " " + IntToDecimal(b), unset);
      && c == RGB(r, g, b)
      && GetRValue(c) as int == r % 256
      && GetGValue(c) as int == g % 256
      && GetBValue(c) as int == b % 256
  {
    ScanThreeDecimals(r, g, b);
    ChannelsOfRGB(r, g, b);
  }

  /**
   * A colour value with only two numbers, `r g`, stores red r and green g;
   * blue keeps whatever the variable `b` held, because `sscanf` stops at
   * the conversion that fails.
   */
  lemma PartialColor(r: int, g: int, unset: Channels)
    ensures ColorValue(IntToDecimal(r) + " " + IntToDecimal(g), unset) == RGB(r, g, unset.b)
  {
    ScanTwoDecimals(r, g);
  }

  /** The saved text of a colour reads back as that colour. */
  lemma ColorTextReadsBack(c: Colorref, unset: Channels)
    requires IsRgb(c)
    ensures ColorValue(ColorText(c), unset) == c
  {
    WellFormedColor(GetRValue(c) as int, GetGValue(c) as int, GetBValue(c) as int, unset);
    RGBOfChannels(c);
  }

  /** Decoding keeps colours in the form `RGB` produces (top byte zero). */
  lemma {:induction false} DecodeLinesKeepsRgb(s: Settings, lines: seq<string>, unset: Channels)
    requires IsRgb(s.bgColor) && IsRgb(s.gridColor)
    ensures var t := DecodeLines(s, lines, unset); IsRgb(t.bgColor) && IsRgb(t.gridColor)
    decreases |lines|
  {
    if |lines| > 0 {
      ApplyLineKeepsRgb(s, lines[0], unset);
      DecodeLinesKeepsRgb(ApplyLine(s, lines[0], unset), lines[1..], unset);
    }
  }

  /** A single line stores either nothing or a colour `RGB` made. */
  lemma ApplyLineKeepsRgb(s: Settings, line: string, unset: Channels)
    requires IsRgb(s.bgColor) && IsRgb(s.gridColor)
    ensures var t := ApplyLine(s, line, unset); IsRgb(t.bgColor) && IsRgb(t.gridColor)
  {
    LineTouchesOnlyItsTarget(s, line, unset, BgColor);
    LineTouchesOnlyItsTarget(s, line, unset, GridColor);
    if Target(line) == Some(BgColor) || Target(line) == Some(GridColor) {
      var t := ApplyLine(s, line, unset);
      var val := Value(line);
      ColorValueIsRgb(val, unset);
      if Target(line) == Some(BgColor) {
        assert Key(line) == "bgColor";
        assert t.bgColor == ColorValue(val, unset);
      } else {
        assert Key(line) == "gridColor";
        assert t.gridColor == ColorValue(val, unset);
      }
    }
  }

  /** A colour line always stores a colour `RGB` made. */
  lemma ColorValueIsRgb(val: string, unset: Channels)
    ensures IsRgb(ColorValue(val, unset))
  {
  }

  // ---------------------------------------------------------------------
  // Encoder and round trip
  // ---------------------------------------------------------------------

  /**
   * A colour is saved as three unpadded decimals in 0..255 separated by
   * single spaces: one to three digits each, with a leading zero only for 0.
   */
  lemma ColorTextIsCanonical(c: Colorref)
    ensures var r, g, b := GetRValue(c) as int, GetGValue(c) as int, GetBValue(c) as int;
      && 0 <= r < 256 && 0 <= g < 256 && 0 <= b < 256
      && ColorText(c) == NatToDecimal(r) + " " + NatToDecimal(g) + " " + NatToDecimal(b)
      && 1 <= |NatToDecimal(r)| <= 3 && 1 <= |NatToDecimal(g)| <= 3 && 1 <= |NatToDecimal(b)| <= 3
      && (NatToDecimal(r)[0] == '0' <==> r == 0)
      && (NatToDecimal(g)[0] == '0' <==> g == 0)
      && (NatToDecimal(b)[0] == '0' <==> b == 0)
  {
    DecimalIsCanonical(GetRValue(c) as int);
    DecimalIsCanonical(GetGValue(c) as int);
    DecimalIsCanonical(GetBValue(c) as int);
  }

  lemma ColorTextSeparators(c: Colorref)
    ensures '\n' !in ColorText(c) && '\0' !in ColorText(c)
  {
    NoSeparators(GetRValue(c) as int);
    NoSeparators(GetGValue(c) as int);
    NoSeparators(GetBValue(c) as int);
  }

  /** The saved text holds no NUL, so a C string built from it is all of it. */
  lemma EncodeHasNoNul(s: Settings)
    ensures '\0' !in Encode(s)
  {
    var l1 := KeyName(GridSize) + "=" + IntToDecimal(s.gridSize);
    var l2 := KeyName(WindowWidth) + "=" + IntToDecimal(s.windowWidth);
    var l3 := KeyName(WindowHeight) + "=" + IntToDecimal(s.windowHeight);
    var l4 := KeyName(BgColor) + "=" + ColorText(s.bgColor);
    var l5 := KeyName(GridColor) + "=" + ColorText(s.gridColor);
    assert '\0' !in l1 by { NoSeparators(s.gridSize); KeyLineSeparators(GridSize, IntToDecimal(s.gridSize)); }
    assert '\0' !in l2 by { NoSeparators(s.windowWidth); KeyLineSeparators(WindowWidth, IntToDecimal(s.windowWidth)); }
    assert '\0' !in l3 by { NoSeparators(s.windowHeight); KeyLineSeparators(WindowHeight, IntToDecimal(s.windowHeight)); }
    assert '\0' !in l4 by { ColorTextSeparators(s.bgColor); KeyLineSeparators(BgColor, ColorText(s.bgColor)); }
    assert '\0' !in l5 by { ColorTextSeparators(s.gridColor); KeyLineSeparators(GridColor, ColorText(s.gridColor)); }
  }

  /**
   * The saved text is exactly five newline-terminated `key=value` lines, in
   * the order gridSize, windowWidth, windowHeight, bgColor, gridColor.
   */
  lemma EncodeLines(s: Settings)
    ensures SplitLines(Encode(s)) == [
      KeyName(GridSize) + "=" + IntToDecimal(s.gridSize),
      KeyName(WindowWidth) + "=" + IntToDecimal(s.windowWidth),
      KeyName(WindowHeight) + "=" + IntToDecimal(s.windowHeight),
      KeyName(BgColor) + "=" + ColorText(s.bgColor),
      KeyName(GridColor) + "=" + ColorText(s.gridColor)]
    ensures Encode(s)[|Encode(s)| - 1] == '\n'
  {
    var l1 := KeyName(GridSize) + "=" + IntToDecimal(s.gridSize);
    var l2 := KeyName(WindowWidth) + "=" + IntToDecimal(s.windowWidth);
    var l3 := KeyName(WindowHeight) + "=" + IntToDecimal(s.windowHeight);
    var l4 := KeyName(BgColor) + "=" + ColorText(s.bgColor);
    var l5 := KeyName(GridColor) + "=" + ColorText(s.gridColor);
    assert '\n' !in l1 by { KeyLineSeparators(GridSize, IntToDecimal(s.gridSize)); NoSeparators(s.gridSize); }
    assert '\n' !in l2 by { KeyLineSeparators(WindowWidth, IntToDecimal(s.windowWidth)); NoSeparators(s.windowWidth); }
    assert '\n' !in l3 by { KeyLineSeparators(WindowHeight, IntToDecimal(s.windowHeight)); NoSeparators(s.windowHeight); }
    assert '\n' !in l4 by { KeyLineSeparators(BgColor, ColorText(s.bgColor)); ColorTextSeparators(s.bgColor); }
    assert '\n' !in l5 by { KeyLineSeparators(GridColor, ColorText(s.gridColor)); ColorTextSeparators(s.gridColor); }
    FiveLines(l1, l2, l3, l4, l5);
  }

  lemma FiveDisplay(l1: string, l2: string, l3: string, l4: string, l5: string)
    ensures [l1] + ([l2] + ([l3] + ([l4] + ([l5] + [])))) == [l1, l2, l3, l4, l5]
  {
  }

  lemma PrependLine(line: string, rest: string, lines: seq<string>)
    requires '\n' !in line && SplitLines(rest) == lines
    ensures SplitLines(line + "\n" + rest) == [line] + lines
  {
    SplitLinesCons(line, rest);
  }

  /** A `key=value` line holds a newline only where its value does. */
  lemma KeyLineSeparators(f: Field, val: string)
    ensures '\n' !in val ==> '\n' !in KeyName(f) + "=" + val
    ensures '\0' !in val ==> '\0' !in KeyName(f) + "=" + val
  {
    match f case _ =>
  }

  /** Five newline-terminated lines split back into those five lines. */
  lemma FiveLines(l1: string, l2: string, l3: string, l4: string, l5: string)
    requires '\n' !in l1 && '\n' !in l2 && '\n' !in l3 && '\n' !in l4 && '\n' !in l5
    ensures SplitLines(l1 + "\n" + l2 + "\n" + l3 + "\n" + l4 + "\n" + l5 + "\n") == [l1, l2, l3, l4, l5]
    ensures var t := l1 + "\n" + l2 + "\n" + l3 + "\n" + l4 + "\n" + l5 + "\n"; t[|t| - 1] == '\n'
  {
    var t5 := l5 + "\n" + "";
    var t4 := l4 + "\n" + t5;
    var t3 := l3 + "\n" + t4;
    var t2 := l2 + "\n" + t3;
    var t1 := l1 + "\n" + t2;
    assert l1 + "\n" + l2 + "\n" + l3 + "\n" + l4 + "\n" + l5 + "\n" == t1;
    PrependLine(l5, "", []);
    PrependLine(l4, t5, [l5] + []);
    PrependLine(l3, t4, [l4] + ([l5] + []));
    PrependLine(l2, t3, [l3] + ([l4] + ([l5] + [])));
    PrependLine(l1, t2, [l2] + ([l3] + ([l4] + ([l5] + []))));
    FiveDisplay(l1, l2, l3, l4, l5);
  }

  /**
   * Round trip: decoding the saved text gives back the settings, whatever
   * the settings were before decoding and whatever `r`, `g`, `b` held;
   * only `gridSize` is clamped, so settings already in range come back
   * exactly.
   */
  lemma RoundTrip(s: Settings, before: Settings, unset: Channels)
    requires IsRgb(s.bgColor) && IsRgb(s.gridColor)
    ensures Decode(before, Encode(s), unset) == s.(gridSize := ClampGrid(s.gridSize))
    ensures 1 <= s.gridSize <= MAX_GRID ==> Decode(before, Encode(s), unset) == s
  {
    EncodeLines(s);
    var v1, v2, v3 := IntToDecimal(s.gridSize), IntToDecimal(s.windowWidth), IntToDecimal(s.windowHeight);
    var v4, v5 := ColorText(s.bgColor), ColorText(s.gridColor);
    var a1 := ApplyLine(before, KeyName(GridSize) + "=" + v1, unset);
    var a2 := ApplyLine(a1, KeyName(WindowWidth) + "=" + v2, unset);
    var a3 := ApplyLine(a2, KeyName(WindowHeight) + "=" + v3, unset);
    var a4 := ApplyLine(a3, KeyName(BgColor) + "=" + v4, unset);
    var a5 := ApplyLine(a4, KeyName(GridColor) + "=" + v5, unset);
    assert a1 == before.(gridSize := s.gridSize) by {
      ApplyKeyValue(before, GridSize, v1, unset);
      DecimalReadsBack(s.gridSize);
    }
    assert a2 == a1.(windowWidth := s.windowWidth) by {
      ApplyKeyValue(a1, WindowWidth, v2, unset);
      DecimalReadsBack(s.windowWidth);
    }
    assert a3 == a2.(windowHeight := s.windowHeight) by {
      ApplyKeyValue(a2, WindowHeight, v3, unset);
      DecimalReadsBack(s.windowHeight);
    }
    assert a4 == a3.(bgColor := s.bgColor) by {
      ApplyKeyValue(a3, BgColor, v4, unset);
      ColorTextReadsBack(s.bgColor, unset);
    }
    assert a5 == a4.(gridColor := s.gridColor) by {
      ApplyKeyValue(a4, GridColor, v5, unset);
      ColorTextReadsBack(s.gridColor, unset);
    }
    DecodeFive(before, KeyName(GridSize) + "=" + v1, KeyName(WindowWidth) + "=" + v2,
      KeyName(WindowHeight) + "=" + v3, KeyName(BgColor) + "=" + v4, KeyName(GridColor) + "=" + v5, unset);
  }

  /** `atoi` of the rendering of `n` is `n`. */
  lemma DecimalReadsBack(n: int)
    ensures Atoi(IntToDecimal(n)) == n
  {
    ScanIntOfDecimal(n, []);
    assert IntToDecimal(n) + [] == IntToDecimal(n);
  }

  /** Decoding five lines applies them one after another. */
  lemma DecodeFive(s: Settings, l1: string, l2: string, l3: string, l4: string, l5: string, unset: Channels)
    ensures DecodeLines(s, [l1, l2, l3, l4, l5], unset)
         == ApplyLine(ApplyLine(ApplyLine(ApplyLine(ApplyLine(s, l1, unset), l2, unset), l3, unset), l4, unset), l5, unset)
  {
    var b1 := ApplyLine(s, l1, unset);
    var b2 := ApplyLine(b1, l2, unset);
    var b3 := ApplyLine(b2, l3, unset);
    var b4 := ApplyLine(b3, l4, unset);
    var b5 := ApplyLine(b4, l5, unset);
    assert DecodeLines(b4, [l5], unset) == DecodeLines(b5, [], unset) == b5;
    assert [l4, l5][1..] == [l5];
    assert DecodeLines(b3, [l4, l5], unset) == b5;
    assert [l3, l4, l5][1..] == [l4, l5];
    assert DecodeLines(b2, [l3, l4, l5], unset) == b5;
    assert [l2, l3, l4, l5][1..] == [l3, l4, l5];
    assert DecodeLines(b1, [l2, l3, l4, l5], unset) == b5;
    assert [l1, l2, l3, l4, l5][1..] == [l2, l3, l4, l5];
  }
}
