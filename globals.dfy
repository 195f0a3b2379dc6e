/**
 * The program's global state and the procedures that change it in place:
 * `ParseConfigContent`, the `LoadConfig_MethodN` dispatch, and the start-up
 * sequence of `_tmain`.
 */
module Globals {
  import opened Wrappers
  import opened CText
  import opened ColorRef
  import opened ConfigCodec
  import opened CodecProperties
  import opened Startup

  /** The globals `gridSize` .. `configMethod` of LR2v3.cpp. */
  class Program {
    var gridSize: int
    var windowWidth: int
    var windowHeight: int
    var bgColor: Colorref
    var gridColor: Colorref
    var configMethod: int

    /** The five persisted globals as a value. */
    function Snapshot(): Settings
      reads this
    {
      Settings(gridSize, windowWidth, windowHeight, bgColor, gridColor)
    }

    /**
     * What the window code relies on: a grid size it can divide by and index
     * `grid` with, colours `RGB` made, and one of the four config methods.
     */
    ghost predicate Valid()
      reads this
    {
      1 <= gridSize <= MAX_GRID && IsRgb(bgColor) && IsRgb(gridColor) && 1 <= configMethod <= 4
    }

    /** The static initialisers. */
    constructor ()
      ensures Valid()
      ensures Snapshot() == Defaults() && configMethod == 2
    {
      gridSize, windowWidth, windowHeight := 10, 320, 240;
      bgColor, gridColor := RGB(0, 0, 255), RGB(255, 0, 0);
      configMethod := 2;
    }

    /**
     * What `WM_DESTROY` saves with the configured method, the next start
     * loads back whole and decodes to exactly the current settings: the
     * invariant gives the range and colour form the round trip needs.
     */
    lemma SavedStateReloads(before: Settings, unset: Channels)
      requires Valid()
      ensures LoaderContent(configMethod, FileRead(|Encode(Snapshot())|, Encode(Snapshot()))) == Some(Encode(Snapshot()))
      ensures Decode(before, Encode(Snapshot()), unset) == Snapshot()
    {
      SaveThenLoad(Snapshot(), before, configMethod, unset);
    }

    /**
     * `ParseConfigContent(content)`: applies every line of `content` to the
     * globals, clamps `gridSize`, and reports success unconditionally.
     */
    method ParseConfigContent(content: string, unset: Channels) returns (ok: bool)
      modifies this`gridSize, this`windowWidth, this`windowHeight, this`bgColor, this`gridColor
      ensures ok
      ensures Snapshot() == Decode(old(Snapshot()), content, unset)
      ensures old(Valid()) ==> Valid()
    {
      ghost var start := Snapshot();
      var lines := SplitLines(content);
      for i := 0 to |lines|
        invariant DecodeLines(start, lines, unset) == DecodeLines(Snapshot(), lines[i..], unset)
      {
        DecodeLinesStep(Snapshot(), lines, i, unset);
        ApplyConfigLine(lines[i], unset);
      }
      assert Snapshot() == DecodeLines(start, lines, unset) by {
        assert lines[|lines|..] == [];
      }
      if IsRgb(start.bgColor) && IsRgb(start.gridColor) {
        DecodeLinesKeepsRgb(start, lines, unset);
      }
      if gridSize < 1 {
        gridSize := 1;
      }
      if gridSize > MAX_GRID {
        gridSize := MAX_GRID;
      }
      ok := true;
    }

    /** One pass of the body of the `getline` loop of `ParseConfigContent`. */
    method ApplyConfigLine(line: string, unset: Channels)
      modifies this`gridSize, this`windowWidth, this`windowHeight, this`bgColor, this`gridColor
      ensures Snapshot() == ApplyLine(old(Snapshot()), line, unset)
    {
      if |line| == 0 || line[0] == '#' {
        return;
      }
      if '=' !in line {
        return;
      }
      var pos := IndexOf(line, '=');
      var key, val := line[..pos], line[pos + 1..];
      assert !Skipped(line) && key == Key(line) && val == Value(line);
      if key == "gridSize" {
        gridSize := Atoi(val);
      } else if key == "windowWidth" {
        windowWidth := Atoi(val);
      } else if key == "windowHeight" {
        windowHeight := Atoi(val);
      } else if key == "bgColor" {
        bgColor := ColorValue(val, unset);
      } else if key == "gridColor" {
        gridColor := ColorValue(val, unset);
      }
    }

    /**
     * `switch (configMethod)` over `LoadConfig_Method1` .. `4`: the chosen
     * loader either gives up before parsing, leaving the globals as they
     * were, or parses the text it read.
     */
    method LoadConfig(f: FileRead, unset: Channels) returns (ok: bool)
      modifies this`gridSize, this`windowWidth, this`windowHeight, this`bgColor, this`gridColor
      ensures ok == LoaderContent(old(configMethod), f).Some?
      ensures Snapshot() == match LoaderContent(old(configMethod), f)
        case None => old(Snapshot())
        case Some(text) => Decode(old(Snapshot()), text, unset)
      ensures old(Valid()) ==> Valid()
    {
      var content := LoaderContent(configMethod, f);
      if content.Some? {
        ok := ParseConfigContent(content.value, unset);
      } else {
        ok := false;
      }
    }

    /**
     * The start of `_tmain`: the argument loop, the config load with the
     * method it selected, and the command-line override of `gridSize`.
     */
    method Start(args: seq<string>, f: FileRead, unset: Channels) returns (ok: bool)
      modifies this
      ensures configMethod == if MethodValues(args) == [] then old(configMethod) else MethodChoice(Atoi(Last(MethodValues(args))))
      ensures ok == LoaderContent(configMethod, f).Some?
      ensures var loaded := match LoaderContent(configMethod, f)
          case None => old(Snapshot())
          case Some(text) => Decode(old(Snapshot()), text, unset);
        var argSize := if Positional(args) == [] then -1 else Atoi(Last(Positional(args)));
        Snapshot() == loaded.(gridSize := GridOverride(loaded.gridSize, argSize))
      ensures old(Valid()) ==> Valid()
    {
      var m, argSize := ParseArguments(args, configMethod);
      configMethod := m;
      ok := LoadConfig(f, unset);
      ghost var loaded := Snapshot();
      if argSize > 0 && argSize <= MAX_GRID {
        gridSize := argSize;
      }
      assert Snapshot() == loaded.(gridSize := GridOverride(loaded.gridSize, argSize));
    }
  }

  /** Applying `lines[i..]` is applying `lines[i]` and then `lines[i + 1..]`. */
  lemma DecodeLinesStep(s: Settings, lines: seq<string>, i: nat, unset: Channels)
    requires i < |lines|
    ensures DecodeLines(s, lines[i..], unset) == DecodeLines(ApplyLine(s, lines[i], unset), lines[i + 1..], unset)
  {
    assert lines[i..][0] == lines[i];
    assert lines[i..][1..] == lines[i + 1..];
  }
}
