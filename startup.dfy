/**
 * What `_tmain` does before the window appears: read the command line,
 * load config.txt with the chosen method, and let a grid size from the
 * command line override the loaded one. The file system is a parameter:
 * a `FileRead` describes what opening and reading config.txt produced.
 */
module Startup {
  import opened Wrappers
  import opened CText
  import opened ColorRef
  import opened ConfigCodec
  import opened CodecProperties

  // ---------------------------------------------------------------------
  // Command line
  // ---------------------------------------------------------------------

  /** The value `configMethod` takes after `-m n`: an unknown method becomes 2. */
  function MethodChoice(n: int): (m: int)
    ensures 1 <= m <= 4
    ensures 1 <= n <= 4 ==> m == n
    ensures !(1 <= n <= 4) ==> m == 2
  {
    if n < 1 || n > 4 then 2 else n
  }

  /**
   * The arguments read as grid sizes: every argument except a `-m` that has
   * a successor and that successor. A `-m` in the last position is itself
   * positional.
   */
  function Positional(args: seq<string>): seq<string>
    decreases |args|
  {
    if |args| == 0 then []
    else if args[0] == "-m" && |args| > 1 then Positional(args[2..])
    else [args[0]] + Positional(args[1..])
  }

  /** The successors of the `-m` flags, in order. */
  function MethodValues(args: seq<string>): seq<string>
    decreases |args|
  {
    if |args| == 0 then []
    else if args[0] == "-m" && |args| > 1 then [args[1]] + MethodValues(args[2..])
    else MethodValues(args[1..])
  }

  function Last(s: seq<string>): string
    requires |s| > 0
  {
    s[|s| - 1]
  }

  /**
   * The argument loop of `_tmain` over `args` (= `argv[1..]`), starting from
   * the current `configMethod`: the last `-m` value decides the method and
   * the last positional argument decides `argSize`, which stays -1 when there
   * is none.
   */
  method ParseArguments(args: seq<string>, initial: int) returns (configMethod: int, argSize: int)
    ensures configMethod == if MethodValues(args) == [] then initial else MethodChoice(Atoi(Last(MethodValues(args))))
    ensures argSize == if Positional(args) == [] then -1 else Atoi(Last(Positional(args)))
  {
    configMethod, argSize := initial, -1;
    ghost var seenPos: seq<string> := [];
    ghost var seenVals: seq<string> := [];
    var i := 0;
    while i < |args|
      invariant 0 <= i <= |args|
      invariant Positional(args) == seenPos + Positional(args[i..])
      invariant MethodValues(args) == seenVals + MethodValues(args[i..])
      invariant seenPos == [] ==> argSize == -1
      invariant seenPos != [] ==> argSize == Atoi(Last(seenPos))
      invariant seenVals == [] ==> configMethod == initial
      invariant seenVals != [] ==> configMethod == MethodChoice(Atoi(Last(seenVals)))
      decreases |args| - i
    {
      if args[i] == "-m" && i + 1 < |args| {
        assert MethodValues(args) == seenVals + [args[i + 1]] + MethodValues(args[i + 2..])
            && Positional(args) == seenPos + Positional(args[i + 2..]) by {
          ArgumentStep(args, i);
          SeqAssoc(seenVals, [args[i + 1]], MethodValues(args[i + 2..]));
        }
        var value := args[i + 1];
        configMethod := MethodChoice(Atoi(value));
        seenVals := seenVals + [value];
        assert Last(seenVals) == value;
        i := i + 2;
      } else {
        assert Positional(args) == seenPos + [args[i]] + Positional(args[i + 1..])
            && MethodValues(args) == seenVals + MethodValues(args[i + 1..]) by {
          ArgumentStep(args, i);
          SeqAssoc(seenPos, [args[i]], Positional(args[i + 1..]));
        }
        var arg := args[i];
        argSize := Atoi(arg);
        seenPos := seenPos + [arg];
        assert Last(seenPos) == arg;
        i := i + 1;
      }
    }
    assert args[i..] == [];
    assert seenPos + [] == seenPos && seenVals + [] == seenVals;
  }

  lemma SeqAssoc(a: seq<string>, b: seq<string>, c: seq<string>)
    ensures a + (b + c) == a + b + c
  {
  }

  /** One pass of the argument loop, at position `i`. */
  lemma ArgumentStep(args: seq<string>, i: nat)
    requires i < |args|
    ensures args[i] == "-m" && i + 1 < |args| ==>
      Positional(args[i..]) == Positional(args[i + 2..])
      && MethodValues(args[i..]) == [args[i + 1]] + MethodValues(args[i + 2..])
    ensures !(args[i] == "-m" && i + 1 < |args|) ==>
      Positional(args[i..]) == [args[i]] + Positional(args[i + 1..])
      && MethodValues(args[i..]) == MethodValues(args[i + 1..])
  {
    assert args[i..][0] == args[i];
    if i + 1 < |args| {
      assert args[i..][1] == args[i + 1];
      assert args[i..][2..] == args[i + 2..];
    }
    assert args[i..][1..] == args[i + 1..];
  }

  /** `-m` consumes its successor, which is never read as a grid size. */
  lemma MethodFlagConsumesValue(n: string, rest: seq<string>)
    ensures Positional(["-m", n] + rest) == Positional(rest)
    ensures MethodValues(["-m", n] + rest) == [n] + MethodValues(rest)
  {
    assert (["-m", n] + rest)[2..] == rest;
  }

  /**
   * The argument loop ends on a `-m` that has no successor: that `-m` is not
   * a flag's value, so it is read as a grid size.
   */
  predicate DanglingFlag(args: seq<string>)
    decreases |args|
  {
    if |args| == 0 then false
    else if args[0] == "-m" then (if |args| > 1 then DanglingFlag(args[2..]) else true)
    else DanglingFlag(args[1..])
  }

  /**
   * A `-m` appended to a command line that does not already end on a
   * dangling `-m` is read as a grid size: it becomes the last positional
   * argument, so `argSize` is `atoi("-m")`, 0, which cancels any earlier
   * size and overrides nothing; the method values are unchanged.
   */
  lemma TrailingMethodFlag(args: seq<string>, gridSize: int)
    requires !DanglingFlag(args)
    ensures Positional(args + ["-m"]) == Positional(args) + ["-m"]
    ensures MethodValues(args + ["-m"]) == MethodValues(args)
    ensures Atoi(Last(Positional(args + ["-m"]))) == 0
    ensures GridOverride(gridSize, Atoi(Last(Positional(args + ["-m"])))) == gridSize
  {
    AppendFlag(args);
    assert Last(Positional(args) + ["-m"]) == "-m";
    AtoiOfFlag();
  }

  /** The parse of `args + ["-m"]` when `args` does not end on a dangling `-m`. */
  lemma {:induction false} AppendFlag(args: seq<string>)
    requires !DanglingFlag(args)
    ensures Positional(args + ["-m"]) == Positional(args) + ["-m"]
    ensures MethodValues(args + ["-m"]) == MethodValues(args)
    decreases |args|
  {
    var a := args + ["-m"];
    if |args| == 0 {
      assert a == ["-m"];
      assert a[1..] == [];
      assert Positional(a) == ["-m"] + Positional([]);
    } else if args[0] == "-m" {
      assert |args| > 1 && a[0] == "-m" && |a| > 1;
      assert a[2..] == args[2..] + ["-m"];
      AppendFlag(args[2..]);
    } else {
      assert a[0] == args[0] && a[1..] == args[1..] + ["-m"];
      AppendFlag(args[1..]);
      assert Positional(a) == [args[0]] + (Positional(args[1..]) + ["-m"]);
    }
  }

  /** `atoi("-m")` is 0. */
  lemma AtoiOfFlag()
    ensures Atoi("-m") == 0
  {
    AtoiWithoutDigits("-m");
  }

  /**
   * `15 -m`: the trailing `-m` replaces the size 15 by 0. `-m -m`: the second
   * `-m` is the first one's value, selects method 2 and sets no size.
   */
  lemma TrailingMethodFlagExamples()
    ensures Positional(["15", "-m"]) == ["15", "-m"] && MethodValues(["15", "-m"]) == []
    ensures Atoi(Last(Positional(["15", "-m"]))) == 0
    ensures Positional(["-m", "-m"]) == [] && MethodValues(["-m", "-m"]) == ["-m"]
    ensures MethodChoice(Atoi(Last(MethodValues(["-m", "-m"])))) == 2
  {
    var one: seq<string> := ["15"];
    assert one[0] != "-m" && one[1..] == [];
    assert Positional(one) == ["15"] && MethodValues(one) == [] && !DanglingFlag(one);
    assert one + ["-m"] == ["15", "-m"];
    TrailingMethodFlag(one, 0);
    MethodFlagConsumesValue("-m", []);
    assert ["-m", "-m"] + [] == ["-m", "-m"];
    AtoiOfFlag();
  }

  /** The grid size after the override: `argSize` wins only inside 1..MAX_GRID. */
  function GridOverride(gridSize: int, argSize: int): (r: int)
    ensures 1 <= gridSize <= MAX_GRID ==> 1 <= r <= MAX_GRID
    ensures 0 < argSize <= MAX_GRID ==> r == argSize
    ensures !(0 < argSize <= MAX_GRID) ==> r == gridSize
  {
    if argSize > 0 && argSize <= MAX_GRID then argSize else gridSize
  }

  // ---------------------------------------------------------------------
  // Loading config.txt
  // ---------------------------------------------------------------------

  /**
   * What the file system gave a loader: `Unreadable` when opening, mapping
   * or reading failed; otherwise the size the file reported and the bytes
   * actually read.
   */
  datatype FileRead = Unreadable | FileRead(size: nat, bytes: string)

  /**
   * The text `LoadConfig_MethodN` hands to `ParseConfigContent`, or `None`
   * when it returns false before parsing. Methods 1 and 4 build a C string,
   * so the text ends at the first NUL; method 1 gives up on an empty file,
   * which `CreateFileMappingA` refuses to map; method 2 gives up when `fread` read
   * fewer bytes than `ftell` reported; method 3 passes everything it read.
   */
  function LoaderContent(m: int, f: FileRead): (r: Option<string>)
    ensures r.Some? <==> f.FileRead? && 1 <= m <= 4 && (m == 1 ==> f.size > 0) && (m == 2 ==> |f.bytes| == f.size)
    ensures r.Some? && (m == 1 || m == 4) ==> '\0' !in r.value && |r.value| <= |f.bytes| && r.value == f.bytes[..|r.value|]
    ensures r.Some? && (m == 1 || m == 4) ==> r.value == CString(f.bytes)
    ensures r.Some? && (m == 2 || m == 3) ==> r.value == f.bytes
  {
    if f.Unreadable? then None
    else if m == 1 then (if f.size > 0 then Some(CString(f.bytes)) else None)
    else if m == 4 then Some(CString(f.bytes))
    else if m == 2 then (if |f.bytes| == f.size then Some(f.bytes) else None)
    else if m == 3 then Some(f.bytes)
    else None
  }

  /**
   * Text without a NUL reaches the parser whole by every method (method 1
   * needs it non-empty, since an empty file cannot be mapped).
   */
  lemma LoaderKeepsText(m: int, text: string)
    requires 1 <= m <= 4 && '\0' !in text
    requires m == 1 ==> text != []
    ensures LoaderContent(m, FileRead(|text|, text)) == Some(text)
  {
  }

  /**
   * What `WM_DESTROY` saves, the next start loads back: whichever of the
   * four methods is configured, the saved text reaches the parser whole and
   * decodes to the saved settings, with only `gridSize` clamped.
   */
  lemma SaveThenLoad(s: Settings, before: Settings, m: int, unset: Channels)
    requires 1 <= m <= 4
    requires IsRgb(s.bgColor) && IsRgb(s.gridColor)
    ensures LoaderContent(m, FileRead(|Encode(s)|, Encode(s))) == Some(Encode(s))
    ensures Decode(before, Encode(s), unset) == s.(gridSize := ClampGrid(s.gridSize))
  {
    EncodeHasNoNul(s);
    assert Encode(s)[0] == 'g';
    LoaderKeepsText(m, Encode(s));
    RoundTrip(s, before, unset);
  }
}
