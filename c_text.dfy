/**
 * The C and C++ runtime text conversions the configuration codec relies on,
 * stated as functions over `string` (= `seq<char>`):
 *  - `isspace` in the C locale, `atoi`, and one `%d` conversion of `sscanf`;
 *  - decimal rendering of an `int` by `std::ostream << int`;
 *  - line splitting by repeated `std::getline` on an `std::istringstream`;
 *  - building a `std::string` from a NUL-terminated `const char*`.
 * Integers are unbounded: the overflow of `atoi` and `%d`, which C leaves
 * undefined, is not modelled (the mathematical value is returned).
 */
module CText {
  import opened Wrappers

  // ---------------------------------------------------------------------
  // Characters
  // ---------------------------------------------------------------------

  /** `isspace` in the "C" locale: space, \t, \n, \v, \f, \r. */
  predicate IsSpace(c: char) {
    c == ' ' || c == '\t' || c == '\n' || c == '\U{B}' || c == '\U{C}' || c == '\r'
  }

  predicate IsDigit(c: char) {
    '0' <= c <= '9'
  }

  predicate AllDigits(d: string) {
    forall i :: 0 <= i < |d| ==> IsDigit(d[i])
  }

  function DigitValue(c: char): (v: nat)
    requires IsDigit(c)
    ensures v < 10
  {
    (c as int) - ('0' as int)
  }

  function DigitChar(v: nat): (c: char)
    requires v < 10
    ensures IsDigit(c) && DigitValue(c) == v
  {
    (('0' as int) + v) as char
  }

  // ---------------------------------------------------------------------
  // Reading integers: atoi and sscanf's %d
  // ---------------------------------------------------------------------

  /** What remains after the leading white space of `s`. */
  function SkipSpaces(s: string): (t: string)
    ensures |t| <= |s| && t == s[|s| - |t|..]
    ensures t == [] || !IsSpace(t[0])
  {
    if |s| > 0 && IsSpace(s[0]) then SkipSpaces(s[1..]) else s
  }

  /** What `SkipSpaces` drops is white space, and nothing else. */
  lemma {:induction false} SkipSpacesDropsOnlySpaces(s: string)
    ensures forall i :: 0 <= i < |s| - |SkipSpaces(s)| ==> IsSpace(s[i])
  {
    if |s| > 0 && IsSpace(s[0]) {
      var u := s[1..];
      SkipSpacesDropsOnlySpaces(u);
      assert SkipSpaces(s) == SkipSpaces(u);
      forall i | 0 <= i < |s| - |SkipSpaces(s)|
        ensures IsSpace(s[i])
      {
        if i > 0 {
          assert s[i] == u[i - 1];
        }
      }
    }
  }

  /** Length of the longest prefix of `s` made of decimal digits. */
  function DigitRun(s: string): (k: nat)
    ensures k <= |s|
    ensures AllDigits(s[..k])
    ensures k < |s| ==> !IsDigit(s[k])
  {
    if |s| > 0 && IsDigit(s[0]) then 1 + DigitRun(s[1..]) else 0
  }

  /** The number a string of decimal digits denotes (most significant first). */
  function DecimalValue(d: string): nat
    requires AllDigits(d)
  {
    if |d| == 0 then 0 else 10 * DecimalValue(d[..|d| - 1]) + DigitValue(d[|d| - 1])
  }

  /** The value one conversion produced and the input it left unread. */
  datatype Scanned = Scanned(value: int, rest: string)

  /**
   * One `%d` conversion of `sscanf` (the same reading `strtol` does in base
   * 10): skip white space, take an optional `+` or `-`, then the longest run
   * of digits, of which there must be at least one; `None` is a matching
   * failure, where nothing is stored.
   */
  function ScanInt(s: string): Option<Scanned> {
    ScanSigned(SkipSpaces(s))
  }

  /** The optional sign and the digits, once the white space is skipped. */
  function ScanSigned(t: string): Option<Scanned> {
    if |t| > 0 && t[0] == '-' then
      match ScanDigits(t[1..])
      case None => None
      case Some(sc) => Some(Scanned(-sc.value, sc.rest))
    else if |t| > 0 && t[0] == '+' then ScanDigits(t[1..])
    else ScanDigits(t)
  }

  /** The longest run of digits at the front of `u`, which must not be empty. */
  function ScanDigits(u: string): Option<Scanned> {
    var k := DigitRun(u);
    if k == 0 then None else Some(Scanned(DecimalValue(u[..k]), u[k..]))
  }

  /** C `atoi` (and `_ttoi`): the value of the longest numeric prefix, 0 if there is none. */
  function Atoi(s: string): int {
    match ScanInt(s)
    case None => 0
    case Some(sc) => sc.value
  }

  /**
   * The values that `sscanf` with `n` consecutive `%d` conversions separated
   * by white-space directives stores, in order; it stops at the first
   * conversion that fails, so fewer than `n` may be stored.
   */
  function ScanInts(s: string, n: nat): (vs: seq<int>)
    ensures |vs| <= n
    decreases n
  {
    if n == 0 then []
    else
      var r := ScanInt(s);
      if r.None? then [] else [r.value.value] + ScanInts(r.value.rest, n - 1)
  }

  /** A value with no digit at all reads as 0. */
  lemma AtoiWithoutDigits(s: string)
    requires forall i :: 0 <= i < |s| ==> !IsDigit(s[i])
    ensures ScanInt(s) == None && Atoi(s) == 0
  {
    var t := SkipSpaces(s);
    if |t| > 1 {
      assert t[1] == s[|s| - |t| + 1];
    }
  }

  /** Leading white space does not change what a `%d` conversion reads. */
  lemma ScanIntSkipsSpaces(w: string, s: string)
    requires forall i :: 0 <= i < |w| ==> IsSpace(w[i])
    ensures ScanInt(w + s) == ScanInt(s)
  {
    SkipSpacesAppend(w, s);
  }

  lemma {:induction false} SkipSpacesAppend(w: string, s: string)
    requires forall i :: 0 <= i < |w| ==> IsSpace(w[i])
    ensures SkipSpaces(w + s) == SkipSpaces(s)
  {
    if |w| > 0 {
      assert (w + s)[0] == w[0];
      assert (w + s)[1..] == w[1..] + s;
      SkipSpacesAppend(w[1..], s);
    } else {
      assert w + s == s;
    }
  }

  // ---------------------------------------------------------------------
  // Writing integers: std::ostream << int
  // ---------------------------------------------------------------------

  /** Decimal digits of `n`, most significant first, without leading zeros. */
  function NatToDecimal(n: nat): (d: string)
    ensures |d| >= 1 && AllDigits(d)
  {
    if n < 10 then [DigitChar(n)] else NatToDecimal(n / 10) + [DigitChar(n % 10)]
  }

  /** What `std::ostream << n` writes for an `int` in the default format. */
  function IntToDecimal(n: int): string {
    if n < 0 then "-" + NatToDecimal(-n) else NatToDecimal(n)
  }

  /** The digits written for `n` are read back as `n`. */
  lemma {:induction false} DecimalRoundTrip(n: nat)
    ensures DecimalValue(NatToDecimal(n)) == n
  {
    if n >= 10 {
      var d := NatToDecimal(n);
      assert d[..|d| - 1] == NatToDecimal(n / 10);
      DecimalRoundTrip(n / 10);
    }
  }

  /**
   * The rendering is canonical: no leading zero, and a byte value (0..255)
   * takes one to three digits.
   */
  lemma {:induction false} DecimalIsCanonical(n: nat)
    ensures NatToDecimal(n)[0] == '0' <==> n == 0
    ensures n < 256 ==> |NatToDecimal(n)| <= 3
  {
    if n >= 10 {
      DecimalIsCanonical(n / 10);
    }
  }

  /**
   * A `%d` conversion reads back exactly what `<<` wrote, when the number is
   * followed by the end of the text or by a character that is not a digit.
   */
  lemma ScanIntOfDecimal(n: int, rest: string)
    requires rest == [] || !IsDigit(rest[0])
    ensures ScanInt(IntToDecimal(n) + rest) == Some(Scanned(n, rest))
  {
    if n < 0 {
      ScanNegativeDecimal(n, rest);
    } else {
      ScanNonNegativeDecimal(n, rest);
    }
  }

  lemma ScanNegativeDecimal(n: int, rest: string)
    requires n < 0
    requires rest == [] || !IsDigit(rest[0])
    ensures ScanInt(IntToDecimal(n) + rest) == Some(Scanned(n, rest))
  {
    var d := NatToDecimal(-n);
    ScanUnsigned(d, rest, -n);
    var s := "-" + (d + rest);
    assert IntToDecimal(n) + rest == s;
    assert s[0] == '-' && s[1..] == d + rest;
    NoLeadingSpace(s);
  }

  lemma ScanNonNegativeDecimal(n: int, rest: string)
    requires n >= 0
    requires rest == [] || !IsDigit(rest[0])
    ensures ScanInt(IntToDecimal(n) + rest) == Some(Scanned(n, rest))
  {
    var d := NatToDecimal(n);
    ScanUnsigned(d, rest, n);
    var s := d + rest;
    assert IntToDecimal(n) + rest == s;
    assert s[0] == d[0] && IsDigit(s[0]);
    NoLeadingSpace(s);
    assert ScanSigned(s) == ScanDigits(s);
  }

  lemma NoLeadingSpace(s: string)
    requires s != [] && (s[0] == '-' || IsDigit(s[0]))
    ensures SkipSpaces(s) == s
  {
  }

  /** How an unsigned digit string followed by a non-digit is taken apart. */
  lemma ScanUnsigned(d: string, rest: string, m: nat)
    requires d == NatToDecimal(m)
    requires rest == [] || !IsDigit(rest[0])
    ensures ScanDigits(d + rest) == Some(Scanned(m, rest))
  {
    DecimalRoundTrip(m);
    DigitRunOf(d, rest);
    assert (d + rest)[..|d|] == d;
    assert (d + rest)[|d|..] == rest;
  }

  /** Three successful conversions in a row store three values. */
  lemma ScanThree(s0: string, s1: string, s2: string, s3: string, r: int, g: int, b: int)
    requires ScanInt(s0) == Some(Scanned(r, s1))
    requires ScanInt(s1) == Some(Scanned(g, s2))
    requires ScanInt(s2) == Some(Scanned(b, s3))
    ensures ScanInts(s0, 3) == [r, g, b]
  {
    assert ScanInts(s3, 0) == [];
    assert ScanInts(s2, 1) == [b];
    assert ScanInts(s1, 2) == [g] + ScanInts(s2, 1);
    assert [g] + [b] == [g, b];
  }

  /**
   * Conversions stop at the first that fails: two successes followed by a
   * failure store two values, whatever the third conversion would have been.
   */
  lemma ScanTwo(s0: string, s1: string, s2: string, r: int, g: int)
    requires ScanInt(s0) == Some(Scanned(r, s1))
    requires ScanInt(s1) == Some(Scanned(g, s2))
    requires ScanInt(s2) == None
    ensures ScanInts(s0, 3) == [r, g]
  {
    ScanIntsFail(s2, 1);
    ScanIntsCons(s1, 2, g, s2);
    ScanIntsCons(s0, 3, r, s1);
    assert [r] + ([g] + []) == [r, g];
  }

  /**
   * Allowing one more conversion only adds values at the end: the values
   * stored are the same, in the same order, whatever the number of
   * conversions after them.
   */
  lemma {:induction false} ScanIntsExtend(s: string, n: nat)
    ensures ScanInts(s, n) <= ScanInts(s, n + 1)
    decreases n
  {
    if n > 0 {
      var r := ScanInt(s);
      if r.Some? {
        ScanIntsExtend(r.value.rest, n - 1);
      }
    }
  }

  /** White space in front of the text changes nothing that `sscanf` stores. */
  lemma ScanIntsSkipsSpaces(w: string, s: string, n: nat)
    requires forall i :: 0 <= i < |w| ==> IsSpace(w[i])
    ensures ScanInts(w + s, n) == ScanInts(s, n)
  {
    ScanIntSkipsSpaces(w, s);
  }

  /** A successful conversion stores its value and scanning goes on after it. */
  lemma ScanIntsCons(s: string, n: nat, v: int, rest: string)
    requires n > 0 && ScanInt(s) == Some(Scanned(v, rest))
    ensures ScanInts(s, n) == [v] + ScanInts(rest, n - 1)
  {
  }

  /** A failed conversion stores nothing and ends the scan. */
  lemma ScanIntsFail(s: string, n: nat)
    requires n > 0 && ScanInt(s) == None
    ensures ScanInts(s, n) == []
  {
  }

  /**
   * `sscanf(text, "%d %d %d", ...)` on only two rendered integers stores
   * those two and leaves the third variable alone.
   */
  lemma ScanTwoDecimals(r: int, g: int)
    ensures ScanInts(IntToDecimal(r) + " " + IntToDecimal(g), 3) == [r, g]
  {
    var dr, dg := IntToDecimal(r), IntToDecimal(g);
    var tail := " " + dg;
    assert dr + " " + dg == dr + tail;
    assert ScanInt(dr + tail) == Some(Scanned(r, tail)) by {
      ScanIntOfDecimal(r, tail);
    }
    assert ScanInt(tail) == Some(Scanned(g, [])) by {
      assert IsSpace(' ');
      ScanIntSkipsSpaces(" ", dg);
      ScanIntOfDecimal(g, []);
      assert dg + [] == dg;
    }
    assert ScanInt([]) == None;
    ScanTwo(dr + tail, tail, [], r, g);
  }

  /**
   * `sscanf(text, "%d %d %d", ...)` on three rendered integers separated by
   * single spaces stores all three.
   */
  lemma ScanThreeDecimals(r: int, g: int, b: int)
    ensures ScanInts(IntToDecimal(r) + " " + IntToDecimal(g) + " " + IntToDecimal(b), 3) == [r, g, b]
  {
    var dr, dg, db := IntToDecimal(r), IntToDecimal(g), IntToDecimal(b);
    var tail := " " + db;
    var mid := " " + (dg + tail);
    assert dr + " " + dg + " " + db == dr + mid;
    ScanIntOfDecimal(r, mid);
    assert IsSpace(' ');
    ScanIntSkipsSpaces(" ", dg + tail);
    ScanIntOfDecimal(g, tail);
    ScanIntSkipsSpaces(" ", db);
    ScanIntOfDecimal(b, []);
    assert db + [] == db;
    ScanThree(dr + mid, mid, tail, [], r, g, b);
  }

  /** The digit run of a digit string followed by a non-digit is that string. */
  lemma {:induction false} DigitRunOf(d: string, rest: string)
    requires AllDigits(d)
    requires rest == [] || !IsDigit(rest[0])
    ensures DigitRun(d + rest) == |d|
  {
    if |d| > 0 {
      assert (d + rest)[1..] == d[1..] + rest;
      DigitRunOf(d[1..], rest);
    }
  }

  // ---------------------------------------------------------------------
  // Strings and lines
  // ---------------------------------------------------------------------

  /** `std::string::find(c)`: the index of the first occurrence of `c`. */
  function IndexOf(s: string, c: char): (k: nat)
    requires c in s
    ensures k < |s| && s[k] == c && c !in s[..k]
  {
    if s[0] == c then 0
    else
      var k := 1 + IndexOf(s[1..], c);
      assert s[..k] == [s[0]] + s[1..][..k - 1];
      k
  }

  /**
   * The lines that `while (std::getline(iss, line))` yields over `s`: the
   * text between newlines, the newline itself dropped; a final newline does
   * not open an extra empty line, and an unterminated last line is yielded
   * as it is.
   */
  function SplitLines(s: string): (lines: seq<string>)
    ensures forall i :: 0 <= i < |lines| ==> '\n' !in lines[i]
    decreases |s|
  {
    if |s| == 0 then []
    else if '\n' !in s then [s]
    else
      var k := IndexOf(s, '\n');
      [s[..k]] + SplitLines(s[k + 1..])
  }

  /** A newline-terminated line is split off the front as one line. */
  lemma SplitLinesCons(line: string, rest: string)
    requires '\n' !in line
    ensures SplitLines(line + "\n" + rest) == [line] + SplitLines(rest)
  {
    var s := line + "\n" + rest;
    assert s[|line|] == '\n';
    assert s[..|line|] == line;
    assert s[|line| + 1..] == rest;
  }

  /** Text ending in a newline splits independently of what follows it. */
  lemma {:induction false} SplitLinesAppend(a: string, b: string)
    requires a == [] || a[|a| - 1] == '\n'
    ensures SplitLines(a + b) == SplitLines(a) + SplitLines(b)
    decreases |a|
  {
    if |a| > 0 {
      var k := IndexOf(a, '\n');
      var line, tail := a[..k], a[k + 1..];
      assert a == line + "\n" + tail;
      assert tail == [] || tail[|tail| - 1] == '\n' by {
        if tail != [] {
          assert tail[|tail| - 1] == a[|a| - 1];
        }
      }
      SplitLinesAppend(tail, b);
      SplitLinesAppendStep(line, tail, b);
    } else {
      assert a + b == b;
    }
  }

  lemma SplitLinesAppendStep(line: string, tail: string, b: string)
    requires '\n' !in line
    requires SplitLines(tail + b) == SplitLines(tail) + SplitLines(b)
    ensures SplitLines(line + "\n" + tail + b) == SplitLines(line + "\n" + tail) + SplitLines(b)
  {
    var p, q := SplitLines(tail), SplitLines(b);
    calc {
      SplitLines(line + "\n" + tail + b);
      { assert line + "\n" + tail + b == line + "\n" + (tail + b); }
      SplitLines(line + "\n" + (tail + b));
      { SplitLinesCons(line, tail + b); }
      [line] + (p + q);
      { assert [line] + (p + q) == ([line] + p) + q; }
      ([line] + p) + q;
      { SplitLinesCons(line, tail); }
      SplitLines(line + "\n" + tail) + q;
    }
  }

  /**
   * `std::string(p)` for a NUL-terminated `p`: the characters before the
   * first NUL, or all of them when the data holds none.
   */
  function CString(bytes: string): (s: string)
    ensures '\0' !in s
    ensures |s| <= |bytes| && s == bytes[..|s|]
    ensures |s| < |bytes| ==> bytes[|s|] == '\0'
    ensures '\0' !in bytes ==> s == bytes
  {
    if '\0' in bytes then bytes[..IndexOf(bytes, '\0')] else bytes
  }
}
