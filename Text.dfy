/** The few JavaScript string operations the pages rely on: `trim`, splitting
    on newlines, and writing an integer in decimal (template literals and
    `String(n)`). Joining with newlines is here only as the inverse of
    splitting, for the round-trip lemmas. Strings are sequences of
    characters. */
module Text {

  /** JavaScript's WhiteSpace and LineTerminator characters: exactly what
      `String.prototype.trim` removes from either end. */
  predicate IsWhitespace(c: char) {
    || c == '\t' || c == '\n' || c == '\U{B}' || c == '\U{C}' || c == '\r' || c == ' '
    || c == '\U{A0}' || c == '\U{1680}' || ('\U{2000}' <= c <= '\U{200A}')
    || c == '\U{2028}' || c == '\U{2029}' || c == '\U{202F}' || c == '\U{205F}'
    || c == '\U{3000}' || c == '\U{FEFF}'
  }

  /** Every character is whitespace (this includes the empty string). */
  predicate IsBlank(s: string) {
    forall i :: 0 <= i < |s| ==> IsWhitespace(s[i])
  }

  /** Drops the leading whitespace. */
  function TrimStart(s: string): (r: string)
    ensures |r| <= |s| && r == s[|s| - |r|..]
    ensures forall i :: 0 <= i < |s| - |r| ==> IsWhitespace(s[i])
    ensures r != [] ==> !IsWhitespace(r[0])
  {
    if s != [] && IsWhitespace(s[0]) then TrimStart(s[1..]) else s
  }

  /** Drops the trailing whitespace. */
  function TrimEnd(s: string): (r: string)
    ensures |r| <= |s| && r == s[..|r|]
    ensures forall i :: |r| <= i < |s| ==> IsWhitespace(s[i])
    ensures r != [] ==> !IsWhitespace(r[|r| - 1])
  {
    if s != [] && IsWhitespace(s[|s| - 1]) then TrimEnd(s[..|s| - 1]) else s
  }

  /** `s.trim()`. */
  function Trim(s: string): string {
    TrimEnd(TrimStart(s))
  }

  /** `trim` leaves a contiguous part of `s`. */
  lemma TrimIsInnerSlice(s: string)
    ensures var k := |s| - |TrimStart(s)|;
      k + |Trim(s)| <= |s| && Trim(s) == s[k..k + |Trim(s)|]
  {
    var t := TrimStart(s);
    var r := TrimEnd(t);
    var k := |s| - |t|;
    SliceOfSuffix(s, k, |r|);
  }

  /** Taking a prefix of a suffix is taking a middle slice. */
  lemma SliceOfSuffix(s: string, k: nat, n: nat)
    requires k + n <= |s|
    ensures s[k..][..n] == s[k..k + n]
  {
  }

  /** What `trim` leaves starts and ends with a non-whitespace character
      when it is not empty. */
  lemma TrimEndsAreNotWhitespace(s: string)
    ensures Trim(s) != [] ==> !IsWhitespace(Trim(s)[0]) && !IsWhitespace(Trim(s)[|Trim(s)| - 1])
  {
    var t := TrimStart(s);
    var r := TrimEnd(t);
    if r != [] {
      assert r[0] == t[0];
    }
  }

  /** `trim` gives the empty string exactly when `s` is blank. */
  lemma TrimEmptyIffBlank(s: string)
    ensures Trim(s) == [] <==> IsBlank(s)
  {
    var t := TrimStart(s);
    var r := TrimEnd(t);
    var k := |s| - |t|;
    if r == [] {
      assert t == [];
    } else {
      assert t[0] == s[k];
    }
  }

  /** `s.split('\n')`: the pieces between newlines; there is always at least
      one, and none of them contains a newline. */
  function Lines(s: string): (r: seq<string>)
    ensures |r| >= 1
    ensures forall k :: 0 <= k < |r| ==> '\n' !in r[k]
  {
    if s == [] then [""]
    else
      var rest := Lines(s[1..]);
      if s[0] == '\n' then [""] + rest
      else [[s[0]] + rest[0]] + rest[1..]
  }

  /** Joining pieces with newlines. The pages never join; this is the
      inverse used to state what `Lines` keeps. */
  function JoinLines(lines: seq<string>): string
    requires |lines| >= 1
  {
    if |lines| == 1 then lines[0] else lines[0] + "\n" + JoinLines(lines[1..])
  }

  /** Joining the pieces of a split with newlines gives back the string. */
  lemma {:induction false} JoinLinesOfLines(s: string)
    ensures JoinLines(Lines(s)) == s
  {
    if s != [] {
      var rest := Lines(s[1..]);
      JoinLinesOfLines(s[1..]);
      if s[0] == '\n' {
        assert Lines(s) == [""] + rest;
        assert ([""] + rest)[1..] == rest;
        assert JoinLines(Lines(s)) == "" + "\n" + JoinLines(rest);
        assert s == [s[0]] + s[1..];
      } else if |rest| == 1 {
        assert s == [s[0]] + s[1..];
      } else {
        var first := [s[0]] + rest[0];
        assert Lines(s) == [first] + rest[1..];
        assert ([first] + rest[1..])[1..] == rest[1..];
        assert JoinLines(Lines(s)) == first + "\n" + JoinLines(rest[1..]);
        assert JoinLines(rest) == rest[0] + "\n" + JoinLines(rest[1..]);
        assert s == [s[0]] + s[1..];
      }
    }
  }

  lemma {:induction false} LinesOfPlainText(x: string)
    requires '\n' !in x
    ensures Lines(x) == [x]
  {
    if x != [] {
      assert '\n' !in x[1..];
      LinesOfPlainText(x[1..]);
      assert x == [x[0]] + x[1..];
    }
  }

  lemma {:induction false} LinesAfterLine(x: string, y: string)
    requires '\n' !in x
    ensures Lines(x + "\n" + y) == [x] + Lines(y)
  {
    var s := x + "\n" + y;
    if x == [] {
      assert s[0] == '\n' && s[1..] == y;
    } else {
      assert s[0] == x[0] && s[1..] == x[1..] + "\n" + y;
      assert '\n' !in x[1..];
      LinesAfterLine(x[1..], y);
      assert x == [x[0]] + x[1..];
    }
  }

  /** Splitting newline-free pieces joined with newlines gives back the pieces. */
  lemma {:induction false} LinesOfJoinLines(lines: seq<string>)
    requires |lines| >= 1
    requires forall k :: 0 <= k < |lines| ==> '\n' !in lines[k]
    ensures Lines(JoinLines(lines)) == lines
  {
    if |lines| == 1 {
      LinesOfPlainText(lines[0]);
    } else {
      LinesOfJoinLines(lines[1..]);
      LinesAfterLine(lines[0], JoinLines(lines[1..]));
      assert lines == [lines[0]] + lines[1..];
    }
  }

  predicate IsDigit(c: char) {
    '0' <= c <= '9'
  }

  function DigitChar(d: nat): (c: char)
    requires d < 10
  {
    "0123456789"[d]
  }

  function DigitValue(c: char): nat
    requires IsDigit(c)
  {
    (c as int - '0' as int) as nat
  }

  /** The decimal digits of `n` with no leading zero, as JavaScript writes
      an integer-valued number. */
  function NatToDecimal(n: nat): (r: string)
    ensures |r| >= 1
    ensures forall i :: 0 <= i < |r| ==> IsDigit(r[i])
    ensures r[0] == '0' ==> n == 0
  {
    if n < 10 then [DigitChar(n)] else NatToDecimal(n / 10) + [DigitChar(n % 10)]
  }

  /** Reads back a string of decimal digits. */
  function DecimalValue(s: string): nat
    requires forall i :: 0 <= i < |s| ==> IsDigit(s[i])
  {
    if s == [] then 0 else DecimalValue(s[..|s| - 1]) * 10 + DigitValue(s[|s| - 1])
  }

  lemma {:induction false} DecimalRoundTrip(n: nat)
    ensures DecimalValue(NatToDecimal(n)) == n
  {
    var r := NatToDecimal(n);
    if n >= 10 {
      DecimalRoundTrip(n / 10);
      assert r[..|r| - 1] == NatToDecimal(n / 10);
      assert DigitValue(r[|r| - 1]) == n % 10;
    } else {
      assert DigitValue(r[0]) == n;
    }
  }

  /** `String(n)` (or `${n}`) for an integer `n`. */
  function IntToDecimal(n: int): string {
    if n < 0 then "-" + NatToDecimal(-n) else NatToDecimal(n)
  }

  /** Different integers are written differently. */
  lemma IntToDecimalInjective(a: int, b: int)
    requires IntToDecimal(a) == IntToDecimal(b)
    ensures a == b
  {
    DecimalSign(a);
    DecimalSign(b);
    if a < 0 {
      var m: nat, n: nat := -a, -b;
      var dm, dn := NatToDecimal(m), NatToDecimal(n);
      assert ("-" + dm)[1..] == dm;
      assert ("-" + dn)[1..] == dn;
      NatToDecimalInjective(m, n);
    } else {
      NatToDecimalInjective(a, b);
    }
  }

  lemma NatToDecimalInjective(m: nat, n: nat)
    requires NatToDecimal(m) == NatToDecimal(n)
    ensures m == n
  {
    DecimalRoundTrip(m);
    DecimalRoundTrip(n);
  }

  /** A minus sign leads the text exactly for negative integers. */
  lemma DecimalSign(n: int)
    ensures |IntToDecimal(n)| >= 1
    ensures IntToDecimal(n)[0] == '-' <==> n < 0
  {
    if n >= 0 {
      assert IsDigit(NatToDecimal(n)[0]);
    }
  }
}
