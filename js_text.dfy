/** The JavaScript string built-ins the core relies on: `startsWith`, `split` on one
    character, `trim` and `parseInt(_, 10)`, with ECMAScript's semantics. */
module JsText {
  import opened Wrappers

  /** StrWhiteSpaceChar of ECMAScript: the WhiteSpace and LineTerminator code points
      that `trim` removes and `parseInt` skips. */
  predicate IsWhitespace(c: char) {
    c == '\t' || c == '\n' || c == '\U{B}' || c == '\U{C}' || c == '\r' || c == ' '
    || c == '\U{A0}' || c == '\U{1680}' || ('\U{2000}' <= c <= '\U{200A}')
    || c == '\U{2028}' || c == '\U{2029}' || c == '\U{202F}' || c == '\U{205F}'
    || c == '\U{3000}' || c == '\U{FEFF}'
  }

  predicate AllWhitespace(s: string) {
    forall i :: 0 <= i < |s| ==> IsWhitespace(s[i])
  }

  predicate IsDigit(c: char) {
    '0' <= c <= '9'
  }

  predicate AllDigits(s: string) {
    forall i :: 0 <= i < |s| ==> IsDigit(s[i])
  }

  /** `s.startsWith(prefix)`. */
  predicate StartsWith(s: string, prefix: string) {
    |prefix| <= |s| && s[..|prefix|] == prefix
  }

  // ---------------------------------------------------------------- split

  /** `s.split(sep)` for a one-character separator: the maximal separator-free pieces
      between separators, so a string with k separators gives k + 1 pieces. */
  function Split(s: string, sep: char): (parts: seq<string>)
    ensures |parts| >= 1
    ensures forall i :: 0 <= i < |parts| ==> sep !in parts[i]
    decreases |s|
  {
    if s == [] then [[]]
    else
      var rest := Split(s[1..], sep);
      if s[0] == sep then [[]] + rest else [[s[0]] + rest[0]] + rest[1..]
  }

  /** `parts.join(sep)`. */
  function Join(parts: seq<string>, sep: char): string
    requires |parts| >= 1
  {
    if |parts| == 1 then parts[0] else parts[0] + [sep] + Join(parts[1..], sep)
  }

  /** Splitting loses nothing: joining the pieces with the separator gives the string back. */
  lemma {:induction false} SplitJoin(s: string, sep: char)
    ensures Join(Split(s, sep), sep) == s
    decreases |s|
  {
    if s != [] {
      SplitJoin(s[1..], sep);
      var rest := Split(s[1..], sep);
      if s[0] != sep {
        if |rest| == 1 {
          assert Join(Split(s, sep), sep) == [s[0]] + rest[0];
        } else {
          assert rest == [rest[0]] + rest[1..];
          assert Join(rest, sep) == rest[0] + [sep] + Join(rest[1..], sep);
          assert Split(s, sep)[1..] == rest[1..];
        }
      }
    }
  }

  /** A separator-free first piece is split off whole; what follows the first separator
      is split on its own. */
  lemma {:induction false} SplitAtFirst(x: string, sep: char, rest: string)
    requires sep !in x
    ensures Split(x + [sep] + rest, sep) == [x] + Split(rest, sep)
    decreases |x|
  {
    if x == [] {
      assert x + [sep] + rest == [sep] + rest;
      assert ([sep] + rest)[1..] == rest;
    } else {
      SplitAtFirst(x[1..], sep, rest);
      assert (x + [sep] + rest)[1..] == x[1..] + [sep] + rest;
      assert [x[0]] + x[1..] == x;
    }
  }

  /** A string without the separator is a single piece. */
  lemma {:induction false} SplitWithoutSep(x: string, sep: char)
    requires sep !in x
    ensures Split(x, sep) == [x]
    decreases |x|
  {
    if x != [] {
      SplitWithoutSep(x[1..], sep);
      assert [x[0]] + x[1..] == x;
    }
  }

  /** The longest prefix of `s` without `sep`. */
  function UpTo(s: string, sep: char): (r: string)
    ensures |r| <= |s| && r == s[..|r|] && sep !in r
    ensures |r| < |s| ==> s[|r|] == sep
  {
    if s == [] || s[0] == sep then [] else [s[0]] + UpTo(s[1..], sep)
  }

  /** The first piece of a split is the text before the first separator. */
  lemma {:induction false} SplitFirstPiece(s: string, sep: char)
    ensures Split(s, sep)[0] == UpTo(s, sep)
    decreases |s|
  {
    if s != [] && s[0] != sep {
      SplitFirstPiece(s[1..], sep);
    }
  }

  // ---------------------------------------------------------------- trim

  /** The text left after removing leading whitespace. */
  function TrimStart(s: string): (r: string)
    ensures |r| <= |s| && r == s[|s| - |r|..]
    ensures AllWhitespace(s[..|s| - |r|])
    ensures r == [] || !IsWhitespace(r[0])
    decreases |s|
  {
    if s != [] && IsWhitespace(s[0]) then TrimStart(s[1..]) else s
  }

  /** The text left after removing trailing whitespace. */
  function TrimEnd(s: string): (r: string)
    ensures |r| <= |s| && r == s[..|r|]
    ensures AllWhitespace(s[|r|..])
    ensures r == [] || !IsWhitespace(r[|r| - 1])
    decreases |s|
  {
    if s != [] && IsWhitespace(s[|s| - 1]) then
      var r := TrimEnd(s[..|s| - 1]);
      assert s[|r|..] == s[..|s| - 1][|r|..] + [s[|s| - 1]];
      r
    else s
  }

  /** `s.trim()`: the longest infix with no whitespace at either end, such that only
      whitespace was cut on both sides. */
  function Trim(s: string): (r: string)
    ensures r == [] || (!IsWhitespace(r[0]) && !IsWhitespace(r[|r| - 1]))
  {
    TrimEnd(TrimStart(s))
  }

  /** Trimming a string that has no whitespace at either end changes nothing. */
  lemma TrimUntouched(s: string)
    requires s == [] || (!IsWhitespace(s[0]) && !IsWhitespace(s[|s| - 1]))
    ensures Trim(s) == s
  {
  }

  // ---------------------------------------------------------------- parseInt

  /** The longest prefix of decimal digits. */
  function LeadingDigits(s: string): (d: string)
    ensures |d| <= |s| && d == s[..|d|] && AllDigits(d)
    ensures |d| == |s| || !IsDigit(s[|d|])
  {
    if s != [] && IsDigit(s[0]) then [s[0]] + LeadingDigits(s[1..]) else []
  }

  function DigitValue(c: char): nat
    requires IsDigit(c)
  {
    (c as int) - ('0' as int)
  }

  /** The number a string of decimal digits denotes. */
  function DigitsValue(d: string): nat
    requires AllDigits(d)
  {
    if d == [] then 0 else DigitsValue(d[..|d| - 1]) * 10 + DigitValue(d[|d| - 1])
  }

  /** `parseInt(s, 10)`, with `None` for NaN: leading whitespace is skipped, one `+` or
      `-` is read, and the longest run of decimal digits that follows is the value;
      anything after it is ignored. */
  function ParseInt(s: string): Option<int>
  {
    var t := TrimStart(s);
    var negative := t != [] && t[0] == '-';
    var digits := LeadingDigits(Unsigned(t));
    if digits == [] then None
    else if negative then Some(-(DigitsValue(digits) as int))
    else Some(DigitsValue(digits))
  }

  /** The text after an optional leading sign. */
  function Unsigned(t: string): string {
    if t != [] && (t[0] == '+' || t[0] == '-') then t[1..] else t
  }

  /** The decimal rendering of a natural number, without leading zeros. */
  function Decimal(n: nat): (d: string)
    ensures |d| >= 1 && AllDigits(d)
  {
    var c := ('0' as int + n % 10) as char;
    if n < 10 then [c] else Decimal(n / 10) + [c]
  }

  lemma {:induction false} DecimalValue(n: nat)
    ensures DigitsValue(Decimal(n)) == n
  {
    var c := ('0' as int + n % 10) as char;
    if n >= 10 {
      DecimalValue(n / 10);
      var d := Decimal(n);
      assert d == Decimal(n / 10) + [c];
      assert d[..|d| - 1] == Decimal(n / 10);
    }
  }

  lemma {:induction false} LeadingDigitsOf(d: string, rest: string)
    requires AllDigits(d)
    requires rest == [] || !IsDigit(rest[0])
    ensures LeadingDigits(d + rest) == d
    decreases |d|
  {
    if d == [] {
      assert d + rest == rest;
    } else {
      var s := d + rest;
      assert s[0] == d[0];
      assert s[1..] == d[1..] + rest;
      LeadingDigitsOf(d[1..], rest);
      assert [d[0]] + d[1..] == d;
    }
  }

  /** Text that starts with a digit is read from its first character. */
  lemma ParseIntFromDigit(s: string)
    requires s != [] && IsDigit(s[0])
    ensures ParseInt(s) == Some(DigitsValue(LeadingDigits(s)))
  {
    assert TrimStart(s) == s;
    assert Unsigned(s) == s;
  }

  /** `parseInt` reads a run of digits, whatever non-digit text follows it. */
  lemma ParseIntDigits(d: string, rest: string)
    requires d != [] && AllDigits(d)
    requires rest == [] || !IsDigit(rest[0])
    ensures ParseInt(d + rest) == Some(DigitsValue(d))
  {
    assert (d + rest)[0] == d[0];
    ParseIntFromDigit(d + rest);
    LeadingDigitsOf(d, rest);
  }

  /** `parseInt` reads back a rendered number, whatever non-digit text follows it. */
  lemma ParseIntDecimal(n: nat, rest: string)
    requires rest == [] || !IsDigit(rest[0])
    ensures ParseInt(Decimal(n) + rest) == Some(n)
  {
    ParseIntDigits(Decimal(n), rest);
    DecimalValue(n);
  }

  /** `parseInt` reads back a rendered number. */
  lemma ParseIntOfDecimal(n: nat)
    ensures ParseInt(Decimal(n)) == Some(n)
  {
    ParseIntDecimal(n, []);
    assert Decimal(n) + [] == Decimal(n);
  }

  /** A rendered number holds no character other than digits. */
  lemma DecimalWithout(n: nat, c: char)
    requires !IsDigit(c)
    ensures c !in Decimal(n)
  {
    var d := Decimal(n);
    assert forall i :: 0 <= i < |d| ==> IsDigit(d[i]);
  }

  /** `parseInt` gives NaN on text whose first non-blank, unsigned character is not a digit. */
  lemma ParseIntNoDigit(s: string)
    requires var u := Unsigned(TrimStart(s)); u == [] || !IsDigit(u[0])
    ensures ParseInt(s) == None
  {
  }
}
