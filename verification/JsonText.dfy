/** The text of numbers and strings in canonical JSON: decimal digits, and string escapes as in
    section 7 of RFC 8259, with everything outside printable ASCII escaped. Each printer is paired
    with the reader that undoes it. */
module JsonText {
  import opened Wrappers

  // ---------- decimal numbers ----------

  predicate IsDigit(c: char) {
    '0' <= c <= '9'
  }

  function Digit(d: nat): (c: char)
    requires d < 10
    ensures IsDigit(c) && DigitValue(c) == d
  {
    ('0' as int + d) as char
  }

  function Digits(n: nat): (s: string)
    ensures s != [] && forall i :: 0 <= i < |s| ==> IsDigit(s[i])
  {
    if n < 10 then [Digit(n)] else Digits(n / 10) + [Digit(n % 10)]
  }

  function Decimal(n: int): string {
    if n < 0 then "-" + Digits(-n) else Digits(n)
  }

  function DigitValue(c: char): nat
    requires IsDigit(c)
  {
    c as int - '0' as int
  }

  function ValueOf(digits: string): nat
    requires forall i :: 0 <= i < |digits| ==> IsDigit(digits[i])
  {
    if digits == [] then 0
    else ValueOf(digits[..|digits| - 1]) * 10 + DigitValue(digits[|digits| - 1])
  }

  /** The length of the run of digits at the start of a text. */
  function DigitRun(s: string): (n: nat)
    ensures n <= |s| && (forall i :: 0 <= i < n ==> IsDigit(s[i])) && (n < |s| ==> !IsDigit(s[n]))
  {
    if s == [] || !IsDigit(s[0]) then 0
    else
      var n := DigitRun(s[1..]);
      assert forall i :: 1 <= i < 1 + n ==> s[i] == s[1..][i - 1];
      1 + n
  }

  /** Reads an integer; a leading zero stands alone and minus zero is not written. */
  function ReadInt(s: string): (r: Option<(int, string)>)
    ensures r.Some? ==> |r.value.1| < |s|
  {
    var negative := s != [] && s[0] == '-';
    var t := if negative then s[1..] else s;
    var n := DigitRun(t);
    if n == 0 || (n > 1 && t[0] == '0') || (negative && t[0] == '0') then None
    else
      var magnitude: int := ValueOf(t[..n]);
      Some((if negative then -magnitude else magnitude, t[n..]))
  }

  lemma {:induction false} DigitsRead(n: nat)
    ensures ValueOf(Digits(n)) == n
    ensures Digits(n)[0] == '0' <==> n == 0
    ensures n > 0 || |Digits(n)| == 1
    decreases n
  {
    if n >= 10 {
      DigitsRead(n / 10);
      assert Digits(n)[..|Digits(n)| - 1] == Digits(n / 10);
    }
  }

  predicate StartsWithDigit(s: string) {
    s != [] && IsDigit(s[0])
  }

  lemma DigitRunOf(digits: string, rest: string)
    requires (forall i :: 0 <= i < |digits| ==> IsDigit(digits[i])) && !StartsWithDigit(rest)
    ensures DigitRun(digits + rest) == |digits|
  {
    var text := digits + rest;
    assert forall i :: 0 <= i < |digits| ==> text[i] == digits[i];
    assert rest != [] ==> text[|digits|] == rest[0];
  }

  lemma NaturalRoundTrip(n: nat, rest: string)
    requires !StartsWithDigit(rest)
    ensures ReadInt(Digits(n) + rest) == Some((n, rest))
  {
    var digits := Digits(n);
    DigitsRead(n);
    DigitRunOf(digits, rest);
    assert (digits + rest)[..|digits|] == digits && (digits + rest)[|digits|..] == rest;
  }

  lemma NegativeRoundTrip(n: nat, rest: string)
    requires n > 0 && !StartsWithDigit(rest)
    ensures ReadInt("-" + Digits(n) + rest) == Some((-(n as int), rest))
  {
    var digits := Digits(n);
    var text := "-" + digits + rest;
    assert text[1..] == digits + rest;
    DigitsRead(n);
    DigitRunOf(digits, rest);
    assert (digits + rest)[..|digits|] == digits && (digits + rest)[|digits|..] == rest;
  }

  lemma DecimalRoundTrip(n: int, rest: string)
    requires !StartsWithDigit(rest)
    ensures ReadInt(Decimal(n) + rest) == Some((n, rest))
  {
    if n < 0 {
      NegativeRoundTrip(-n, rest);
    } else {
      NaturalRoundTrip(n, rest);
    }
  }

  /** Decimal notation, digit by digit: the most significant one first. */
  lemma DecimalExactly(n: nat, d: nat)
    requires d < 10
    ensures Decimal(d) == ["0123456789"[d]]
    ensures n > 0 ==> Decimal(10 * n + d) == Decimal(n) + Decimal(d) && Decimal(-(n as int)) == "-" + Decimal(n)
  {
    assert (10 * n + d) / 10 == n && (10 * n + d) % 10 == d;
  }

  // ---------- hexadecimal ----------

  function HexDigit(d: nat): (c: char)
    requires d < 16
    ensures Printable(c)
  {
    if d < 10 then ('0' as int + d) as char else ('a' as int + d - 10) as char
  }

  function HexValue(c: char): Option<nat> {
    if '0' <= c <= '9' then Some(c as int - '0' as int)
    else if 'a' <= c <= 'f' then Some(c as int - 'a' as int + 10)
    else if 'A' <= c <= 'F' then Some(c as int - 'A' as int + 10)
    else None
  }

  /** One code unit as a backslash, a u and four lower-case hexadecimal digits. */
  function Unit(n: nat): (s: string)
    requires n < 0x10000
    ensures |s| == 6
  {
    "\\u" + [HexDigit(n / 4096), HexDigit(n / 256 % 16), HexDigit(n / 16 % 16), HexDigit(n % 16)]
  }

  function ReadUnit(s: string): (r: Option<nat>)
    ensures r.Some? ==> |s| >= 6 && r.value < 0x10000
  {
    if |s| < 6 || s[0] != '\\' || s[1] != 'u' then None
    else match (HexValue(s[2]), HexValue(s[3]), HexValue(s[4]), HexValue(s[5]))
      case (Some(a), Some(b), Some(c), Some(d)) => CombineDigits(a, b, c, d)
      case _ => None
  }

  function CombineDigits(a: nat, b: nat, c: nat, d: nat): (r: Option<nat>)
    ensures r.Some? ==> r.value < 0x10000
  {
    if a < 16 && b < 16 && c < 16 && d < 16 then Some(a * 4096 + b * 256 + c * 16 + d) else None
  }

  lemma HexRoundTrip(d: nat)
    requires d < 16
    ensures HexValue(HexDigit(d)) == Some(d)
  {
  }

  lemma UnitRoundTrip(n: nat, rest: string)
    requires n < 0x10000
    ensures ReadUnit(Unit(n) + rest) == Some(n)
  {
    HexRoundTrip(n / 4096);
    HexRoundTrip(n / 256 % 16);
    HexRoundTrip(n / 16 % 16);
    HexRoundTrip(n % 16);
    FourDigits(n);
  }

  lemma FourDigits(n: nat)
    ensures n == n / 4096 * 4096 + n / 256 % 16 * 256 + n / 16 % 16 * 16 + n % 16
  {
    assert n / 16 / 16 == n / 256 && n / 256 / 16 == n / 4096;
  }

  // ---------- characters ----------

  /** Printable ASCII. */
  predicate Printable(c: char) {
    ' ' <= c <= '~'
  }

  /** The two-character escapes. */
  function ShortEscape(c: char): Option<char> {
    if c == '\"' then Some('\"')
    else if c == '\\' then Some('\\')
    else if c == '\n' then Some('n')
    else if c == '\r' then Some('r')
    else if c == '\t' then Some('t')
    else if c as int == 12 then Some('f')
    else if c as int == 8 then Some('b')
    else None
  }

  function Escape(c: char): (s: string)
    ensures s != [] && s[0] != '\"'
  {
    if ShortEscape(c).Some? then ['\\', ShortEscape(c).value]
    else if Printable(c) then [c]
    else if c as int < 0x10000 then Unit(c as int)
    else
      var n := c as int - 0x10000;
      Unit(0xD800 + n / 0x400) + Unit(0xDC00 + n % 0x400)
  }

  function ShortMeaning(c: char): Option<char> {
    if c == '\"' || c == '\\' || c == '/' then Some(c)
    else if c == 'n' then Some('\n')
    else if c == 'r' then Some('\r')
    else if c == 't' then Some('\t')
    else if c == 'f' then Some(12 as char)
    else if c == 'b' then Some(8 as char)
    else None
  }

  /** Reads one character of a string: a plain character, a short escape, a code unit, or the two
      code units of a surrogate pair. A lone surrogate and a raw control character are errors. */
  function ReadChar(s: string): (r: Option<(char, string)>)
    ensures r.Some? ==> |r.value.1| < |s|
  {
    if s == [] || s[0] == '\"' || s[0] < ' ' then None
    else if s[0] != '\\' then Some((s[0], s[1..]))
    else if |s| > 1 && ShortMeaning(s[1]).Some? then Some((ShortMeaning(s[1]).value, s[2..]))
    else ReadUnits(s)
  }

  function ReadUnits(s: string): (r: Option<(char, string)>)
    ensures r.Some? ==> |r.value.1| < |s|
  {
    var high := ReadUnit(s);
    if high.None? then None
    else if high.value < 0xD800 || high.value >= 0xE000 then Some((high.value as char, s[6..]))
    else if high.value >= 0xDC00 then None
    else
      var low := ReadUnit(s[6..]);
      if low.None? || low.value < 0xDC00 || low.value >= 0xE000 then None
      else Some(((0x10000 + (high.value - 0xD800) * 0x400 + (low.value - 0xDC00)) as char, s[12..]))
  }

  lemma PairRoundTrip(c: char, rest: string)
    requires c as int >= 0x10000
    ensures ReadUnits(Escape(c) + rest) == Some((c, rest))
  {
    var n := c as int - 0x10000;
    var high, low := 0xD800 + n / 0x400, 0xDC00 + n % 0x400;
    var s := Escape(c) + rest;
    assert s == Unit(high) + (Unit(low) + rest);
    UnitRoundTrip(high, Unit(low) + rest);
    assert s[6..] == Unit(low) + rest;
    UnitRoundTrip(low, rest);
    assert s[12..] == rest;
  }

  lemma UnitCharRoundTrip(c: char, rest: string)
    requires c as int < 0x10000
    ensures ReadUnits(Unit(c as int) + rest) == Some((c, rest))
  {
    UnitRoundTrip(c as int, rest);
    assert (Unit(c as int) + rest)[6..] == rest;
  }

  lemma ShortRoundTrip(c: char, rest: string)
    requires ShortEscape(c).Some? || Printable(c)
    ensures ReadChar(Escape(c) + rest) == Some((c, rest))
  {
    var s := Escape(c) + rest;
    assert if ShortEscape(c).Some? then s[2..] == rest else s[1..] == rest;
  }

  lemma LongRoundTrip(c: char, rest: string)
    requires ShortEscape(c).None? && !Printable(c)
    ensures ReadChar(Escape(c) + rest) == ReadUnits(Escape(c) + rest)
  {
    assert Escape(c)[0] == '\\' && Escape(c)[1] == 'u';
  }

  lemma CharRoundTrip(c: char, rest: string)
    ensures ReadChar(Escape(c) + rest) == Some((c, rest))
  {
    if ShortEscape(c).Some? || Printable(c) {
      ShortRoundTrip(c, rest);
    } else {
      LongRoundTrip(c, rest);
      if c as int < 0x10000 {
        UnitCharRoundTrip(c, rest);
      } else {
        PairRoundTrip(c, rest);
      }
    }
  }

  const LowerHex := "0123456789abcdef"

  ghost predicate IsUnit(s: string, n: int) {
    0 <= n < 0x10000
    && s == "\\u" + [LowerHex[n / 4096], LowerHex[n / 256 % 16], LowerHex[n / 16 % 16], LowerHex[n % 16]]
  }

  lemma HexIsLower(d: nat)
    requires d < 16
    ensures HexDigit(d) == LowerHex[d]
  {
  }

  lemma UnitExactly(n: nat)
    requires n < 0x10000
    ensures IsUnit(Unit(n), n)
  {
    HexIsLower(n / 4096);
    HexIsLower(n / 256 % 16);
    HexIsLower(n / 16 % 16);
    HexIsLower(n % 16);
  }

  /** The text of every character: seven short escapes, printable ASCII as it stands, every other
      character as its UTF-16 code units in lower-case hexadecimal. */
  lemma EscapeExactly(c: char)
    ensures c == '\"' || c == '\\' ==> Escape(c) == ['\\', c]
    ensures c == '\n' ==> Escape(c) == "\\n"
    ensures c == '\r' ==> Escape(c) == "\\r"
    ensures c == '\t' ==> Escape(c) == "\\t"
    ensures c == 8 as char ==> Escape(c) == "\\b"
    ensures c == 12 as char ==> Escape(c) == "\\f"
    ensures ' ' <= c <= '~' && c != '\"' && c != '\\' ==> Escape(c) == [c]
    ensures (c < ' ' && c !in {'\n', '\r', '\t', 8 as char, 12 as char}) || '~' < c <= '\U{FFFF}' ==>
              IsUnit(Escape(c), c as int)
    ensures c > '\U{FFFF}' ==>
              && |Escape(c)| == 12
              && IsUnit(Escape(c)[..6], 0xD800 + (c as int - 0x10000) / 0x400)
              && IsUnit(Escape(c)[6..], 0xDC00 + (c as int - 0x10000) % 0x400)
  {
    if c as int < 0x10000 {
      UnitExactly(c as int);
    } else {
      var n := c as int - 0x10000;
      UnitExactly(0xD800 + n / 0x400);
      UnitExactly(0xDC00 + n % 0x400);
    }
  }

  // ---------- strings ----------

  function EscapeAll(s: string): string {
    if s == [] then [] else Escape(s[0]) + EscapeAll(s[1..])
  }

  function Quote(s: string): string {
    "\"" + EscapeAll(s) + "\""
  }

  /** Reads up to and including the closing quote. */
  function ReadChars(s: string): (r: Option<(string, string)>)
    ensures r.Some? ==> |r.value.1| < |s|
    decreases |s|
  {
    if s == [] then None
    else if s[0] == '\"' then Some(([], s[1..]))
    else
      var first := ReadChar(s);
      if first.None? then None
      else
        var more := ReadChars(first.value.1);
        if more.None? then None else Some(([first.value.0] + more.value.0, more.value.1))
  }

  function ReadString(s: string): (r: Option<(string, string)>)
    ensures r.Some? ==> |r.value.1| < |s|
  {
    if s == [] || s[0] != '\"' then None else ReadChars(s[1..])
  }

  lemma {:induction false} CharsRoundTrip(s: string, rest: string)
    ensures ReadChars(EscapeAll(s) + "\"" + rest) == Some((s, rest))
    decreases |s|
  {
    var text := EscapeAll(s) + "\"" + rest;
    if s == [] {
      assert text == "\"" + rest;
      assert text[1..] == rest;
    } else {
      var tail := EscapeAll(s[1..]) + "\"" + rest;
      assert text == Escape(s[0]) + tail;
      CharRoundTrip(s[0], tail);
      CharsRoundTrip(s[1..], rest);
      assert [s[0]] + s[1..] == s;
    }
  }

  lemma QuoteRoundTrip(s: string, rest: string)
    ensures ReadString(Quote(s) + rest) == Some((s, rest))
  {
    CharsRoundTrip(s, rest);
    assert (Quote(s) + rest)[1..] == EscapeAll(s) + "\"" + rest;
  }

  // ---------- only printable ASCII is written ----------

  ghost predicate AllPrintable(s: string) {
    forall i :: 0 <= i < |s| ==> Printable(s[i])
  }

  lemma {:induction false} EscapesArePrintable(s: string)
    ensures AllPrintable(EscapeAll(s))
    decreases |s|
  {
    if s != [] {
      EscapesArePrintable(s[1..]);
      assert AllPrintable(Escape(s[0]));
    }
  }
}
