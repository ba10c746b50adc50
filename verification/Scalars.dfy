/** Strings and numbers as Python's `json` writes and reads them.

    A Python str is a sequence of code points, surrogates included; text on the wire is decoded UTF-8 and
    has none.  A number is kept as its literal text. */
module Scalars {
  import opened Common

  // ---- Python strings ------------------------------------------------------------------------------

  type Code = c: int | 0 <= c < 0x110000
  type Text = seq<Code>

  predicate High(c: Code) { 0xD800 <= c < 0xDC00 }

  predicate Low(c: Code) { 0xDC00 <= c < 0xE000 }

  /** An ordinary string, without surrogates, as a Python str. */
  function Py(s: string): (t: Text)
    ensures |t| == |s| && forall i :: 0 <= i < |s| ==> t[i] == s[i] as int
  {
    seq(|s|, i requires 0 <= i < |s| => s[i] as int)
  }

  /** And back, unless there are surrogates in it. */
  function Chars(t: Text): (r: Option<string>)
    ensures r.Some? <==> forall i :: 0 <= i < |t| ==> !High(t[i]) && !Low(t[i])
    ensures r.Some? ==> |r.value| == |t| && forall i :: 0 <= i < |t| ==> r.value[i] as int == t[i]
  {
    if forall i :: 0 <= i < |t| ==> !High(t[i]) && !Low(t[i])
    then Some(seq(|t|, i requires 0 <= i < |t| => t[i] as char)) else None
  }

  lemma CharsOfPy(s: string)
    ensures Chars(Py(s)) == Some(s)
  {
    var t := Py(s);
    assert forall i :: 0 <= i < |s| ==> !High(t[i]) && !Low(t[i]);
    forall i | 0 <= i < |s| ensures Chars(t).value[i] == s[i] {
      assert Chars(t).value[i] as int == s[i] as int;
    }
    assert Chars(t).value == s;
  }

  lemma PyOfChars(t: Text)
    ensures Chars(t).Some? ==> Py(Chars(t).value) == t
  {
  }

  /** No high surrogate stands right before a low one. */
  ghost predicate Tidy(t: Text)
  {
    forall i, j :: 0 <= i < j < |t| && j == i + 1 ==> !(High(t[i]) && Low(t[j]))
  }

  lemma PyIsTidy(s: string)
    ensures Tidy(Py(s))
  {
  }

  // ---- dumps ---------------------------------------------------------------------------------------

  function HexDigit(n: nat): char
    requires n < 16
  {
    if n < 10 then ('0' as int + n) as char else ('a' as int + n - 10) as char
  }

  function Hex4(n: nat): string
    requires n < 0x10000
  {
    [HexDigit(n / 4096), HexDigit(n / 256 % 16), HexDigit(n / 16 % 16), HexDigit(n % 16)]
  }

  function Unicode(n: nat): string
    requires n < 0x10000
  {
    "\\u" + Hex4(n)
  }

  /** The characters that have an escape of their own. */
  function Short(c: Code): Option<char>
  {
    if c == '"' as int then Some('"')
    else if c == '\\' as int then Some('\\')
    else if c == '\n' as int then Some('n')
    else if c == '\r' as int then Some('r')
    else if c == '\t' as int then Some('t')
    else if c == 8 then Some('b')
    else if c == 12 then Some('f')
    else None
  }

  /** ensure_ascii: everything but printable ASCII is escaped, beyond the basic plane as two surrogates. */
  function Escape(c: Code): (s: string)
    ensures s != "" && s[0] != '"'
  {
    if Short(c).Some? then ['\\', Short(c).value]
    else if 32 <= c < 127 then [c as char]
    else if c < 0x10000 then Unicode(c)
    else Unicode(0xD800 + (c - 0x10000) / 1024) + Unicode(0xDC00 + (c - 0x10000) % 1024)
  }

  function EscapeAll(t: Text): string { if t == [] then "" else Escape(t[0]) + EscapeAll(t[1..]) }

  function Quoted(t: Text): string { "\"" + (EscapeAll(t) + "\"") }

  // ---- loads ---------------------------------------------------------------------------------------

  /** JSONDecodeError, or the plain ValueError for an integer with too many digits. */
  datatype Fault = Syntax | Digits

  datatype Parsed<+T> = Fail(fault: Fault) | Read(value: T, rest: string)

  function HexValue(c: char): Option<nat>
  {
    if '0' <= c <= '9' then Some(c as int - '0' as int)
    else if 'a' <= c <= 'f' then Some(c as int - 'a' as int + 10)
    else if 'A' <= c <= 'F' then Some(c as int - 'A' as int + 10)
    else None
  }

  /** The four hex digits of an escape. */
  function ParseHex4(s: string): (n: Option<nat>)
    ensures n.Some? ==> |s| >= 4 && n.value < 0x10000
  {
    if |s| < 4 then None else
      match (HexValue(s[0]), HexValue(s[1]), HexValue(s[2]), HexValue(s[3]))
      case (Some(a), Some(b), Some(c), Some(d)) =>
        if a < 16 && b < 16 && c < 16 && d < 16 then Some(a * 4096 + b * 256 + c * 16 + d) else None
      case _ => None
  }

  /** The text goes on with the escape of a low surrogate. */
  predicate LowAhead(s: string)
  {
    |s| >= 6 && s[0] == '\\' && s[1] == 'u' && ParseHex4(s[2..]).Some? && Low(ParseHex4(s[2..]).value)
  }

  /** After `\u`: a high surrogate is joined with a low one that follows, any other stands for itself. */
  function ParseUnicode(s: string): (r: Parsed<Code>)
    ensures r.Read? ==> |r.rest| < |s|
  {
    match ParseHex4(s)
    case None => Fail(Syntax)
    case Some(n) =>
      if High(n) && LowAhead(s[4..]) then
        Read(0x10000 + (n - 0xD800) * 1024 + (ParseHex4(s[4..][2..]).value - 0xDC00), s[4..][6..])
      else Read(n, s[4..])
  }

  /** The character that a short escape stands for. */
  function Long(c: char): Option<Code>
  {
    match c
    case '"' => Some('"' as int)
    case '\\' => Some('\\' as int)
    case '/' => Some('/' as int)
    case 'b' => Some(8)
    case 'f' => Some(12)
    case 'n' => Some('\n' as int)
    case 'r' => Some('\r' as int)
    case 't' => Some('\t' as int)
    case _ => None
  }

  function ParseChar(s: string): (r: Parsed<Code>)
    requires s != ""
    ensures r.Read? ==> |r.rest| < |s|
  {
    if s[0] != '\\' then
      if s[0] < ' ' then Fail(Syntax) else Read(s[0] as int, s[1..])
    else if |s| == 1 then Fail(Syntax)
    else if s[1] == 'u' then ParseUnicode(s[2..])
    else if Long(s[1]).Some? then Read(Long(s[1]).value, s[2..])
    else Fail(Syntax)
  }

  /** After the opening quote. */
  function ParseString(s: string): (r: Parsed<Text>)
    ensures r.Read? ==> |r.rest| < |s|
    decreases |s|
  {
    if s == "" then Fail(Syntax)
    else if s[0] == '"' then Read([], s[1..])
    else
      match ParseChar(s)
      case Fail(e) => Fail(e)
      case Read(c, rest) =>
        match ParseString(rest)
        case Fail(e) => Fail(e)
        case Read(more, after) => Read([c] + more, after)
  }

  // ---- one character -------------------------------------------------------------------------------

  lemma HexPlaces(n: nat) returns (a: nat, b: nat, c: nat, d: nat)
    requires n < 0x10000
    ensures a < 16 && b < 16 && c < 16 && d < 16 && a * 4096 + b * 256 + c * 16 + d == n
    ensures Hex4(n) == [HexDigit(a), HexDigit(b), HexDigit(c), HexDigit(d)]
  {
    a, b, c, d := n / 4096, n / 256 % 16, n / 16 % 16, n % 16;
    assert n / 16 / 16 == n / 256 && n / 256 / 16 == n / 4096;
  }

  lemma Hex4RoundTrip(n: nat, rest: string)
    requires n < 0x10000
    ensures ParseHex4(Hex4(n) + rest) == Some(n)
    ensures (Hex4(n) + rest)[4..] == rest
  {
    var a, b, c, d := HexPlaces(n);
    Hex4Reads(a, b, c, d, rest);
  }

  lemma Hex4Reads(a: nat, b: nat, c: nat, d: nat, rest: string)
    requires a < 16 && b < 16 && c < 16 && d < 16
    ensures var s := [HexDigit(a), HexDigit(b), HexDigit(c), HexDigit(d)] + rest;
            ParseHex4(s) == Some(a * 4096 + b * 256 + c * 16 + d) && s[4..] == rest
  {
    HexRoundTrip(a);
    HexRoundTrip(b);
    HexRoundTrip(c);
    HexRoundTrip(d);
  }

  lemma HexRoundTrip(n: nat)
    requires n < 16
    ensures HexValue(HexDigit(n)) == Some(n)
  {
  }

  lemma UnicodeStarts(n: nat, rest: string)
    requires n < 0x10000
    ensures var s := Unicode(n) + rest;
            |s| >= 6 && s[0] == '\\' && s[1] == 'u' && s[2..] == Hex4(n) + rest
            && ParseHex4(s[2..]) == Some(n) && s[6..] == rest
  {
    var s := Unicode(n) + rest;
    assert s[2..] == Hex4(n) + rest;
    Hex4RoundTrip(n, rest);
    assert s[6..] == s[2..][4..];
  }

  lemma UnicodeRoundTrip(n: nat, rest: string)
    requires n < 0x10000 && (High(n) ==> !LowAhead(rest))
    ensures ParseChar(Unicode(n) + rest) == Read(n, rest)
  {
    UnicodeStarts(n, rest);
    Hex4RoundTrip(n, rest);
  }

  lemma JoinRoundTrip(n: nat, m: nat, rest: string)
    requires n < 0x10000 && m < 0x10000 && High(n) && Low(m)
    ensures ParseChar(Unicode(n) + Unicode(m) + rest) == Read(0x10000 + (n - 0xD800) * 1024 + (m - 0xDC00), rest)
    ensures !LowAhead(Unicode(n) + Unicode(m) + rest)
  {
    var after := Unicode(m) + rest;
    assert Unicode(n) + Unicode(m) + rest == Unicode(n) + after;
    UnicodeStarts(n, after);
    Hex4RoundTrip(n, after);
    UnicodeStarts(m, rest);
  }

  lemma ShortRoundTrip(c: Code, rest: string)
    requires Short(c).Some?
    ensures ParseChar(Escape(c) + rest) == Read(c, rest) && !LowAhead(Escape(c) + rest)
  {
    var s := Escape(c) + rest;
    assert s[0] == '\\' && s[1] == Short(c).value && s[2..] == rest;
  }

  lemma PrintableRoundTrip(c: Code, rest: string)
    requires Short(c).None? && 32 <= c < 127
    ensures ParseChar(Escape(c) + rest) == Read(c, rest) && !LowAhead(Escape(c) + rest)
  {
    var s := Escape(c) + rest;
    assert s[0] == c as char && s[1..] == rest;
  }

  lemma PairPlaces(c: Code) returns (n: nat, m: nat)
    requires c >= 0x10000
    ensures n < 0x10000 && m < 0x10000 && High(n) && Low(m) && c == 0x10000 + (n - 0xD800) * 1024 + (m - 0xDC00)
    ensures Escape(c) == Unicode(n) + Unicode(m)
  {
    n, m := 0xD800 + (c - 0x10000) / 1024, 0xDC00 + (c - 0x10000) % 1024;
  }

  lemma PairRoundTrip(c: Code, rest: string)
    requires c >= 0x10000
    ensures ParseChar(Escape(c) + rest) == Read(c, rest) && !LowAhead(Escape(c) + rest)
  {
    var n, m := PairPlaces(c);
    JoinRoundTrip(n, m, rest);
  }

  /** A character reads back, except that a high surrogate swallows the low one after it. */
  lemma CharRoundTrip(c: Code, rest: string)
    requires High(c) ==> !LowAhead(rest)
    ensures ParseChar(Escape(c) + rest) == Read(c, rest)
    ensures LowAhead(Escape(c) + rest) <==> Low(c)
  {
    if Short(c).Some? {
      ShortRoundTrip(c, rest);
    } else if 32 <= c < 127 {
      PrintableRoundTrip(c, rest);
    } else if c < 0x10000 {
      UnicodeRoundTrip(c, rest);
      UnicodeStarts(c, rest);
    } else {
      PairRoundTrip(c, rest);
    }
  }

  // ---- whole strings -------------------------------------------------------------------------------

  /** A string literal reads back as the string, and reading stops at its own closing quote. */
  lemma {:induction false} StringRoundTrip(t: Text, rest: string)
    requires Tidy(t)
    ensures ParseString(EscapeAll(t) + "\"" + rest) == Read(t, rest)
    ensures LowAhead(EscapeAll(t) + "\"" + rest) <==> t != [] && Low(t[0])
  {
    if t == [] {
      assert EscapeAll(t) + "\"" + rest == "\"" + rest;
    } else {
      var after := EscapeAll(t[1..]) + "\"" + rest;
      assert EscapeAll(t) + "\"" + rest == Escape(t[0]) + after;
      assert t[1..] != [] ==> t[1..][0] == t[1];
      StringRoundTrip(t[1..], rest);
      CharRoundTrip(t[0], after);
      StringStep(t[0], t[1..], Escape(t[0]), after, rest);
      assert [t[0]] + t[1..] == t;
    }
  }

  lemma StringStep(c: Code, more: Text, first: string, after: string, rest: string)
    requires first != "" && first[0] != '"'
    requires ParseChar(first + after) == Read(c, after) && ParseString(after) == Read(more, rest)
    ensures ParseString(first + after) == Read([c] + more, rest)
  {
    assert (first + after)[0] == first[0];
  }

  lemma QuotedReads(t: Text, rest: string)
    requires Tidy(t)
    ensures var s := Quoted(t) + rest; s != "" && s[0] == '"' && ParseString(s[1..]) == Read(t, rest)
  {
    StringRoundTrip(t, rest);
    Unquote(EscapeAll(t), rest);
  }

  lemma Unquote(body: string, rest: string)
    ensures var s := "\"" + (body + "\"") + rest; s[0] == '"' && s[1..] == body + "\"" + rest
  {
  }

  /** A surrogate is read only from an escape, and a high one only if no low one follows. */
  lemma CharIsTidy(s: string)
    requires s != "" && ParseChar(s).Read?
    ensures High(ParseChar(s).value) ==> !LowAhead(ParseChar(s).rest)
    ensures Low(ParseChar(s).value) ==> LowAhead(s)
  {
    if s[0] == '\\' && |s| > 1 && s[1] == 'u' { assert ParseHex4(s[2..]).Some?; }
  }

  /** Whatever is read from a text is tidy: where it could not be, the two surrogates were joined. */
  lemma {:induction false} ReadIsTidy(s: string)
    ensures ParseString(s).Read? ==> Tidy(ParseString(s).value)
    ensures ParseString(s).Read? && ParseString(s).value != [] && Low(ParseString(s).value[0]) ==> LowAhead(s)
    decreases |s|
  {
    if ParseString(s).Read? && s[0] != '"' {
      CharIsTidy(s);
      ReadIsTidy(ParseChar(s).rest);
      var c, more := ParseChar(s).value, ParseString(ParseChar(s).rest).value;
      assert ParseString(s).value == [c] + more;
    }
  }

  // ---- numbers -------------------------------------------------------------------------------------

  predicate IsDigit(c: char) { '0' <= c <= '9' }

  predicate NumberChar(c: char) { IsDigit(c) || c == '+' || c == '-' || c == '.' || c == 'e' || c == 'E' }

  /** The length of the longest prefix of digits. */
  function DigitRun(s: string): (n: nat)
    ensures n <= |s| && forall k :: 0 <= k < n ==> IsDigit(s[k])
  {
    if s != "" && IsDigit(s[0]) then 1 + DigitRun(s[1..]) else 0
  }

  function SignLength(s: string): (n: nat)
    ensures n <= |s| && n <= 1
  {
    if s != "" && s[0] == '-' then 1 else 0
  }

  /** (0|[1-9]\d*) */
  function WholeLength(s: string): (n: nat)
    ensures n <= |s| && forall k :: 0 <= k < n ==> IsDigit(s[k])
  {
    if s != "" && s[0] == '0' then 1 else DigitRun(s)
  }

  /** (\.\d+)? */
  function FractionLength(s: string): (n: nat)
    ensures n <= |s| && forall k :: 0 <= k < n ==> NumberChar(s[k])
  {
    if s != "" && s[0] == '.' && DigitRun(s[1..]) > 0 then 1 + DigitRun(s[1..]) else 0
  }

  /** ([eE][-+]?\d+)? */
  function ExponentLength(s: string): (n: nat)
    ensures n <= |s| && forall k :: 0 <= k < n ==> NumberChar(s[k])
  {
    if s == "" || (s[0] != 'e' && s[0] != 'E') then 0
    else if |s| > 1 && (s[1] == '+' || s[1] == '-') then
      (if DigitRun(s[2..]) > 0 then 2 + DigitRun(s[2..]) else 0)
    else if DigitRun(s[1..]) > 0 then 1 + DigitRun(s[1..]) else 0
  }

  /** Where the sign, the whole part, the fraction and the exponent end. */
  datatype Scan = Scan(i: nat, j: nat, k: nat, n: nat)

  function Scanned(s: string): (m: Scan)
    ensures m.i <= m.j <= m.k <= m.n <= |s|
  {
    var i := SignLength(s);
    var j := i + WholeLength(s[i..]);
    var k := j + FractionLength(s[j..]);
    Scan(i, j, k, k + ExponentLength(s[k..]))
  }

  /** How much of the text the scanner takes for a number; 0 when it does not start with one. */
  function Matched(s: string): (n: nat)
    ensures n <= |s|
  {
    var m := Scanned(s);
    if m.i == m.j then 0 else m.n
  }

  lemma MatchedChars(s: string)
    ensures forall x :: 0 <= x < Matched(s) ==> NumberChar(s[x])
  {
    var m := Scanned(s);
    assert forall x :: m.i <= x < m.j ==> s[x] == s[m.i..][x - m.i];
    assert forall x :: m.j <= x < m.k ==> s[x] == s[m.j..][x - m.j];
    assert forall x :: m.k <= x < m.n ==> s[x] == s[m.k..][x - m.k];
  }

  const MAX_DIGITS := 4300

  /** An integer literal that `int` refuses. */
  predicate TooLong(s: string)
  {
    var i := SignLength(s);
    i + DigitRun(s[i..]) == |s| && |s| - i > MAX_DIGITS
  }

  predicate IsNumber(s: string) { s != "" && Matched(s) == |s| }

  function ParseNumber(s: string): (r: Parsed<string>)
    ensures r.Read? ==> |r.rest| < |s| && r.value != "" && r.value[0] == s[0] && NumberChar(s[0])
  {
    var n := Matched(s);
    MatchedChars(s);
    if n == 0 then Fail(Syntax) else if TooLong(s[..n]) then Fail(Digits) else Read(s[..n], s[n..])
  }

  /** Where a number ends. */
  predicate Delimited(rest: string) { rest == "" || !NumberChar(rest[0]) }

  lemma {:induction false} DigitsStop(s: string, rest: string)
    requires rest == "" || !IsDigit(rest[0])
    ensures DigitRun(s + rest) == DigitRun(s)
  {
    if s == "" {
      assert s + rest == rest;
    } else {
      assert (s + rest)[0] == s[0] && (s + rest)[1..] == s[1..] + rest;
      DigitsStop(s[1..], rest);
    }
  }

  lemma WholeStops(s: string, rest: string)
    requires Delimited(rest)
    ensures WholeLength(s + rest) == WholeLength(s)
  {
    DigitsStop(s, rest);
    if s != "" { assert (s + rest)[0] == s[0]; } else { assert s + rest == rest; }
  }

  lemma FractionStops(s: string, rest: string)
    requires Delimited(rest)
    ensures FractionLength(s + rest) == FractionLength(s)
  {
    if s == "" {
      assert s + rest == rest;
    } else {
      assert (s + rest)[0] == s[0] && (s + rest)[1..] == s[1..] + rest;
      DigitsStop(s[1..], rest);
    }
  }

  lemma ExponentStops(s: string, rest: string)
    requires Delimited(rest)
    ensures ExponentLength(s + rest) == ExponentLength(s)
  {
    if s == "" {
      assert s + rest == rest;
    } else {
      assert (s + rest)[0] == s[0] && (s + rest)[1..] == s[1..] + rest;
      DigitsStop(s[1..], rest);
      if |s| > 1 {
        assert (s + rest)[1] == s[1] && (s + rest)[2..] == s[2..] + rest;
        DigitsStop(s[2..], rest);
      } else if rest != "" {
        assert (s + rest)[1] == rest[0];
      }
    }
  }

  lemma ScanIs(t: string, m: Scan)
    requires m.i <= m.j <= m.k <= m.n <= |t| && SignLength(t) == m.i && WholeLength(t[m.i..]) == m.j - m.i
    requires FractionLength(t[m.j..]) == m.k - m.j && ExponentLength(t[m.k..]) == m.n - m.k
    ensures Scanned(t) == m
  {
  }

  lemma TailOfSum(s: string, rest: string, i: nat)
    requires i <= |s|
    ensures (s + rest)[i..] == s[i..] + rest
  {
  }

  /** The scanner takes no more of a text than the number that was written, if a delimiter follows. */
  lemma MatchStops(s: string, rest: string)
    requires Delimited(rest)
    ensures Scanned(s + rest) == Scanned(s)
  {
    var m := Scanned(s);
    SignStops(s, rest);
    TailOfSum(s, rest, m.i);
    WholeStops(s[m.i..], rest);
    TailOfSum(s, rest, m.j);
    FractionStops(s[m.j..], rest);
    TailOfSum(s, rest, m.k);
    ExponentStops(s[m.k..], rest);
    ScanIs(s + rest, m);
  }

  lemma SignStops(s: string, rest: string)
    requires Delimited(rest)
    ensures SignLength(s + rest) == SignLength(s)
  {
    if s == "" { assert s + rest == rest; } else { assert (s + rest)[0] == s[0]; }
  }

  lemma NumberRoundTrip(s: string, rest: string)
    requires IsNumber(s) && !TooLong(s) && Delimited(rest)
    ensures ParseNumber(s + rest) == Read(s, rest)
  {
    MatchStops(s, rest);
    assert (s + rest)[..|s|] == s && (s + rest)[|s|..] == rest;
  }

  lemma MatchIsNumber(s: string)
    ensures Matched(s) > 0 ==> IsNumber(s[..Matched(s)])
  {
    if Matched(s) > 0 { PrefixMatches(s); }
  }

  lemma {:induction false} DigitsWithin(s: string, n: nat)
    requires DigitRun(s) <= n <= |s|
    ensures DigitRun(s[..n]) == DigitRun(s)
  {
    if s != "" && IsDigit(s[0]) {
      assert s[..n][1..] == s[1..][..n - 1];
      DigitsWithin(s[1..], n - 1);
    }
  }

  lemma TailOfCut(s: string, i: nat, n: nat)
    requires i <= n <= |s|
    ensures s[..n][i..] == s[i..][..n - i]
  {
  }

  lemma WholePart(s: string, m: Scan)
    requires m == Scanned(s) && m.i < m.j
    ensures WholeLength(s[..m.n][m.i..]) == m.j - m.i
  {
    TailOfCut(s, m.i, m.n);
    WholeWithin(s[m.i..], m.n - m.i);
  }

  lemma FractionPart(s: string, m: Scan)
    requires m == Scanned(s)
    ensures FractionLength(s[..m.n][m.j..]) == m.k - m.j
  {
    TailOfCut(s, m.j, m.n);
    assert s[m.j..][m.k - m.j..] == s[m.k..];
    FractionCut(s[m.j..], m.n - m.j);
  }

  lemma ExponentPart(s: string, m: Scan)
    requires m == Scanned(s)
    ensures ExponentLength(s[..m.n][m.k..]) == m.n - m.k
  {
    TailOfCut(s, m.k, m.n);
    ExponentWithin(s[m.k..]);
  }

  /** Cutting the text where the match ends does not change the match. */
  lemma PrefixMatches(s: string)
    requires Matched(s) > 0
    ensures Scanned(s[..Matched(s)]) == Scanned(s)
  {
    var m := Scanned(s);
    WholePart(s, m);
    FractionPart(s, m);
    ExponentPart(s, m);
    ScanIs(s[..m.n], m);
  }

  /** The fraction is seen in the cut text exactly as in the whole one. */
  lemma FractionCut(s: string, n: nat)
    requires FractionLength(s) <= n <= |s| && n == FractionLength(s) + ExponentLength(s[FractionLength(s)..])
    ensures FractionLength(s[..n]) == FractionLength(s)
  {
    if n > 0 && FractionLength(s) == 0 { assert s[0..] == s; }
    FractionWithin(s, n);
  }

  lemma WholeWithin(s: string, n: nat)
    requires WholeLength(s) <= n <= |s| && n > 0
    ensures WholeLength(s[..n]) == WholeLength(s)
  {
    if s[0] != '0' { DigitsWithin(s, n); }
  }

  lemma FractionWithin(s: string, n: nat)
    requires FractionLength(s) <= n <= |s|
    ensures FractionLength(s) > 0 ==> FractionLength(s[..n]) == FractionLength(s)
    ensures FractionLength(s) == 0 && (n == 0 || s[0] == 'e' || s[0] == 'E') ==> FractionLength(s[..n]) == 0
  {
    if FractionLength(s) > 0 {
      assert s[..n][1..] == s[1..][..n - 1];
      DigitsWithin(s[1..], n - 1);
    }
  }

  lemma ExponentWithin(s: string)
    ensures ExponentLength(s[..ExponentLength(s)]) == ExponentLength(s)
  {
    var n := ExponentLength(s);
    if n > 0 {
      assert s[..n][1..] == s[1..][..n - 1];
      if s[1] == '+' || s[1] == '-' {
        assert s[..n][2..] == s[2..][..n - 2];
        DigitsWithin(s[2..], n - 2);
      } else {
        DigitsWithin(s[1..], n - 1);
      }
    }
  }

  lemma {:induction false} AllDigits(s: string)
    requires forall i :: 0 <= i < |s| ==> IsDigit(s[i])
    ensures DigitRun(s) == |s|
  {
    if s != "" { AllDigits(s[1..]); }
  }

  lemma WholeIsNumber(s: string)
    requires 1 <= |s| <= MAX_DIGITS && (s[0] == '0' ==> |s| == 1)
    requires forall i :: 0 <= i < |s| ==> IsDigit(s[i])
    ensures IsNumber(s) && !TooLong(s)
  {
    AllDigits(s);
    assert s[0..] == s && s[|s|..] == "";
    ScanIs(s, Scan(0, |s|, |s|, |s|));
  }

  lemma DecimalIsNumber(s: string)
    requires |s| >= 1 && (s[0] == '0' ==> |s| == 1)
    requires forall i :: 0 <= i < |s| ==> IsDigit(s[i])
    ensures IsNumber(s + ".0") && !TooLong(s + ".0")
  {
    var t, n := s + ".0", |s|;
    AllDigits(s);
    DigitsStop(s, ".0");
    AllDigits("0");
    assert t[0..] == t && t[n..] == ".0" && ".0"[1..] == "0" && t[n + 2..] == "";
    assert t[0] == s[0];
    ScanIs(t, Scan(0, n, n + 2, n + 2));
  }

  // ---- what is printed is plain --------------------------------------------------------------------

  /** Printable ASCII only: in particular no newline, and one byte per character on the wire. */
  predicate Plain(s: string) { forall c :: c in s ==> ' ' <= c <= '~' }

  lemma UnicodeIsPlain(n: nat)
    requires n < 0x10000
    ensures Plain(Unicode(n))
  {
  }

  lemma EscapeIsPlain(c: Code)
    ensures Plain(Escape(c))
  {
    if Short(c).Some? || 32 <= c < 127 {
    } else if c < 0x10000 {
      UnicodeIsPlain(c);
    } else {
      UnicodeIsPlain(0xD800 + (c - 0x10000) / 1024);
      UnicodeIsPlain(0xDC00 + (c - 0x10000) % 1024);
    }
  }

  lemma {:induction false} EscapedIsPlain(t: Text)
    ensures Plain(EscapeAll(t))
  {
    if t != [] {
      EscapeIsPlain(t[0]);
      EscapedIsPlain(t[1..]);
    }
  }

  lemma NumberIsPlain(s: string)
    requires IsNumber(s)
    ensures Plain(s) && NumberChar(s[0])
  {
    MatchedChars(s);
  }
}
