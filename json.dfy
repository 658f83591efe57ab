/** `json.dumps` of a string with the default `ensure_ascii=True`: the text
    between double quotes, with `"` and `\` escaped, the usual control-character
    escapes, and every character outside printable ASCII written as `\uXXXX`
    (lower-case hex; a surrogate pair above U+FFFF). */
module Json {
  import opened Wrappers

  predicate IsPrintableAscii(c: char) {
    ' ' <= c <= '~'
  }

  function HexDigit(d: nat): (c: char)
    requires d < 16
    ensures IsPrintableAscii(c)
  {
    if d < 10 then ('0' as int + d) as char else ('a' as int + d - 10) as char
  }

  /** Four lower-case hex digits, as `'\\u{0:04x}'` writes them. */
  function Hex4(n: nat): (r: string)
    requires n < 0x10000
    ensures |r| == 4 && forall i :: 0 <= i < 4 ==> IsPrintableAscii(r[i])
  {
    var r := n % 4096;
    var r2 := r % 256;
    [HexDigit(n / 4096), HexDigit(r / 256), HexDigit(r2 / 16), HexDigit(r2 % 16)]
  }

  function UnitEscape(u: nat): string
    requires u < 0x10000
  {
    "\\u" + Hex4(u)
  }

  /** The JSON text of one character. */
  function EscapeJsonChar(c: char): (r: string)
    ensures |r| > 0 && forall i :: 0 <= i < |r| ==> IsPrintableAscii(r[i])
  {
    if c == '"' then "\\\""
    else if c == '\\' then "\\\\"
    else if c == '\n' then "\\n"
    else if c == '\r' then "\\r"
    else if c == '\t' then "\\t"
    else if c == '\U{8}' then "\\b"
    else if c == '\U{C}' then "\\f"
    else if IsPrintableAscii(c) then [c]
    else if c as int < 0x10000 then UnitEscape(c as int)
    else
      var n := c as int - 0x10000;
      UnitEscape(0xD800 + n / 0x400) + UnitEscape(0xDC00 + n % 0x400)
  }

  function EscapeJson(s: string): (r: string)
    ensures forall i :: 0 <= i < |r| ==> IsPrintableAscii(r[i])
    decreases |s|
  {
    if s == [] then ""
    else
      var head, tail := EscapeJsonChar(s[0]), EscapeJson(s[1..]);
      assert forall i :: 0 <= i < |head + tail| ==> (head + tail)[i] == if i < |head| then head[i] else tail[i - |head|];
      head + tail
  }

  /** `json.dumps(s)`. */
  function Quote(s: string): string {
    "\"" + EscapeJson(s) + "\""
  }

  /** The encoding is pure printable ASCII, whatever the text. */
  lemma QuoteIsPrintableAscii(s: string)
    ensures forall i :: 0 <= i < |Quote(s)| ==> IsPrintableAscii(Quote(s)[i])
  {
    var q := Quote(s);
    forall i | 0 <= i < |q|
      ensures IsPrintableAscii(q[i])
    {
      if 0 < i < |q| - 1 {
        assert q[i] == EscapeJson(s)[i - 1];
      }
    }
  }

  /** Printable ASCII without `"` and `\` passes through unchanged. */
  lemma {:induction false} EscapeJsonPlain(s: string)
    requires forall i :: 0 <= i < |s| ==> IsPrintableAscii(s[i]) && s[i] != '"' && s[i] != '\\'
    ensures EscapeJson(s) == s
    decreases |s|
  {
    if s != [] {
      EscapeJsonPlain(s[1..]);
    }
  }

  // ---------------------------------------------------------------------------
  // Decoding, as `json.loads` reads a string body

  predicate IsHexDigit(c: char) {
    '0' <= c <= '9' || 'a' <= c <= 'f' || 'A' <= c <= 'F'
  }

  function HexDigitValue(c: char): (d: nat)
    requires IsHexDigit(c)
    ensures d < 16
  {
    if '0' <= c <= '9' then c as int - '0' as int
    else if 'a' <= c <= 'f' then c as int - 'a' as int + 10
    else c as int - 'A' as int + 10
  }

  predicate IsHex4(s: string) {
    |s| == 4 && forall i :: 0 <= i < 4 ==> IsHexDigit(s[i])
  }

  function Hex4Value(s: string): (n: nat)
    requires IsHex4(s)
    ensures n < 0x10000
  {
    HexDigitValue(s[0]) * 4096 + HexDigitValue(s[1]) * 256 + HexDigitValue(s[2]) * 16 + HexDigitValue(s[3])
  }

  lemma HexDigitRoundTrip(d: nat)
    requires d < 16
    ensures IsHexDigit(HexDigit(d)) && HexDigitValue(HexDigit(d)) == d
  {
  }

  lemma Hex4RoundTrip(n: nat)
    requires n < 0x10000
    ensures IsHex4(Hex4(n)) && Hex4Value(Hex4(n)) == n
  {
    var r := n % 4096;
    var r2 := r % 256;
    HexDigitRoundTrip(n / 4096);
    HexDigitRoundTrip(r / 256);
    HexDigitRoundTrip(r2 / 16);
    HexDigitRoundTrip(r2 % 16);
    assert n == (n / 4096) * 4096 + r;
    assert r == (r / 256) * 256 + r2;
    assert r2 == (r2 / 16) * 16 + r2 % 16;
  }

  predicate IsScalar(u: int) {
    0 <= u < 0xD800 || 0xE000 <= u < 0x11_0000
  }

  /** The body of a JSON string back to its text; None when it is malformed. */
  function Unescape(t: string): Option<string>
    decreases |t|
  {
    if t == [] then Some([])
    else if t[0] != '\\' then
      match Unescape(t[1..])
      case None => None
      case Some(rest) => Some([t[0]] + rest)
    else if |t| < 2 then None
    else if t[1] in "\"\\/bfnrt" then
      var c := match t[1]
        case 'b' => '\U{8}'
        case 'f' => '\U{C}'
        case 'n' => '\n'
        case 'r' => '\r'
        case 't' => '\t'
        case _ => t[1];
      match Unescape(t[2..])
      case None => None
      case Some(rest) => Some([c] + rest)
    else if t[1] == 'u' && |t| >= 6 && IsHex4(t[2..6]) then
      var u := Hex4Value(t[2..6]);
      if 0xD800 <= u < 0xDC00 && |t| >= 12 && t[6] == '\\' && t[7] == 'u' && IsHex4(t[8..12])
         && 0xDC00 <= Hex4Value(t[8..12]) < 0xE000 then
        var c := 0x10000 + (u - 0xD800) * 0x400 + (Hex4Value(t[8..12]) - 0xDC00);
        match Unescape(t[12..])
        case None => None
        case Some(rest) => Some([c as char] + rest)
      else if IsScalar(u) then
        match Unescape(t[6..])
        case None => None
        case Some(rest) => Some([u as char] + rest)
      else None
    else None
  }

  lemma UnescapeUnit(u: nat, rest: string, tail: string)
    requires u < 0x10000 && IsScalar(u) && Unescape(rest) == Some(tail)
    ensures Unescape(UnitEscape(u) + rest) == Some([u as char] + tail)
  {
    var t := UnitEscape(u) + rest;
    Hex4RoundTrip(u);
    assert t[2..6] == Hex4(u);
    assert t[6..] == rest;
  }

  lemma SurrogateSplit(n: nat)
    requires n < 0x10_0000
    ensures 0xD800 <= 0xD800 + n / 0x400 < 0xDC00 && 0xDC00 <= 0xDC00 + n % 0x400 < 0xE000
    ensures (n / 0x400) * 0x400 + n % 0x400 == n
  {
  }

  lemma UnescapeSurrogates(hi: nat, lo: nat, rest: string, tail: string)
    requires 0xD800 <= hi < 0xDC00 && 0xDC00 <= lo < 0xE000 && Unescape(rest) == Some(tail)
    ensures Unescape(UnitEscape(hi) + UnitEscape(lo) + rest)
            == Some([(0x10000 + (hi - 0xD800) * 0x400 + (lo - 0xDC00)) as char] + tail)
  {
    var t := UnitEscape(hi) + UnitEscape(lo) + rest;
    Hex4RoundTrip(hi);
    Hex4RoundTrip(lo);
    assert t[2..6] == Hex4(hi);
    assert t[6] == '\\' && t[7] == 'u';
    assert t[8..12] == Hex4(lo);
    assert t[12..] == rest;
  }

  lemma UnescapePair(c: char, rest: string, tail: string)
    requires c as int >= 0x10000 && Unescape(rest) == Some(tail)
    ensures Unescape(EscapeJsonChar(c) + rest) == Some([c] + tail)
  {
    var n := c as int - 0x10000;
    SurrogateSplit(n);
    var hi, lo := 0xD800 + n / 0x400, 0xDC00 + n % 0x400;
    assert !IsPrintableAscii(c) && c != '"' && c != '\\';
    assert EscapeJsonChar(c) == UnitEscape(hi) + UnitEscape(lo);
    assert 0x10000 + (hi - 0xD800) * 0x400 + (lo - 0xDC00) == c as int;
    UnescapeSurrogates(hi, lo, rest, tail);
  }

  lemma UnescapeChar(c: char, rest: string, tail: string)
    requires Unescape(rest) == Some(tail)
    ensures Unescape(EscapeJsonChar(c) + rest) == Some([c] + tail)
  {
    var e := EscapeJsonChar(c);
    if c == '"' || c == '\\' || c == '\n' || c == '\r' || c == '\t' || c == '\U{8}' || c == '\U{C}' {
      assert |e| == 2 && e[0] == '\\';
      assert (e + rest)[2..] == rest;
    } else if IsPrintableAscii(c) {
      assert (e + rest)[1..] == rest;
    } else if c as int < 0x10000 {
      UnescapeUnit(c as int, rest, tail);
    } else {
      UnescapePair(c, rest, tail);
    }
  }

  /** Decoding undoes the encoding: `json.loads(json.dumps(s)) == s`. */
  lemma {:induction false} UnescapeEscapeJson(s: string)
    ensures Unescape(EscapeJson(s)) == Some(s)
    decreases |s|
  {
    if s != [] {
      UnescapeEscapeJson(s[1..]);
      UnescapeChar(s[0], EscapeJson(s[1..]), s[1..]);
      assert EscapeJson(s) == EscapeJsonChar(s[0]) + EscapeJson(s[1..]);
      assert [s[0]] + s[1..] == s;
    }
  }
}
