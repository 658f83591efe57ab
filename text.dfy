/** The Python string operations the pipeline relies on: `in`, `str.replace`,
    `str.split`, `str.join`, `str.strip`, decimal conversion and the three-step
    HTML escape of shared/tasks.py. */
module Text {

  // ---------------------------------------------------------------------------
  // Substrings

  predicate StartsWith(s: string, prefix: string) {
    |prefix| <= |s| && s[..|prefix|] == prefix
  }

  /** Python's `sub in s`. */
  predicate Contains(s: string, sub: string)
    decreases |s|
  {
    StartsWith(s, sub) || (|s| > 0 && Contains(s[1..], sub))
  }

  /** An occurrence of `sub` needs its first character to occur in `s`. */
  lemma {:induction false} ContainsNeedsFirstChar(s: string, sub: string)
    requires sub != [] && Contains(s, sub)
    ensures sub[0] in s
    decreases |s|
  {
    if StartsWith(s, sub) {
      assert s[0] == sub[0];
    } else {
      ContainsNeedsFirstChar(s[1..], sub);
      assert sub[0] in s[1..];
    }
  }

  // ---------------------------------------------------------------------------
  // str.replace, str.split, str.join

  /** Python's `s.replace(pat, rep)`: leftmost, non-overlapping occurrences. */
  function ReplaceAll(s: string, pat: string, rep: string): (r: string)
    requires pat != []
    ensures !Contains(s, pat) ==> r == s
    decreases |s|
  {
    if |s| < |pat| then s
    else if s[..|pat|] == pat then rep + ReplaceAll(s[|pat|..], pat, rep)
    else [s[0]] + ReplaceAll(s[1..], pat, rep)
  }

  /** Python's `s.split(sep)`: the pieces between the occurrences of `sep`. */
  function Split(s: string, sep: string): (parts: seq<string>)
    requires sep != []
    ensures |parts| >= 1
    decreases |s|
  {
    if |s| < |sep| then [s]
    else if s[..|sep|] == sep then [""] + Split(s[|sep|..], sep)
    else
      var rest := Split(s[1..], sep);
      [[s[0]] + rest[0]] + rest[1..]
  }

  /** A string without the separator is one piece. */
  lemma {:induction false} SplitWithoutSeparator(s: string, sep: string)
    requires sep != [] && !Contains(s, sep)
    ensures Split(s, sep) == [s]
    decreases |s|
  {
    if |s| >= |sep| {
      assert s[..|sep|] != sep;
      SplitWithoutSeparator(s[1..], sep);
      assert [s[0]] + s[1..] == s;
    }
  }

  /** Python's `sep.join(parts)`. */
  function Join(parts: seq<string>, sep: string): string
    decreases |parts|
  {
    if parts == [] then ""
    else if |parts| == 1 then parts[0]
    else parts[0] + sep + Join(parts[1..], sep)
  }

  /** The strings of `parts` one after the other: `"".join(parts)`. */
  function Concat(parts: seq<string>): string
    decreases |parts|
  {
    if parts == [] then "" else Concat(parts[..|parts| - 1]) + parts[|parts| - 1]
  }

  lemma ConcatSnoc(parts: seq<string>, x: string)
    ensures Concat(parts + [x]) == Concat(parts) + x
  {
    assert (parts + [x])[..|parts|] == parts;
  }

  lemma JoinConsChar(c: char, first: string, rest: seq<string>, sep: string)
    ensures Join([[c] + first] + rest, sep) == [c] + Join([first] + rest, sep)
  {
    var a := [[c] + first] + rest;
    var b := [first] + rest;
    if rest != [] {
      assert a[1..] == rest && b[1..] == rest;
    }
  }

  /** `s.replace(pat, rep) == rep.join(s.split(pat))`: replacement is splitting
      at every occurrence and gluing the pieces back with the replacement. */
  lemma {:induction false} ReplaceAllIsJoinOfSplit(s: string, pat: string, rep: string)
    requires pat != []
    ensures ReplaceAll(s, pat, rep) == Join(Split(s, pat), rep)
    decreases |s|
  {
    if |s| < |pat| {
    } else if s[..|pat|] == pat {
      var rest := Split(s[|pat|..], pat);
      ReplaceAllIsJoinOfSplit(s[|pat|..], pat, rep);
      assert ([""] + rest)[1..] == rest;
    } else {
      var rest := Split(s[1..], pat);
      ReplaceAllIsJoinOfSplit(s[1..], pat, rep);
      JoinConsChar(s[0], rest[0], rest[1..], rep);
      assert [rest[0]] + rest[1..] == rest;
    }
  }

  lemma {:induction false} ReplaceAllWithItself(s: string, pat: string)
    requires pat != []
    ensures ReplaceAll(s, pat, pat) == s
    decreases |s|
  {
    if |s| < |pat| {
    } else if s[..|pat|] == pat {
      ReplaceAllWithItself(s[|pat|..], pat);
      assert s == s[..|pat|] + s[|pat|..];
    } else {
      ReplaceAllWithItself(s[1..], pat);
      assert s == [s[0]] + s[1..];
    }
  }

  /** Joining the pieces of a split with the same separator gives the string back. */
  lemma SplitJoinRoundTrip(s: string, sep: string)
    requires sep != []
    ensures Join(Split(s, sep), sep) == s
  {
    ReplaceAllIsJoinOfSplit(s, sep, sep);
    ReplaceAllWithItself(s, sep);
  }

  /** Replacing a one-character pattern is a character-wise map. */
  function MapChar(s: string, c: char, rep: string): (r: string)
    decreases |s|
  {
    if s == [] then [] else (if s[0] == c then rep else [s[0]]) + MapChar(s[1..], c, rep)
  }

  lemma {:induction false} ReplaceOneCharIsMapChar(s: string, c: char, rep: string)
    ensures ReplaceAll(s, [c], rep) == MapChar(s, c, rep)
    decreases |s|
  {
    if s != [] {
      ReplaceOneCharIsMapChar(s[1..], c, rep);
    }
  }

  lemma {:induction false} MapCharConcat(a: string, b: string, c: char, rep: string)
    ensures MapChar(a + b, c, rep) == MapChar(a, c, rep) + MapChar(b, c, rep)
    decreases |a|
  {
    if a == [] {
      assert a + b == b;
    } else {
      MapCharConcat(a[1..], b, c, rep);
      assert (a + b)[1..] == a[1..] + b;
    }
  }

  lemma {:induction false} MapCharAbsent(s: string, c: char, rep: string)
    requires c !in s
    ensures MapChar(s, c, rep) == s
    decreases |s|
  {
    if s != [] {
      MapCharAbsent(s[1..], c, rep);
    }
  }

  // ---------------------------------------------------------------------------
  // str.strip

  /** Python's `str.isspace` for one character. */
  predicate IsSpace(c: char) {
    c == ' ' || ('\t' <= c <= '\r') || ('\U{1C}' <= c <= '\U{1F}') || c == '\U{85}' || c == '\U{A0}'
    || c == '\U{1680}' || ('\U{2000}' <= c <= '\U{200A}') || c == '\U{2028}' || c == '\U{2029}'
    || c == '\U{202F}' || c == '\U{205F}' || c == '\U{3000}'
  }

  function StripLeft(s: string): (r: string)
    ensures |r| <= |s| && r == s[|s| - |r|..]
    ensures r == [] || !IsSpace(r[0])
    ensures forall i :: 0 <= i < |s| - |r| ==> IsSpace(s[i])
    decreases |s|
  {
    if |s| > 0 && IsSpace(s[0]) then StripLeft(s[1..]) else s
  }

  function StripRight(s: string): (r: string)
    ensures |r| <= |s| && r == s[..|r|]
    ensures r == [] || !IsSpace(r[|r| - 1])
    ensures forall i :: |r| <= i < |s| ==> IsSpace(s[i])
    decreases |s|
  {
    if |s| > 0 && IsSpace(s[|s| - 1]) then StripRight(s[..|s| - 1]) else s
  }

  /** Python's `s.strip()`: whitespace removed from both ends, so that the
      result is empty exactly when `s` is all whitespace. */
  function Strip(s: string): (r: string)
    ensures |r| <= |s|
    ensures r == [] || (!IsSpace(r[0]) && !IsSpace(r[|r| - 1]))
    ensures r == [] <==> forall i :: 0 <= i < |s| ==> IsSpace(s[i])
  {
    var l := StripLeft(s);
    var r := StripRight(l);
    assert r != [] ==> r[0] == l[0];
    assert l != [] ==> !IsSpace(l[0]) && r != [];
    r
  }

  lemma StripIdempotent(s: string)
    ensures Strip(Strip(s)) == Strip(s)
  {
    var r := Strip(s);
    assert StripLeft(r) == r;
    assert StripRight(r) == r;
  }

  // ---------------------------------------------------------------------------
  // Decimal numbers

  predicate IsDigit(c: char) {
    '0' <= c <= '9'
  }

  predicate AllDigits(s: string) {
    forall i :: 0 <= i < |s| ==> IsDigit(s[i])
  }

  function DigitChar(d: nat): (c: char)
    requires d < 10
    ensures IsDigit(c) && c as int - '0' as int == d
  {
    ('0' as int + d) as char
  }

  /** Python's `str(n)` for a natural number. */
  function NatToString(n: nat): (r: string)
    ensures |r| >= 1 && AllDigits(r)
    decreases n
  {
    if n < 10 then [DigitChar(n)] else NatToString(n / 10) + [DigitChar(n % 10)]
  }

  /** Python's `str(i)` for an integer. */
  function IntToString(i: int): string {
    if i < 0 then "-" + NatToString(-i) else NatToString(i)
  }

  /** The value of a string of decimal digits, most significant first. */
  function DigitsValue(s: string): nat
    requires AllDigits(s)
    decreases |s|
  {
    if s == [] then 0 else DigitsValue(s[..|s| - 1]) * 10 + (s[|s| - 1] as int - '0' as int)
  }

  lemma {:induction false} DigitsValueOfNatToString(n: nat)
    ensures DigitsValue(NatToString(n)) == n
    decreases n
  {
    if n >= 10 {
      var p := NatToString(n / 10);
      var s := p + [DigitChar(n % 10)];
      assert s[..|s| - 1] == p;
      DigitsValueOfNatToString(n / 10);
    }
  }

  /** `"".join(filter(str.isdigit, s))`, for ASCII digits. */
  function KeepDigits(s: string): (r: string)
    ensures AllDigits(r) && |r| <= |s|
    ensures r == [] <==> forall i :: 0 <= i < |s| ==> !IsDigit(s[i])
    decreases |s|
  {
    if s == [] then []
    else (if IsDigit(s[0]) then [s[0]] else []) + KeepDigits(s[1..])
  }

  lemma {:induction false} KeepDigitsConcat(a: string, b: string)
    ensures KeepDigits(a + b) == KeepDigits(a) + KeepDigits(b)
    decreases |a|
  {
    if a != [] {
      assert (a + b)[1..] == a[1..] + b;
      KeepDigitsConcat(a[1..], b);
    } else {
      assert a + b == b;
    }
  }

  lemma {:induction false} KeepDigitsOfDigits(s: string)
    requires AllDigits(s)
    ensures KeepDigits(s) == s
    decreases |s|
  {
    if s != [] {
      KeepDigitsOfDigits(s[1..]);
      assert [s[0]] + s[1..] == s;
    }
  }

  lemma {:induction false} KeepDigitsOfSpaces(s: string)
    requires forall i :: 0 <= i < |s| ==> IsSpace(s[i])
    ensures KeepDigits(s) == []
    decreases |s|
  {
    if s != [] {
      KeepDigitsOfSpaces(s[1..]);
    }
  }

  lemma KeepDigitsOfStripLeft(s: string)
    ensures KeepDigits(StripLeft(s)) == KeepDigits(s)
  {
    var l := StripLeft(s);
    var front := s[..|s| - |l|];
    assert l == s[|s| - |l|..];
    assert forall i :: 0 <= i < |front| ==> front[i] == s[i] && IsSpace(front[i]);
    assert s == front + l;
    KeepDigitsConcat(front, l);
    KeepDigitsOfSpaces(front);
  }

  lemma KeepDigitsOfStripRight(s: string)
    ensures KeepDigits(StripRight(s)) == KeepDigits(s)
  {
    var r := StripRight(s);
    var back := s[|r|..];
    assert s == r + back;
    KeepDigitsConcat(r, back);
    assert forall i :: 0 <= i < |back| ==> back[i] == s[|r| + i];
    KeepDigitsOfSpaces(back);
  }

  /** No whitespace character is a digit, so stripping keeps every digit. */
  lemma KeepDigitsOfStrip(s: string)
    ensures KeepDigits(Strip(s)) == KeepDigits(s)
  {
    KeepDigitsOfStripLeft(s);
    KeepDigitsOfStripRight(StripLeft(s));
  }

  /** Deleting a pattern that holds no digit keeps every digit. */
  lemma {:induction false} KeepDigitsOfDeletion(s: string, pat: string)
    requires pat != [] && KeepDigits(pat) == []
    ensures KeepDigits(ReplaceAll(s, pat, "")) == KeepDigits(s)
    decreases |s|
  {
    if |s| < |pat| {
    } else if s[..|pat|] == pat {
      KeepDigitsOfDeletion(s[|pat|..], pat);
      assert s == pat + s[|pat|..];
      KeepDigitsConcat(pat, s[|pat|..]);
      assert "" + ReplaceAll(s[|pat|..], pat, "") == ReplaceAll(s[|pat|..], pat, "");
    } else {
      KeepDigitsOfDeletion(s[1..], pat);
      KeepDigitsConcat([s[0]], ReplaceAll(s[1..], pat, ""));
    }
  }

  // ---------------------------------------------------------------------------
  // The numeral grammar of `int(s)` in base 10, as CPython 3.12 reads it

  /** `sys.int_info.default_max_str_digits`: the most digits `int()` converts. */
  const MaxStrDigits: nat := 4300

  /** How many runs of ten decimal digits (Unicode general category Nd,
      Unicode 15.0) lie outside ASCII. */
  const DecimalRuns: nat := 67

  /** The first code point, digit zero, of the `k`-th of those runs. */
  function DecimalZero(k: nat): int
    requires k < DecimalRuns
  {
    if k == 0 then 0x0660
    else if k == 1 then 0x06F0
    else if k == 2 then 0x07C0
    else if k == 3 then 0x0966
    else if k == 4 then 0x09E6
    else if k == 5 then 0x0A66
    else if k == 6 then 0x0AE6
    else if k == 7 then 0x0B66
    else if k == 8 then 0x0BE6
    else if k == 9 then 0x0C66
    else if k == 10 then 0x0CE6
    else if k == 11 then 0x0D66
    else if k == 12 then 0x0DE6
    else if k == 13 then 0x0E50
    else if k == 14 then 0x0ED0
    else if k == 15 then 0x0F20
    else if k == 16 then 0x1040
    else if k == 17 then 0x1090
    else if k == 18 then 0x17E0
    else if k == 19 then 0x1810
    else if k == 20 then 0x1946
    else if k == 21 then 0x19D0
    else if k == 22 then 0x1A80
    else if k == 23 then 0x1A90
    else if k == 24 then 0x1B50
    else if k == 25 then 0x1BB0
    else if k == 26 then 0x1C40
    else if k == 27 then 0x1C50
    else if k == 28 then 0xA620
    else if k == 29 then 0xA8D0
    else if k == 30 then 0xA900
    else if k == 31 then 0xA9D0
    else if k == 32 then 0xA9F0
    else if k == 33 then 0xAA50
    else if k == 34 then 0xABF0
    else if k == 35 then 0xFF10
    else if k == 36 then 0x104A0
    else if k == 37 then 0x10D30
    else if k == 38 then 0x11066
    else if k == 39 then 0x110F0
    else if k == 40 then 0x11136
    else if k == 41 then 0x111D0
    else if k == 42 then 0x112F0
    else if k == 43 then 0x11450
    else if k == 44 then 0x114D0
    else if k == 45 then 0x11650
    else if k == 46 then 0x116C0
    else if k == 47 then 0x11730
    else if k == 48 then 0x118E0
    else if k == 49 then 0x11950
    else if k == 50 then 0x11C50
    else if k == 51 then 0x11D50
    else if k == 52 then 0x11DA0
    else if k == 53 then 0x11F50
    else if k == 54 then 0x16A60
    else if k == 55 then 0x16AC0
    else if k == 56 then 0x16B50
    else if k == 57 then 0x1D7CE
    else if k == 58 then 0x1D7D8
    else if k == 59 then 0x1D7E2
    else if k == 60 then 0x1D7EC
    else if k == 61 then 0x1D7F6
    else if k == 62 then 0x1E140
    else if k == 63 then 0x1E2F0
    else if k == 64 then 0x1E4F0
    else if k == 65 then 0x1E950
    else 0x1FBF0
  }

  /** The digit code point `x` stands for in runs `k` onwards, or -1 when it is
      in none of them. */
  function DecimalFrom(x: int, k: nat): (d: int)
    requires k <= DecimalRuns
    ensures -1 <= d < 10
    ensures d >= 0 ==> exists j :: k <= j < DecimalRuns && x == DecimalZero(j) + d
    decreases DecimalRuns - k
  {
    if k == DecimalRuns then -1
    else if DecimalZero(k) <= x < DecimalZero(k) + 10 then x - DecimalZero(k)
    else DecimalFrom(x, k + 1)
  }

  /** `Py_UNICODE_TODECIMAL` outside ASCII: the digit of code point `x`, or -1. */
  function DecimalDigit(x: int): int {
    DecimalFrom(x, 0)
  }

  /** `Py_ISSPACE`: the ASCII whitespace around a numeral. */
  predicate IsAsciiSpace(c: char) {
    c == ' ' || '\t' <= c <= '\r'
  }

  /** `_PyUnicode_TransformDecimalAndSpaceToASCII`: characters below U+007F are
      kept, other whitespace becomes ' ', other decimal digits become their
      ASCII digit, and the first other character becomes '?', which ends the
      text. */
  function AsciiNumeral(s: string): (r: string)
    decreases |s|
  {
    if s == [] then []
    else if s[0] < '\U{7F}' then [s[0]] + AsciiNumeral(s[1..])
    else if IsSpace(s[0]) then " " + AsciiNumeral(s[1..])
    else
      var d := DecimalDigit(s[0] as int);
      if d >= 0 then [DigitChar(d)] + AsciiNumeral(s[1..]) else "?"
  }

  /** The text up to its first NUL: what C code sees of it. */
  function BeforeNul(s: string): (r: string)
    decreases |s|
  {
    if s == [] || s[0] == '\0' then [] else [s[0]] + BeforeNul(s[1..])
  }

  function TrimAsciiLeft(s: string): (r: string)
    decreases |s|
  {
    if |s| > 0 && IsAsciiSpace(s[0]) then TrimAsciiLeft(s[1..]) else s
  }

  function TrimAsciiRight(s: string): (r: string)
    decreases |s|
  {
    if |s| > 0 && IsAsciiSpace(s[|s| - 1]) then TrimAsciiRight(s[..|s| - 1]) else s
  }

  /** Digits with single underscores between them: at least one digit, no
      underscore first or last, no two underscores in a row. */
  predicate Underscored(s: string)
    decreases |s|
  {
    |s| > 0 && IsDigit(s[0]) && (|s| == 1 || if s[1] == '_' then Underscored(s[2..]) else Underscored(s[1..]))
  }

  /** What `PyLong_FromString` makes of ASCII text in base 10. */
  datatype IntScan = Invalid | Overlong(count: nat) | Parsed(value: int)

  /** Whitespace, an optional sign, an underscored numeral and whitespace; a
      well-formed numeral of more than `MaxStrDigits` digits (underscores not
      counted) is refused only once the whole text has been checked. */
  function ScanInt(a: string): IntScan {
    ScanSigned(TrimAsciiRight(TrimAsciiLeft(a)))
  }

  /** An optional sign before the numeral. */
  function ScanSigned(t: string): IntScan {
    if |t| > 0 && t[0] == '-' then Negated(ScanNumeral(t[1..]))
    else if |t| > 0 && t[0] == '+' then ScanNumeral(t[1..])
    else ScanNumeral(t)
  }

  function Negated(scan: IntScan): IntScan {
    if scan.Parsed? then Parsed(-scan.value) else scan
  }

  /** The numeral itself: its digits' value, or the refusals. */
  function ScanNumeral(body: string): (r: IntScan)
    ensures r.Parsed? ==> r.value >= 0
  {
    if !Underscored(body) then Invalid
    else
      var digits := KeepDigits(body);
      if |digits| > MaxStrDigits then Overlong(|digits|) else Parsed(DigitsValue(digits))
  }

  lemma {:induction false} UnderscoredOfDigits(s: string)
    requires s != [] && AllDigits(s)
    ensures Underscored(s)
    decreases |s|
  {
    if |s| > 1 {
      UnderscoredOfDigits(s[1..]);
    }
  }

  /** An underscored numeral holds only digits and underscores. */
  lemma {:induction false} UnderscoredChars(s: string)
    requires Underscored(s)
    ensures forall i :: 0 <= i < |s| ==> IsDigit(s[i]) || s[i] == '_'
    ensures IsDigit(s[|s| - 1])
    decreases |s|
  {
    if |s| > 1 {
      var j := if s[1] == '_' then 2 else 1;
      UnderscoredChars(s[j..]);
      assert forall i :: j <= i < |s| ==> s[i] == s[j..][i - j];
    }
  }

  /** An underscore may join two underscored numerals, and so may nothing. */
  lemma {:induction false} UnderscoredJoin(a: string, b: string)
    requires Underscored(a) && Underscored(b)
    ensures Underscored(a + "_" + b) && Underscored(a + b)
    decreases |a|
  {
    var s, t := a + "_" + b, a + b;
    if |a| == 1 {
      assert s[2..] == b && s[1] == '_';
      assert t[1..] == b && IsDigit(t[1]);
    } else if a[1] == '_' {
      UnderscoredJoin(a[2..], b);
      assert s[2..] == a[2..] + "_" + b && t[2..] == a[2..] + b;
    } else {
      UnderscoredJoin(a[1..], b);
      assert s[1..] == a[1..] + "_" + b && t[1..] == a[1..] + b;
    }
  }

  /** Joining two underscored numerals with an underscore or with nothing
      gives underscored numerals with the same digits. */
  lemma UnderscoreKeepsDigits(a: string, b: string)
    requires Underscored(a) && Underscored(b)
    ensures Underscored(a + "_" + b) && Underscored(a + b)
    ensures KeepDigits(a + "_" + b) == KeepDigits(a + b)
  {
    UnderscoredJoin(a, b);
    KeepDigitsConcat(a + "_", b);
    KeepDigitsConcat(a, "_");
    KeepDigitsConcat(a, b);
    assert KeepDigits("_") == [];
  }

  /** Non-ASCII decimal digits turn into the ASCII digits they stand for. */
  lemma {:induction false} AsciiNumeralOfDecimals(s: string)
    requires forall i :: 0 <= i < |s| ==>
      '\U{7F}' <= s[i] && !IsSpace(s[i]) && DecimalDigit(s[i] as int) >= 0
    ensures |AsciiNumeral(s)| == |s| && AllDigits(AsciiNumeral(s))
    ensures forall i :: 0 <= i < |s| ==> AsciiNumeral(s)[i] == DigitChar(DecimalDigit(s[i] as int))
    decreases |s|
  {
    if s != [] {
      AsciiNumeralOfDecimals(s[1..]);
      var d := DecimalDigit(s[0] as int);
      assert AsciiNumeral(s) == [DigitChar(d)] + AsciiNumeral(s[1..]);
      assert forall i :: 1 <= i < |s| ==> s[i] == s[1..][i - 1];
    }
  }

  /** Text below U+007F passes unchanged into ASCII. */
  lemma {:induction false} AsciiNumeralOfAscii(s: string)
    requires forall i :: 0 <= i < |s| ==> s[i] < '\U{7F}'
    ensures AsciiNumeral(s) == s
    decreases |s|
  {
    if s != [] {
      AsciiNumeralOfAscii(s[1..]);
      assert [s[0]] + s[1..] == s;
    }
  }

  lemma {:induction false} BeforeNulOfNulFree(s: string)
    requires forall i :: 0 <= i < |s| ==> s[i] != '\0'
    ensures BeforeNul(s) == s
    decreases |s|
  {
    if s != [] {
      BeforeNulOfNulFree(s[1..]);
      assert [s[0]] + s[1..] == s;
    }
  }

  /** A sign before an underscored numeral scans as the numeral, negated
      after '-'. */
  lemma ScanSignedNumeral(sign: string, body: string)
    requires sign == "" || sign == "-" || sign == "+"
    requires Underscored(body)
    ensures ScanInt(sign + body) == if sign == "-" then Negated(ScanNumeral(body)) else ScanNumeral(body)
  {
    var a := sign + body;
    TrimmedNumeral(sign, body);
    if sign == "" {
      assert a == body;
      assert IsDigit(a[0]);
    } else {
      assert a[0] == sign[0] && a[1..] == body;
    }
  }

  /** A sign before an underscored numeral scans as the value of its digits,
      negated after '-', or is refused when there are too many digits. */
  lemma ScanSignedValue(sign: string, body: string)
    requires sign == "" || sign == "-" || sign == "+"
    requires Underscored(body)
    ensures var digits := KeepDigits(body);
      ScanInt(sign + body)
        == if |digits| > MaxStrDigits then Overlong(|digits|)
           else Parsed(if sign == "-" then -(DigitsValue(digits) as int) else DigitsValue(digits))
  {
    ScanSignedNumeral(sign, body);
  }

  /** Plain digits scan as their value, or are too many. */
  lemma ScanOfDigits(c: string)
    requires c != [] && AllDigits(c)
    ensures ScanInt(c) == if |c| > MaxStrDigits then Overlong(|c|) else Parsed(DigitsValue(c))
  {
    UnderscoredOfDigits(c);
    KeepDigitsOfDigits(c);
    TrimmedDigits(c);
    assert ScanInt(c) == ScanNumeral(c) by {
      assert IsDigit(c[0]);
    }
  }

  lemma TrimmedDigits(c: string)
    requires c != [] && AllDigits(c)
    ensures TrimAsciiRight(TrimAsciiLeft(c)) == c
  {
    assert IsDigit(c[0]) && IsDigit(c[|c| - 1]);
    assert TrimAsciiLeft(c) == c;
  }

  /** A signed numeral has no surrounding whitespace to trim. */
  lemma TrimmedNumeral(sign: string, body: string)
    requires sign == "" || sign == "-" || sign == "+"
    requires Underscored(body)
    ensures TrimAsciiRight(TrimAsciiLeft(sign + body)) == sign + body
  {
    var a := sign + body;
    UnderscoredChars(body);
    assert a[|a| - 1] == body[|body| - 1];
    assert !IsAsciiSpace(a[0]) by {
      if sign == "" { assert a[0] == body[0]; }
    }
    assert TrimAsciiLeft(a) == a;
  }

  // ---------------------------------------------------------------------------
  // HTML escaping of shared/tasks.py

  /** `s.replace("&", "&amp;").replace("<", "&lt;").replace(">", "&gt;")`. */
  function EscapeHtml(s: string): string {
    ReplaceAll(ReplaceAll(ReplaceAll(s, "&", "&amp;"), "<", "&lt;"), ">", "&gt;")
  }

  /** The escape of one character, on its own. */
  function EscapeChar(c: char): string {
    if c == '&' then "&amp;" else if c == '<' then "&lt;" else if c == '>' then "&gt;" else [c]
  }

  /** Reference definition: escape character by character. */
  function EscapeChars(s: string): string
    decreases |s|
  {
    if s == [] then [] else EscapeChar(s[0]) + EscapeChars(s[1..])
  }

  function Escape3(s: string): string {
    MapChar(MapChar(MapChar(s, '&', "&amp;"), '<', "&lt;"), '>', "&gt;")
  }

  lemma MapCharSingle(c: char, d: char, rep: string)
    ensures MapChar([c], d, rep) == if c == d then rep else [c]
  {
    assert [c][1..] == [];
  }

  lemma Escape3OfChar(c: char)
    ensures Escape3([c]) == EscapeChar(c)
  {
    MapCharSingle(c, '&', "&amp;");
    if c == '&' {
      assert '<' !in "&amp;" && '>' !in "&amp;";
      MapCharAbsent("&amp;", '<', "&lt;");
      MapCharAbsent("&amp;", '>', "&gt;");
    } else if c == '<' {
      MapCharSingle(c, '<', "&lt;");
      assert '>' !in "&lt;";
      MapCharAbsent("&lt;", '>', "&gt;");
    } else {
      MapCharSingle(c, '<', "&lt;");
      MapCharSingle(c, '>', "&gt;");
    }
  }

  lemma {:induction false} Escape3IsEscapeChars(s: string)
    ensures Escape3(s) == EscapeChars(s)
    decreases |s|
  {
    if s != [] {
      var c := s[0];
      var a1 := if c == '&' then "&amp;" else [c];
      var b1 := MapChar(s[1..], '&', "&amp;");
      assert MapChar(s, '&', "&amp;") == a1 + b1;
      assert MapChar([c], '&', "&amp;") == a1;
      MapCharConcat(a1, b1, '<', "&lt;");
      var a2 := MapChar(a1, '<', "&lt;");
      var b2 := MapChar(b1, '<', "&lt;");
      MapCharConcat(a2, b2, '>', "&gt;");
      Escape3OfChar(c);
      Escape3IsEscapeChars(s[1..]);
    }
  }

  /** The chained replacement equals the character-wise escape: since `&` is
      replaced first, the `&` of `&lt;` and `&gt;` is never escaped again. */
  lemma EscapeHtmlIsEscapeChars(s: string)
    ensures EscapeHtml(s) == EscapeChars(s)
  {
    var a := ReplaceAll(s, "&", "&amp;");
    var b := ReplaceAll(a, "<", "&lt;");
    ReplaceOneCharIsMapChar(s, '&', "&amp;");
    ReplaceOneCharIsMapChar(a, '<', "&lt;");
    ReplaceOneCharIsMapChar(b, '>', "&gt;");
    assert "&" == ['&'] && "<" == ['<'] && ">" == ['>'];
    Escape3IsEscapeChars(s);
  }

  /** The inverse of the escape: entity references back to characters. */
  function UnescapeHtml(s: string): string
    decreases |s|
  {
    if s == [] then []
    else if StartsWith(s, "&amp;") then "&" + UnescapeHtml(s[5..])
    else if StartsWith(s, "&lt;") then "<" + UnescapeHtml(s[4..])
    else if StartsWith(s, "&gt;") then ">" + UnescapeHtml(s[4..])
    else [s[0]] + UnescapeHtml(s[1..])
  }

  lemma {:induction false} UnescapeEscapeChars(s: string)
    ensures UnescapeHtml(EscapeChars(s)) == s
    decreases |s|
  {
    if s != [] {
      UnescapeEscapeChars(s[1..]);
      UnescapeEscapeChar(s[0], EscapeChars(s[1..]));
      assert [s[0]] + s[1..] == s;
    }
  }

  /** Unescaping reads one escaped character back and goes on with the rest. */
  lemma UnescapeEscapeChar(c: char, t: string)
    ensures UnescapeHtml(EscapeChar(c) + t) == [c] + UnescapeHtml(t)
  {
    if c == '&' {
      UnescapeAmp(t);
    } else if c == '<' {
      UnescapeLt(t);
    } else if c == '>' {
      UnescapeGt(t);
    } else {
      UnescapePlain(c, t);
    }
  }

  lemma UnescapeAmp(t: string)
    ensures UnescapeHtml("&amp;" + t) == "&" + UnescapeHtml(t)
  {
    var e := "&amp;" + t;
    assert e[..5] == "&amp;" && e[5..] == t;
  }

  lemma UnescapeLt(t: string)
    ensures UnescapeHtml("&lt;" + t) == "<" + UnescapeHtml(t)
  {
    var e := "&lt;" + t;
    assert !StartsWith(e, "&amp;") by { assert e[1] == 'l' && "&amp;"[1] == 'a'; }
    assert e[..4] == "&lt;" && e[4..] == t;
  }

  lemma UnescapeGt(t: string)
    ensures UnescapeHtml("&gt;" + t) == ">" + UnescapeHtml(t)
  {
    var e := "&gt;" + t;
    assert !StartsWith(e, "&amp;") by { assert e[1] == 'g' && "&amp;"[1] == 'a'; }
    assert !StartsWith(e, "&lt;") by { assert e[1] == 'g' && "&lt;"[1] == 'l'; }
    assert e[..4] == "&gt;" && e[4..] == t;
  }

  lemma UnescapePlain(c: char, t: string)
    requires c != '&'
    ensures UnescapeHtml([c] + t) == [c] + UnescapeHtml(t)
  {
    var e := [c] + t;
    assert !StartsWith(e, "&amp;") && !StartsWith(e, "&lt;") && !StartsWith(e, "&gt;") by {
      assert e[0] == c;
    }
    assert e[1..] == t;
  }

  /** Escaping loses nothing: unescaping gives the text back. */
  lemma EscapeHtmlRoundTrip(s: string)
    ensures UnescapeHtml(EscapeHtml(s)) == s
  {
    EscapeHtmlIsEscapeChars(s);
    UnescapeEscapeChars(s);
  }

  lemma {:induction false} EscapeCharsHasNoTags(s: string)
    ensures forall i :: 0 <= i < |EscapeChars(s)| ==> EscapeChars(s)[i] != '<' && EscapeChars(s)[i] != '>'
    decreases |s|
  {
    if s != [] {
      EscapeCharsHasNoTags(s[1..]);
      var a := EscapeChar(s[0]);
      var b := EscapeChars(s[1..]);
      assert forall i :: 0 <= i < |a + b| ==> (a + b)[i] == if i < |a| then a[i] else b[i - |a|];
    }
  }

  /** An escaped string cannot open or close a tag. */
  lemma EscapeHtmlHasNoTags(s: string)
    ensures '<' !in EscapeHtml(s) && '>' !in EscapeHtml(s)
  {
    EscapeHtmlIsEscapeChars(s);
    EscapeCharsHasNoTags(s);
  }
}
