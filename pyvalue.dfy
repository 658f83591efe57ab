/** Python values as the job pipeline meets them (parsed JSON and the dicts the
    code builds), Python exceptions, and the built-ins the code applies to
    values: `dict.get`, truthiness, `or`, `str()`, `int()`, `str.join` and
    iteration. */
module PyValue {
  import opened Wrappers
  import opened Text
  import Json

  /** A dict is its entries in insertion order. Python keeps its keys
      distinct; lookup takes the first entry with the key. */
  datatype Value =
    | NoneV
    | BoolV(b: bool)
    | IntV(i: int)
    | StrV(s: string)
    | ListV(items: seq<Value>)
    | DictV(entries: seq<(string, Value)>)

  type Dict = seq<(string, Value)>

  /** A raised exception; `msg` is what `str(exc)` gives. */
  datatype Exc =
    | TypeError(msg: string)
    | ValueError(msg: string)
    | AttributeError(msg: string)
    | OverflowError(msg: string)
    | OSError(msg: string)
    | DataError(msg: string)  // the Redis client refusing a value it cannot encode
    | Raised(msg: string)     // an exception out of a foreign call (HTTP, Apify, e-mail, PDF)

  // ---------------------------------------------------------------------------
  // dict

  function Lookup(d: Dict, key: string): (r: Option<Value>)
    ensures r.Some? <==> key in Keys(d)
    decreases |d|
  {
    if d == [] then None
    else if d[0].0 == key then Some(d[0].1)
    else
      assert Keys(d) == [d[0].0] + Keys(d[1..]);
      Lookup(d[1..], key)
  }

  /** `list(d.keys())`. */
  function Keys(d: Dict): (ks: seq<string>)
    ensures |ks| == |d| && forall i :: 0 <= i < |d| ==> ks[i] == d[i].0
  {
    seq(|d|, i requires 0 <= i < |d| => d[i].0)
  }

  /** `d.get(key, default)`; `d.get(key)` is `Get(d, key, NoneV)`. */
  function Get(d: Dict, key: string, default: Value): (v: Value)
    ensures key !in Keys(d) ==> v == default
  {
    Lookup(d, key).GetOr(default)
  }

  /** Looking a key up finds its first entry. */
  lemma {:induction false} GetAt(d: Dict, i: nat, default: Value)
    requires i < |d| && forall j :: 0 <= j < i ==> d[j].0 != d[i].0
    ensures Get(d, d[i].0, default) == d[i].1
    decreases i
  {
    if i > 0 {
      GetAt(d[1..], i - 1, default);
    }
  }

  // ---------------------------------------------------------------------------
  // Truthiness and `or`

  predicate Truthy(v: Value) {
    match v
    case NoneV => false
    case BoolV(b) => b
    case IntV(i) => i != 0
    case StrV(s) => s != ""
    case ListV(items) => items != []
    case DictV(entries) => entries != []
  }

  /** Python's `a or b`. */
  function Or(a: Value, b: Value): (r: Value)
    ensures Truthy(a) ==> r == a
    ensures !Truthy(a) ==> r == b
  {
    if Truthy(a) then a else b
  }

  // ---------------------------------------------------------------------------
  // str() and repr()

  function TypeName(v: Value): string {
    match v
    case NoneV => "NoneType"
    case BoolV(_) => "bool"
    case IntV(_) => "int"
    case StrV(_) => "str"
    case ListV(_) => "list"
    case DictV(_) => "dict"
  }

  /** `str(v)` when `quoted` is false, `repr(v)` when it is true. */
  function Render(v: Value, quoted: bool): string
    decreases v
  {
    match v
    case NoneV => "None"
    case BoolV(b) => if b then "True" else "False"
    case IntV(i) => IntToString(i)
    case StrV(s) => if quoted then ReprStr(s) else s
    case ListV(items) =>
      "[" + Join(seq(|items|, k requires 0 <= k < |items| => Render(items[k], true)), ", ") + "]"
    case DictV(entries) =>
      "{" + Join(seq(|entries|, k requires 0 <= k < |entries| =>
                     var e := entries[k];
                     assert e in entries;
                     ReprStr(e.0) + ": " + Render(e.1, true)), ", ") + "}"
  }

  /** `repr(s)` for a string: single quotes, or double quotes when `s` holds a
      single quote and no double quote; the chosen quote and `\` escaped by a
      backslash, and characters that are not printable escaped. */
  function ReprStr(s: string): string {
    var q := if Holds(s, '\'') && !Holds(s, '"') then '"' else '\'';
    [q] + ReprChars(s, q) + [q]
  }

  /** `c in s`, found by scanning `s` from the front. */
  predicate Holds(s: string, c: char)
    decreases |s|
  {
    s != [] && (s[0] == c || Holds(s[1..], c))
  }

  lemma {:induction false} HoldsIsIn(s: string, c: char)
    ensures Holds(s, c) <==> c in s
    decreases |s|
  {
    if s != [] {
      HoldsIsIn(s[1..], c);
      assert s == [s[0]] + s[1..];
    }
  }

  function ReprChars(s: string, q: char): string
    decreases |s|
  {
    if s == [] then "" else ReprChar(s[0], q) + ReprChars(s[1..], q)
  }

  /** Characters `str.isprintable` rejects, as far as they are modelled: the
      C0 and C1 controls, DEL, the no-break space, the soft hyphen, and the
      space, line and paragraph separators above U+00FF. */
  predicate IsUnprintable(c: char) {
    c < ' ' || ('\U{7F}' <= c <= '\U{A0}') || c == '\U{AD}'
    || c == '\U{1680}' || ('\U{2000}' <= c <= '\U{200A}') || c == '\U{2028}' || c == '\U{2029}'
    || c == '\U{202F}' || c == '\U{205F}' || c == '\U{3000}'
  }

  /** One character of `repr(s)` inside quote `q`. */
  function ReprChar(c: char, q: char): string {
    if c == q || c == '\\' then ['\\', c]
    else if c == '\t' then "\\t"
    else if c == '\n' then "\\n"
    else if c == '\r' then "\\r"
    else if IsUnprintable(c) && c as int < 0x100 then "\\x" + HexDigits(c as int, 2)
    else if IsUnprintable(c) then "\\u" + HexDigits(c as int, 4)
    else [c]
  }

  /** The last `width` lower-case hex digits of `n`. */
  function HexDigits(n: nat, width: nat): (r: string)
    ensures |r| == width
  {
    if width == 0 then "" else HexDigits(n / 16, width - 1) + [Json.HexDigit(n % 16)]
  }

  /** Printable text without the quote and without backslashes is written as is. */
  lemma {:induction false} ReprCharsPlain(s: string, q: char)
    requires forall i :: 0 <= i < |s| ==> !IsUnprintable(s[i]) && s[i] != q && s[i] != '\\'
    ensures ReprChars(s, q) == s
    decreases |s|
  {
    if s != [] {
      ReprCharsPlain(s[1..], q);
      assert s == [s[0]] + s[1..];
    }
  }

  /** `repr` of printable text without backslashes: single-quoted unless the
      text holds a single quote and no double quote, then double-quoted, and
      the text itself unchanged between the quotes. */
  lemma ReprStrOfPlainText(s: string)
    requires forall i :: 0 <= i < |s| ==> !IsUnprintable(s[i]) && s[i] != '\\'
    ensures '\'' !in s ==> ReprStr(s) == "'" + s + "'"
    ensures '\'' in s && '"' !in s ==> ReprStr(s) == "\"" + s + "\""
  {
    HoldsIsIn(s, '\'');
    HoldsIsIn(s, '"');
    if '\'' !in s {
      ReprCharsPlain(s, '\'');
    } else if '"' !in s {
      ReprCharsPlain(s, '"');
    }
  }

  /** `str(v)`, which is also what an f-string inserts. */
  function Format(v: Value): string {
    Render(v, false)
  }

  // ---------------------------------------------------------------------------
  // str.join over a value

  function AsStrings(items: seq<Value>, offset: nat): (r: Result<seq<string>, Exc>)
    ensures r.Ok? <==> forall i :: 0 <= i < |items| ==> items[i].StrV?
    ensures r.Ok? ==> |r.value| == |items| && forall i :: 0 <= i < |items| ==> r.value[i] == items[i].s
    ensures r.Err? ==> r.error.TypeError?
    decreases |items|
  {
    if items == [] then Ok([])
    else if !items[0].StrV? then
      Err(TypeError("sequence item " + NatToString(offset) + ": expected str instance, "
                    + TypeName(items[0]) + " found"))
    else
      match AsStrings(items[1..], offset + 1)
      case Err(e) => Err(e)
      case Ok(rest) => Ok([items[0].s] + rest)
  }

  /** `sep.join(v)`: a list joins its items (all must be strings), a string its
      characters, a dict its keys; anything else is not iterable. */
  function JoinValue(sep: string, v: Value): (r: Result<string, Exc>)
    ensures v == ListV([]) ==> r == Ok("")
    ensures v.StrV? || v.DictV? ==> r.Ok?
    ensures r.Err? ==> r.error.TypeError?
  {
    match v
    case ListV(items) =>
      var strs :- AsStrings(items, 0);
      Ok(Join(strs, sep))
    case StrV(s) => Ok(Join(seq(|s|, k requires 0 <= k < |s| => [s[k]]), sep))
    case DictV(entries) => Ok(Join(Keys(entries), sep))
    case _ => Err(TypeError("can only join an iterable"))
  }

  /** A list joins exactly when every item is a string, and then it joins
      their texts. */
  lemma JoinValueOfList(sep: string, v: Value)
    requires v.ListV?
    ensures JoinValue(sep, v).Ok? <==> forall i :: 0 <= i < |v.items| ==> v.items[i].StrV?
    ensures JoinValue(sep, v).Ok? ==> JoinValue(sep, v).value == Join(AsStrings(v.items, 0).value, sep)
  {
  }

  // ---------------------------------------------------------------------------
  // int()

  /** `int(s)` for a str, in base 10, as CPython 3.12 reads it: the text is
      first turned into ASCII, then read as a C string up to its first NUL. A
      numeral followed by a NUL, or any malformed text, is an invalid literal,
      named by its repr cut to 200 characters; a well-formed numeral of more
      than 4300 digits exceeds the conversion limit. */
  function ParseIntLiteral(s: string): (r: Result<int, Exc>)
    ensures r.Err? ==> r.error.ValueError?
  {
    var a := AsciiNumeral(s);
    var c := BeforeNul(a);
    match ScanInt(c)
    case Overlong(count) => Err(ValueError(DigitLimitMessage(count)))
    case Parsed(v) => if |c| == |a| then Ok(v) else Err(InvalidLiteral(s))
    case Invalid => Err(InvalidLiteral(s))
  }

  const InvalidLiteralHead: string := "invalid literal for int() with base 10: "
  const IntArgumentHead: string := "int() argument must be a string, a bytes-like object or a real number, not '"

  function InvalidLiteral(s: string): Exc {
    var repr := ReprStr(s);
    ValueError(InvalidLiteralHead + if |repr| <= 200 then repr else repr[..200])
  }

  const LimitHead: string := "Exceeds the limit (4300 digits) for integer string conversion: value has "
  const LimitTail: string := " digits; use sys.set_int_max_str_digits() to increase the limit"

  function DigitLimitMessage(count: nat): string {
    LimitHead + NatToString(count) + LimitTail
  }

  /** Python's `int(v)`. */
  function ToInt(v: Value): (r: Result<int, Exc>)
    ensures v.IntV? ==> r == Ok(v.i)
    ensures v.StrV? ==> r == ParseIntLiteral(v.s)
    ensures v.NoneV? || v.ListV? || v.DictV? ==> r.Err? && r.error.TypeError?
  {
    match v
    case IntV(i) => Ok(i)
    case BoolV(b) => Ok(if b then 1 else 0)
    case StrV(s) => ParseIntLiteral(s)
    case _ => Err(TypeError(IntArgumentHead
                            + TypeName(v) + "'"))
  }

  /** A sign before digits with single underscores between them reads as
      the value of the digits, negated after '-', unless there are more than
      4300 of them. */
  lemma ParseIntOfNumeral(t: string, sign: string, body: string, digits: string)
    requires sign == "" || sign == "-" || sign == "+"
    requires Underscored(body) && t == sign + body && digits == KeepDigits(body)
    ensures ParseIntLiteral(t)
      == if |digits| > MaxStrDigits then Err(ValueError(DigitLimitMessage(|digits|)))
         else Ok(if sign == "-" then -(DigitsValue(digits) as int) else DigitsValue(digits))
  {
    NumeralIsAscii(sign, body);
    ScanSignedValue(sign, body);
    ParseIntOfAscii(t);
  }

  /** A signed numeral is ASCII text without NUL. */
  lemma NumeralIsAscii(sign: string, body: string)
    requires sign == "" || sign == "-" || sign == "+"
    requires Underscored(body)
    ensures forall i :: 0 <= i < |sign + body| ==> (sign + body)[i] < '\U{7F}' && (sign + body)[i] != '\0'
  {
    var a := sign + body;
    UnderscoredChars(body);
    assert forall i :: |sign| <= i < |a| ==> a[i] == body[i - |sign|];
  }

  /** ASCII text without NUL is read by the scan alone. */
  lemma ParseIntOfAscii(a: string)
    requires forall i :: 0 <= i < |a| ==> a[i] < '\U{7F}' && a[i] != '\0'
    ensures ScanInt(a).Overlong? ==> ParseIntLiteral(a) == Err(ValueError(DigitLimitMessage(ScanInt(a).count)))
    ensures ScanInt(a).Parsed? ==> ParseIntLiteral(a) == Ok(ScanInt(a).value)
  {
    AsciiNumeralOfAscii(a);
    BeforeNulOfNulFree(a);
    ParseIntThroughAscii(a, a);
  }

  /** Text whose ASCII form `c` has no NUL is read by the scan of `c`. */
  lemma ParseIntThroughAscii(s: string, c: string)
    requires AsciiNumeral(s) == c && BeforeNul(c) == c
    ensures ScanInt(c).Overlong? ==> ParseIntLiteral(s) == Err(ValueError(DigitLimitMessage(ScanInt(c).count)))
    ensures ScanInt(c).Parsed? ==> ParseIntLiteral(s) == Ok(ScanInt(c).value)
  {
  }

  /** Text made of ASCII digits reads as their value: the empty text is an
      invalid literal and more than 4300 digits exceed the limit. */
  lemma ParseIntOfDigits(digits: string)
    requires AllDigits(digits)
    ensures ParseIntLiteral(digits)
      == if digits == [] then Err(ValueError("invalid literal for int() with base 10: ''"))
         else if |digits| > MaxStrDigits then Err(ValueError(DigitLimitMessage(|digits|)))
         else Ok(DigitsValue(digits))
  {
    if digits == [] {
      ParseIntOfEmpty();
    } else {
      AsciiNumeralOfAscii(digits);
      ParseIntOfAsciiDigits(digits, digits);
    }
  }

  lemma ParseIntOfEmpty()
    ensures ParseIntLiteral("") == Err(ValueError("invalid literal for int() with base 10: ''"))
  {
    assert AsciiNumeral("") == "" && BeforeNul("") == "";
    assert TrimAsciiRight(TrimAsciiLeft("")) == "";
    assert !Underscored("");
    assert ScanInt("") == Invalid;
    assert ReprStr("") == "''";
    assert InvalidLiteral("") == ValueError("invalid literal for int() with base 10: ''");
  }

  /** `int(str(i)) == i` for every integer whose decimal form is within the
      4300-digit limit; beyond it the conversion is refused. */
  lemma ParseIntOfIntToString(i: int)
    ensures var digits := NatToString(if i < 0 then -i else i);
      ToInt(StrV(IntToString(i)))
        == if |digits| > MaxStrDigits then Err(ValueError(DigitLimitMessage(|digits|))) else Ok(i)
  {
    var n: nat := if i < 0 then -i else i;
    DigitsValueOfNatToString(n);
    if i < 0 {
      ParseIntOfSignedDigits(IntToString(i), "-", NatToString(n));
    } else {
      ParseIntOfSignedDigits(IntToString(i), "", NatToString(n));
    }
  }

  /** A sign before plain digits reads as their value, negated after '-',
      unless there are more than 4300 of them. */
  lemma ParseIntOfSignedDigits(t: string, sign: string, digits: string)
    requires sign == "" || sign == "-" || sign == "+"
    requires digits != [] && AllDigits(digits) && t == sign + digits
    ensures ParseIntLiteral(t)
      == if |digits| > MaxStrDigits then Err(ValueError(DigitLimitMessage(|digits|)))
         else Ok(if sign == "-" then -(DigitsValue(digits) as int) else DigitsValue(digits))
  {
    UnderscoredOfDigits(digits);
    KeepDigitsOfDigits(digits);
    ParseIntOfNumeral(t, sign, digits, digits);
  }

  /** An underscore between two digit groups changes nothing:
      `int("1_000") == int("1000")`. */
  lemma ParseIntIgnoresUnderscore(a: string, b: string)
    requires Underscored(a) && Underscored(b)
    ensures ParseIntLiteral(a + "_" + b) == ParseIntLiteral(a + b)
  {
    UnderscoreKeepsDigits(a, b);
    ParseIntOfUnsigned(a + "_" + b);
    ParseIntOfUnsigned(a + b);
  }

  /** An unsigned underscored numeral reads as the value of its digits. */
  lemma ParseIntOfUnsigned(t: string)
    requires Underscored(t)
    ensures var digits := KeepDigits(t);
      ParseIntLiteral(t)
        == if |digits| > MaxStrDigits then Err(ValueError(DigitLimitMessage(|digits|))) else Ok(DigitsValue(digits) as int)
  {
    assert t == "" + t;
    ParseIntOfNumeral(t, "", t, KeepDigits(t));
  }

  /** Decimal digits of other scripts read as the ASCII digits they stand
      for: `int("\u0661\u0667\u0660\u0660") == 1700`. */
  lemma ParseIntOfOtherDigits(s: string)
    requires forall i :: 0 <= i < |s| ==> '\U{7F}' <= s[i] && !IsSpace(s[i]) && DecimalDigit(s[i] as int) >= 0
    ensures |AsciiNumeral(s)| == |s| && AllDigits(AsciiNumeral(s))
    ensures forall i :: 0 <= i < |s| ==> AsciiNumeral(s)[i] == DigitChar(DecimalDigit(s[i] as int))
    ensures ParseIntLiteral(s)
      == if s == [] then Err(ValueError("invalid literal for int() with base 10: ''"))
         else if |s| > MaxStrDigits then Err(ValueError(DigitLimitMessage(|s|)))
         else Ok(DigitsValue(AsciiNumeral(s)) as int)
  {
    AsciiNumeralOfDecimals(s);
    if s == [] {
      ParseIntOfEmpty();
    } else {
      ParseIntOfAsciiDigits(s, AsciiNumeral(s));
    }
  }

  /** Text whose ASCII form is plain digits reads as their value. */
  lemma ParseIntOfAsciiDigits(s: string, c: string)
    requires AsciiNumeral(s) == c && c != [] && AllDigits(c)
    ensures ParseIntLiteral(s)
      == if |c| > MaxStrDigits then Err(ValueError(DigitLimitMessage(|c|))) else Ok(DigitsValue(c) as int)
  {
    AsciiNumeralOfAscii(c);
    BeforeNulOfNulFree(c);
    ScanOfDigits(c);
    ParseIntThroughAscii(s, c);
  }

  /** The Arabic-Indic digits U+0660..U+0669 stand for 0..9. */
  lemma ArabicIndicDigit(k: nat)
    requires k < 10
    ensures DecimalDigit(0x0660 + k) == k
  {
  }

  // ---------------------------------------------------------------------------
  // Iteration and attribute access

  /** What `for x in v` yields: list items, the characters of a string, the
      keys of a dict; anything else is not iterable. */
  function Iterate(v: Value): (r: Result<seq<Value>, Exc>)
    ensures v.ListV? ==> r == Ok(v.items)
  {
    match v
    case ListV(items) => Ok(items)
    case StrV(s) => Ok(seq(|s|, k requires 0 <= k < |s| => StrV([s[k]])))
    case DictV(entries) => Ok(seq(|entries|, k requires 0 <= k < |entries| => StrV(entries[k].0)))
    case _ => Err(TypeError("'" + TypeName(v) + "' object is not iterable"))
  }

  /** The receiver of `v.get(...)`: only a dict has `get`. */
  function AsDict(v: Value): (r: Result<Dict, Exc>)
    ensures r.Ok? <==> v.DictV?
    ensures v.DictV? ==> r.value == v.entries
  {
    if v.DictV? then Ok(v.entries)
    else Err(AttributeError("'" + TypeName(v) + "' object has no attribute 'get'"))
  }
}
