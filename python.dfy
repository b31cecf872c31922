/**
  The part of Python's value space and string library that the record classes rely on:
  dynamically typed values, truthiness, `str()`, `isinstance(v, int)` (true for bools as well),
  `str.split`, `str.strip`, `str.join`, `str.lower`/`str.upper` and `int()` on strings.

  Restrictions, stated once here:
  - whitespace is the set `str.isspace` accepts (ASCII whitespace, the four separators U+001C..U+001F
    and the Unicode space characters);
  - case mapping covers Latin A-Z and the basic Cyrillic block (U+0400..U+044F, U+0450..U+045F);
  - `int()` accepts surrounding whitespace, one optional sign and one or more ASCII digits, and no
    underscores or non-ASCII digits.
 */
module Python {
  import opened Wrappers

  /** A Python value as far as the record constructors can see it. */
  datatype Value = PStr(s: string) | PBool(b: bool) | PInt(i: int) | PNone

  /** `bool(v)` */
  predicate Truthy(v: Value) {
    match v
    case PStr(s) => s != ""
    case PBool(b) => b
    case PInt(i) => i != 0
    case PNone => false
  }

  /** `isinstance(v, int)`: `bool` is a subclass of `int`. */
  predicate IsInt(v: Value) {
    v.PInt? || v.PBool?
  }

  /** The integer a value of class `int` (or `bool`) stands for. */
  function IntOf(v: Value): (n: int)
    requires IsInt(v)
    ensures v.PBool? ==> (n == 1 <==> v.b) && (n == 0 <==> !v.b)
  {
    match v
    case PInt(i) => i
    case PBool(b) => if b then 1 else 0
  }

  /** `str(v)`, which is also what an f-string inserts. */
  function Str(v: Value): string {
    match v
    case PStr(s) => s
    case PBool(b) => if b then "True" else "False"
    case PInt(i) => IntToString(i)
    case PNone => "None"
  }

  // ---------------------------------------------------------------- characters

  predicate IsDigit(c: char) {
    '0' <= c <= '9'
  }

  /** `str.isspace`, which is also what `strip()` and `\s` treat as whitespace. */
  predicate IsSpace(c: char) {
    || c == ' ' || '\t' <= c <= '\r' || '\U{001C}' <= c <= '\U{001F}' || c == '\U{0085}' || c == '\U{00A0}'
    || c == '\U{1680}' || '\U{2000}' <= c <= '\U{200A}' || c == '\U{2028}' || c == '\U{2029}'
    || c == '\U{202F}' || c == '\U{205F}' || c == '\U{3000}'
  }

  predicate IsUpperLetter(c: char) {
    'A' <= c <= 'Z' || '\U{0400}' <= c <= '\U{042F}'
  }

  predicate IsLowerLetter(c: char) {
    'a' <= c <= 'z' || '\U{0430}' <= c <= '\U{045F}'
  }

  function LowerChar(c: char): (r: char)
    ensures !IsUpperLetter(c) ==> r == c
    ensures IsUpperLetter(c) ==> IsLowerLetter(r)
  {
    if 'A' <= c <= 'Z' || '\U{0410}' <= c <= '\U{042F}' then (c as int + 32) as char
    else if '\U{0400}' <= c <= '\U{040F}' then (c as int + 80) as char
    else c
  }

  function UpperChar(c: char): (r: char)
    ensures !IsLowerLetter(c) ==> r == c
    ensures IsLowerLetter(c) ==> IsUpperLetter(r) && LowerChar(r) == c
  {
    if 'a' <= c <= 'z' || '\U{0430}' <= c <= '\U{044F}' then (c as int - 32) as char
    else if '\U{0450}' <= c <= '\U{045F}' then (c as int - 80) as char
    else c
  }

  /** `s.lower()` */
  function Lower(s: string): (r: string)
    ensures |r| == |s|
    ensures forall i :: 0 <= i < |s| ==> r[i] == LowerChar(s[i])
  {
    seq(|s|, i requires 0 <= i < |s| => LowerChar(s[i]))
  }

  /** `s.upper()` */
  function Upper(s: string): (r: string)
    ensures |r| == |s|
    ensures forall i :: 0 <= i < |s| ==> r[i] == UpperChar(s[i])
  {
    seq(|s|, i requires 0 <= i < |s| => UpperChar(s[i]))
  }

  /** Lowering twice is lowering once. */
  lemma LowerIdempotent(s: string)
    ensures Lower(Lower(s)) == Lower(s)
  {
    forall i | 0 <= i < |s| ensures Lower(Lower(s))[i] == Lower(s)[i] {
      var c := s[i];
      if IsUpperLetter(c) {
        assert IsLowerLetter(LowerChar(c));
      }
    }
  }

  /** Upper-casing first does not change what lowering yields: `s.upper().lower() == s.lower()`. */
  lemma LowerOfUpper(s: string)
    ensures Lower(Upper(s)) == Lower(s)
  {
    forall i | 0 <= i < |s| ensures Lower(Upper(s))[i] == Lower(s)[i] {
      var c := s[i];
      if IsLowerLetter(c) {
        assert LowerChar(UpperChar(c)) == c;
        assert !IsUpperLetter(c);
      }
    }
  }

  /** Lower-casing first does not change what upper-casing yields: `s.lower().upper() == s.upper()`. */
  lemma UpperOfLower(s: string)
    ensures Upper(Lower(s)) == Upper(s)
  {
    forall i | 0 <= i < |s| ensures Upper(Lower(s))[i] == Upper(s)[i] {
      var c := s[i];
      if IsUpperLetter(c) {
        var l := LowerChar(c);
        assert IsLowerLetter(l);
        assert UpperChar(l) == c;
        assert !IsLowerLetter(c);
      }
    }
  }

  // ------------------------------------------------------------ split and join

  /** `sep.join(parts)` for a one-character separator. */
  function Join(sep: char, parts: seq<string>): string
    decreases |parts|
  {
    if |parts| == 0 then ""
    else if |parts| == 1 then parts[0]
    else parts[0] + [sep] + Join(sep, parts[1..])
  }

  /** `s.split(sep)`: always at least one piece, and no piece holds the separator. */
  function Split(s: string, sep: char): (r: seq<string>)
    ensures |r| >= 1
    ensures forall k :: 0 <= k < |r| ==> sep !in r[k]
    decreases |s|
  {
    if s == [] then [""]
    else
      var rest := Split(s[1..], sep);
      if s[0] == sep then [""] + rest
      else [[s[0]] + rest[0]] + rest[1..]
  }

  /** Number of occurrences of `c` in `s`. */
  function Count(s: string, c: char): nat {
    if s == [] then 0 else (if s[0] == c then 1 else 0) + Count(s[1..], c)
  }

  /** Joining the pieces of a split with the same separator gives the string back. */
  lemma {:induction false} JoinSplit(s: string, sep: char)
    ensures Join(sep, Split(s, sep)) == s
    decreases |s|
  {
    if s != [] {
      var rest := Split(s[1..], sep);
      JoinSplit(s[1..], sep);
      if s[0] == sep {
        assert Split(s, sep) == [""] + rest;
        assert ([""] + rest)[1..] == rest;
      } else {
        var parts := [[s[0]] + rest[0]] + rest[1..];
        assert Split(s, sep) == parts;
        if |rest| == 1 {
          assert Join(sep, parts) == [s[0]] + rest[0];
        } else {
          assert parts[1..] == rest[1..];
          assert Join(sep, parts) == [s[0]] + rest[0] + [sep] + Join(sep, rest[1..]);
        }
      }
    }
  }

  /** A split has one piece more than the string has separators. */
  lemma {:induction false} SplitCount(s: string, sep: char)
    ensures |Split(s, sep)| == Count(s, sep) + 1
    decreases |s|
  {
    if s != [] {
      SplitCount(s[1..], sep);
    }
  }

  /** `"\n".join(parts)`, the line joiner of the record renderings. */
  function JoinLines(parts: seq<string>): string {
    Join('\n', parts)
  }

  /** Joining a joined prefix again is joining the whole: `"\n".join(["\n".join(a)] + b) == "\n".join(a + b)`. */
  lemma {:induction false} JoinNested(a: seq<string>, b: seq<string>)
    requires |a| >= 1
    ensures Join('\n', [Join('\n', a)] + b) == Join('\n', a + b)
    decreases |a|
  {
    if |a| == 1 {
      assert a + b == [a[0]] + b;
    } else {
      JoinNested(a[1..], b);
      if b == [] {
        assert a + b == a;
        assert [Join('\n', a)] + b == [Join('\n', a)];
      } else {
        assert ([Join('\n', a)] + b)[1..] == b;
        assert (a + b)[1..] == a[1..] + b;
        assert ([Join('\n', a[1..])] + b)[1..] == b;
      }
    }
  }

  /** A join begins with its first part. */
  lemma JoinStartsWithFirst(sep: char, parts: seq<string>)
    requires |parts| >= 1
    ensures parts[0] <= Join(sep, parts)
  {
    if |parts| > 1 {
      assert Join(sep, parts) == parts[0] + ([sep] + Join(sep, parts[1..]));
    }
  }

  /** Joining a single part gives that part. */
  lemma JoinSingle(sep: char, x: string)
    ensures Join(sep, [x]) == x
  {
  }

  /** `"".join(parts)`, the joiner of the split modules' renderings. */
  function Concat(parts: seq<string>): string
    decreases |parts|
  {
    if parts == [] then "" else parts[0] + Concat(parts[1..])
  }

  /** Concatenating two lists of parts is concatenating their joins. */
  lemma {:induction false} ConcatAppend(a: seq<string>, b: seq<string>)
    ensures Concat(a + b) == Concat(a) + Concat(b)
    decreases |a|
  {
    if a == [] {
      assert a + b == b;
    } else {
      assert (a + b)[1..] == a[1..] + b;
      ConcatAppend(a[1..], b);
    }
  }

  /** A separator at the end of the text adds exactly one empty piece: `(t + sep).split(sep) == t.split(sep) + [""]`. */
  lemma {:induction false} SplitAppendSeparator(t: string, sep: char)
    ensures Split(t + [sep], sep) == Split(t, sep) + [""]
    decreases |t|
  {
    if t == [] {
      assert Split([sep][1..], sep) == [""];
    } else {
      assert (t + [sep])[1..] == t[1..] + [sep];
      SplitAppendSeparator(t[1..], sep);
    }
  }

  /** `filter(None, parts)` on strings: the empty strings are dropped, the rest keep their order. */
  function DropEmpty(parts: seq<string>): (r: seq<string>)
    ensures |r| <= |parts|
    ensures forall k :: 0 <= k < |r| ==> r[k] != ""
    ensures forall x :: x in parts && x != "" ==> x in r
    ensures forall x :: x in r ==> x in parts
  {
    if parts == [] then []
    else (if parts[0] == "" then [] else [parts[0]]) + DropEmpty(parts[1..])
  }

  /** Filtering distributes over concatenation, so the order of the kept entries is preserved. */
  lemma {:induction false} DropEmptyAppend(a: seq<string>, b: seq<string>)
    ensures DropEmpty(a + b) == DropEmpty(a) + DropEmpty(b)
    decreases |a|
  {
    if a != [] {
      assert (a + b)[0] == a[0];
      assert (a + b)[1..] == a[1..] + b;
      DropEmptyAppend(a[1..], b);
      var head := if a[0] == "" then [] else [a[0]];
      assert DropEmpty(a + b) == head + DropEmpty(a[1..] + b);
      assert DropEmpty(a) == head + DropEmpty(a[1..]);
    } else {
      assert a + b == b;
    }
  }

  // --------------------------------------------------------------------- strip

  /** Leading whitespace removed. */
  function TrimStart(s: string): string
    decreases |s|
  {
    if s != [] && IsSpace(s[0]) then TrimStart(s[1..]) else s
  }

  /** Trailing whitespace removed. */
  function TrimEnd(s: string): string
    decreases |s|
  {
    if s != [] && IsSpace(s[|s| - 1]) then TrimEnd(s[..|s| - 1]) else s
  }

  /** `s.strip()` */
  function Strip(s: string): string {
    TrimEnd(TrimStart(s))
  }

  /** `lstrip` removes a run of whitespace from the front, and what remains does not start with whitespace. */
  lemma {:induction false} TrimStartSlice(s: string)
    ensures var r := TrimStart(s);
      && |r| <= |s| && r == s[|s| - |r|..]
      && (forall k :: 0 <= k < |s| - |r| ==> IsSpace(s[k]))
      && (r == [] || !IsSpace(r[0]))
    decreases |s|
  {
    if s != [] && IsSpace(s[0]) {
      TrimStartSlice(s[1..]);
    }
  }

  /** `rstrip` removes a run of whitespace from the back, and what remains does not end with whitespace. */
  lemma {:induction false} TrimEndSlice(s: string)
    ensures var r := TrimEnd(s);
      && |r| <= |s| && r == s[..|r|]
      && (forall k :: |r| <= k < |s| ==> IsSpace(s[k]))
      && (r == [] || !IsSpace(r[|r| - 1]))
    decreases |s|
  {
    if s != [] && IsSpace(s[|s| - 1]) {
      TrimEndSlice(s[..|s| - 1]);
    }
  }

  /** Neither end of a stripped string is whitespace. */
  lemma StripEnds(s: string)
    ensures Strip(s) == [] || (!IsSpace(Strip(s)[0]) && !IsSpace(Strip(s)[|Strip(s)| - 1]))
  {
    var t := TrimStart(s);
    TrimStartSlice(s);
    TrimEndSlice(t);
    if Strip(s) != [] {
      assert Strip(s)[0] == t[0];
    }
  }

  /** What `strip` removes is whitespace only: the result is the slice of `s` between two whitespace runs. */
  lemma StripIsSlice(s: string)
    ensures var lo := |s| - |TrimStart(s)|;
      && 0 <= lo && lo + |Strip(s)| <= |s| && Strip(s) == s[lo..lo + |Strip(s)|]
      && (forall k :: 0 <= k < lo ==> IsSpace(s[k]))
      && (forall k :: lo + |Strip(s)| <= k < |s| ==> IsSpace(s[k]))
  {
    var t := TrimStart(s);
    var lo := |s| - |t|;
    TrimStartSlice(s);
    TrimEndSlice(t);
    assert t == s[lo..];
    assert Strip(s) == t[..|Strip(s)|];
    forall k | lo + |Strip(s)| <= k < |s|
      ensures IsSpace(s[k])
    {
      assert s[k] == t[k - lo];
    }
  }

  /** A string without whitespace at either end strips to itself. */
  lemma StripNoSpace(s: string)
    requires s == [] || (!IsSpace(s[0]) && !IsSpace(s[|s| - 1]))
    ensures Strip(s) == s
  {
    assert TrimStart(s) == s;
    assert TrimEnd(s) == s;
  }

  /** Stripping twice is stripping once. */
  lemma StripIdempotent(s: string)
    ensures Strip(Strip(s)) == Strip(s)
  {
    StripEnds(s);
    StripNoSpace(Strip(s));
  }

  // ------------------------------------------------------- integers and text

  function DigitChar(d: nat): (c: char)
    requires d < 10
    ensures IsDigit(c)
  {
    ('0' as int + d) as char
  }

  function DigitValue(c: char): (d: nat)
    requires IsDigit(c)
    ensures d < 10 && DigitChar(d) == c
  {
    c as int - '0' as int
  }

  predicate AllDigits(s: string) {
    forall k :: 0 <= k < |s| ==> IsDigit(s[k])
  }

  /** The number a run of decimal digits denotes. */
  function DigitsValue(s: string): nat
    requires AllDigits(s)
  {
    if s == [] then 0 else DigitsValue(s[..|s| - 1]) * 10 + DigitValue(s[|s| - 1])
  }

  /** Decimal digits of a natural number, most significant first, without leading zeros. */
  function NatToString(n: nat): (r: string)
    ensures |r| >= 1 && AllDigits(r)
    ensures r[0] == '0' ==> n == 0
  {
    if n < 10 then [DigitChar(n)] else NatToString(n / 10) + [DigitChar(n % 10)]
  }

  /** `str(n)` for an `int`. */
  function IntToString(n: int): (r: string)
    ensures |r| >= 1
  {
    if n < 0 then "-" + NatToString(-n) else NatToString(n)
  }

  /** Reading the digits of `n` back gives `n`. */
  lemma {:induction false} DigitsOfNat(n: nat)
    ensures DigitsValue(NatToString(n)) == n
  {
    if n >= 10 {
      var r := NatToString(n);
      DigitsOfNat(n / 10);
      assert r[..|r| - 1] == NatToString(n / 10);
    }
  }

  /** An unsigned run of one or more digits. */
  function ParseUnsigned(s: string): (r: Option<nat>)
    ensures r.Some? <==> s != [] && AllDigits(s)
  {
    if s != [] && AllDigits(s) then Some(DigitsValue(s)) else None
  }

  /** `int(s)` on a string, returning None where Python raises `ValueError`. */
  function ParseInt(s: string): (r: Option<int>)
  {
    var t := Strip(s);
    if t != [] && t[0] == '-' then
      match ParseUnsigned(t[1..])
      case Some(n) => Some(-(n as int))
      case None => None
    else if t != [] && t[0] == '+' then
      match ParseUnsigned(t[1..])
      case Some(n) => Some(n)
      case None => None
    else
      match ParseUnsigned(t)
      case Some(n) => Some(n)
      case None => None
  }

  /** A bare run of digits parses to the number it denotes. */
  lemma ParseIntDigits(ds: string)
    requires ds != [] && AllDigits(ds)
    ensures ParseInt(ds) == Some(DigitsValue(ds) as int)
  {
    assert !IsSpace(ds[0]) && !IsSpace(ds[|ds| - 1]);
    StripNoSpace(ds);
  }

  /** A minus sign followed by a run of digits parses to the negated number. */
  lemma ParseIntNegative(ds: string)
    requires ds != [] && AllDigits(ds)
    ensures ParseInt("-" + ds) == Some(-(DigitsValue(ds) as int))
  {
    var r := "-" + ds;
    assert r[|r| - 1] == ds[|ds| - 1];
    StripNoSpace(r);
    assert r[0] == '-' && r[1..] == ds;
    assert ParseUnsigned(ds) == Some(DigitsValue(ds));
  }

  /** `int(str(n)) == n` */
  lemma ParseIntToString(n: int)
    ensures ParseInt(IntToString(n)) == Some(n)
  {
    if n < 0 {
      ParseNegatedNat(-n);
    } else {
      ParseNat(n);
    }
  }

  lemma ParseNat(n: nat)
    ensures ParseInt(NatToString(n)) == Some(n)
  {
    ParseIntDigits(NatToString(n));
    DigitsOfNat(n);
  }

  lemma ParseNegatedNat(n: nat)
    ensures ParseInt("-" + NatToString(n)) == Some(-(n as int))
  {
    ParseIntNegative(NatToString(n));
    DigitsOfNat(n);
  }

  /** A string that is not an optionally signed run of digits, once stripped, does not parse. */
  lemma ParseIntRejectsLetters(s: string)
    requires exists k :: 0 <= k < |Strip(s)| && !IsDigit(Strip(s)[k]) && (k > 0 || (Strip(s)[0] != '-' && Strip(s)[0] != '+'))
    ensures ParseInt(s) == None
  {
    var t := Strip(s);
    var k :| 0 <= k < |t| && !IsDigit(t[k]) && (k > 0 || (t[0] != '-' && t[0] != '+'));
    if t[0] == '-' || t[0] == '+' {
      assert !IsDigit(t[1..][k - 1]);
    }
  }
}
