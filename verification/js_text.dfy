/** The JavaScript string and value semantics the handlers rely on: truthiness,
    template-literal rendering, `String.prototype.trim`, `String.prototype.split`
    with a one-character separator, and the decimal literals `Number()` accepts. */
module JsText {

  /** A JSON value as a handler reads it from a request body or a row.  A missing
      key and `null` both read as Undefined; numbers are integers in this model. */
  datatype Value = Undefined | Str(s: string) | Num(n: int)

  /** JavaScript truthiness: `undefined`, `""` and `0` are falsy. */
  predicate Truthy(v: Value)
  {
    match v
    case Undefined => false
    case Str(s) => s != ""
    case Num(n) => n != 0
  }

  /** `${v}` inside a template literal. */
  function Show(v: Value): string
  {
    match v
    case Undefined => "undefined"
    case Str(s) => s
    case Num(n) => IntToString(n)
  }

  /** `${v || 'N/A'}` inside a template literal. */
  function OrNA(v: Value): string
  {
    if Truthy(v) then Show(v) else "N/A"
  }

  // ----- Digits and integer rendering

  predicate IsDigit(c: char) { '0' <= c <= '9' }

  predicate AllDigits(s: string) { forall i :: 0 <= i < |s| ==> IsDigit(s[i]) }

  function DigitValue(c: char): nat
    requires IsDigit(c)
  {
    c as int - '0' as int
  }

  function DigitChar(d: nat): (c: char)
    requires d < 10
    ensures IsDigit(c) && DigitValue(c) == d
  {
    ('0' as int + d) as char
  }

  /** The number a string of decimal digits denotes ("" denotes 0). */
  function DigitsValue(ds: string): nat
    requires AllDigits(ds)
  {
    if ds == [] then 0 else DigitsValue(ds[..|ds| - 1]) * 10 + DigitValue(ds[|ds| - 1])
  }

  /** Decimal rendering of a natural number; reading it back gives the number. */
  function NatToString(n: nat): (r: string)
    ensures |r| > 0 && AllDigits(r)
    ensures DigitsValue(r) == n
  {
    if n < 10 then [DigitChar(n)]
    else
      var r := NatToString(n / 10) + [DigitChar(n % 10)];
      assert r[..|r| - 1] == NatToString(n / 10);
      r
  }

  function IntToString(i: int): (r: string)
    ensures |r| > 0 && (r[0] == '-' <==> i < 0)
  {
    if i < 0 then "-" + NatToString(-i) else NatToString(i)
  }

  /** `v || 'N/A'` reads "N/A" exactly for the falsy values and for the string
      "N/A" itself; a number, zero apart, never reads "N/A". */
  lemma OrNAFallback(v: Value)
    ensures OrNA(v) == "N/A" <==> !Truthy(v) || v == Str("N/A")
    ensures !Truthy(v) ==> OrNA(v) == "N/A"
    ensures Truthy(v) ==> OrNA(v) == Show(v)
    ensures OrNA(Num(0)) == "N/A" && OrNA(Str("")) == "N/A" && OrNA(Undefined) == "N/A"
  {
    if v.Num? && v.n != 0 {
      var r := IntToString(v.n);
      if v.n >= 0 {
        assert IsDigit(r[0]);
      }
      assert r[0] != 'N';
    }
  }

  // ----- trim()

  /** The whitespace characters of the model.  JavaScript's trim() also removes
      the Unicode space separators, U+00A0, U+FEFF and the line separators. */
  predicate IsSpace(c: char)
  {
    c == ' ' || c == '\t' || c == '\n' || c == '\r' || c == '\U{000B}' || c == '\U{000C}'
  }

  predicate AllSpace(s: string) { forall i :: 0 <= i < |s| ==> IsSpace(s[i]) }

  /** Drops the leading whitespace: the result is the suffix of `s` that follows
      a run of whitespace and does not itself start with whitespace. */
  function TrimStart(s: string): (r: string)
    ensures |r| <= |s| && r == s[|s| - |r|..]
    ensures AllSpace(s[..|s| - |r|])
    ensures r == [] || !IsSpace(r[0])
  {
    if s != [] && IsSpace(s[0]) then
      var t := s[1..];
      var r := TrimStart(t);
      assert t[|t| - |r|..] == s[|s| - |r|..];
      var skipped, skippedRest := s[..|s| - |r|], t[..|t| - |r|];
      forall i | 0 <= i < |skipped|
        ensures IsSpace(skipped[i])
      {
        if i > 0 {
          assert skipped[i] == skippedRest[i - 1];
        }
      }
      r
    else s
  }

  /** Drops the trailing whitespace. */
  function TrimEnd(s: string): (r: string)
    ensures |r| <= |s| && r == s[..|r|]
    ensures AllSpace(s[|r|..])
    ensures r == [] || !IsSpace(r[|r| - 1])
  {
    if s != [] && IsSpace(s[|s| - 1]) then
      var t := s[..|s| - 1];
      var r := TrimEnd(t);
      assert t[..|r|] == s[..|r|];
      var dropped, droppedRest := s[|r|..], t[|r|..];
      forall i | 0 <= i < |dropped|
        ensures IsSpace(dropped[i])
      {
        if i < |droppedRest| {
          assert dropped[i] == droppedRest[i];
        }
      }
      r
    else s
  }

  /** `s.trim()`: empty exactly when `s` is all whitespace, and otherwise neither
      starts nor ends with whitespace. */
  function Trim(s: string): (r: string)
    ensures r == "" <==> AllSpace(s)
    ensures r == "" || (!IsSpace(r[0]) && !IsSpace(r[|r| - 1]))
  {
    TrimBlankIff(s);
    TrimEnd(TrimStart(s))
  }

  lemma TrimBlankIff(s: string)
    ensures TrimEnd(TrimStart(s)) == "" <==> AllSpace(s)
  {
    var t := TrimStart(s);
    if t == [] {
      assert s[..|s|] == s;
    } else {
      assert t[0..] == t;
      assert t[0] == s[|s| - |t|];
    }
  }

  // ----- split(sep)

  /** How many times `c` occurs in `s`. */
  function Count(s: string, c: char): nat
  {
    if s == [] then 0 else (if s[0] == c then 1 else 0) + Count(s[1..], c)
  }

  /** `s.split(sep)`: the pieces between the separators, one more piece than
      there are separators, none containing the separator. */
  function Split(s: string, sep: char): (parts: seq<string>)
    ensures |parts| == Count(s, sep) + 1
    ensures forall i :: 0 <= i < |parts| ==> sep !in parts[i]
  {
    if s == [] then [""]
    else
      var rest := Split(s[1..], sep);
      if s[0] == sep then [""] + rest else [[s[0]] + rest[0]] + rest[1..]
  }

  lemma {:induction false} SplitNoSeparator(s: string, sep: char)
    requires sep !in s
    ensures Split(s, sep) == [s]
  {
    if s != [] {
      SplitNoSeparator(s[1..], sep);
      assert [s[0]] + s[1..] == s;
    }
  }

  /** Splitting at the first separator peels off the text before it. */
  lemma {:induction false} SplitAtFirst(a: string, sep: char, b: string)
    requires sep !in a
    ensures Split(a + [sep] + b, sep) == [a] + Split(b, sep)
  {
    if a == [] {
      assert a + [sep] + b == [sep] + b;
      assert ([sep] + b)[1..] == b;
    } else {
      SplitAtFirst(a[1..], sep, b);
      assert (a + [sep] + b)[1..] == a[1..] + [sep] + b;
      assert [a[0]] + a[1..] == a;
    }
  }

  // ----- Number() on decimal literals

  /** The length of the run of digits at the start of `s`. */
  function LeadingDigits(s: string): (k: nat)
    ensures k <= |s| && AllDigits(s[..k])
    ensures k < |s| ==> !IsDigit(s[k])
  {
    if s != [] && IsDigit(s[0]) then
      var k := 1 + LeadingDigits(s[1..]);
      assert s[..k] == [s[0]] + s[1..][..k - 1];
      k
    else 0
  }

  /** Digits with at most one decimal point and at least one digit:
      "12", "12.50", "12." and ".5" are accepted, "", "." and "1.2.3" are not. */
  predicate IsUnsignedDecimal(b: string)
  {
    var k := LeadingDigits(b);
    (k == |b| && k > 0) || (k < |b| && b[k] == '.' && AllDigits(b[k + 1..]) && |b| > 1)
  }

  /** The literal without its leading sign, if it has one. */
  function Unsigned(s: string): string
  {
    if s != [] && (s[0] == '+' || s[0] == '-') then s[1..] else s
  }

  /** The strings the model lets `Number()` turn into a number (not NaN). */
  predicate IsDecimal(s: string)
  {
    IsUnsignedDecimal(Unsigned(s))
  }

  /** All the digits of an unsigned literal, the point removed. */
  function Mantissa(b: string): (ds: string)
    requires IsUnsignedDecimal(b)
    ensures AllDigits(ds)
  {
    var k := LeadingDigits(b);
    if k == |b| then b else b[..k] + b[k + 1..]
  }

  /** The value of a literal is Numerator(s) / 10^(digits after the point), so
      it has the sign of Numerator(s). */
  function Numerator(s: string): int
    requires IsDecimal(s)
  {
    var m: int := DigitsValue(Mantissa(Unsigned(s)));
    if s != [] && s[0] == '-' then -m else m
  }

  /** `!isNaN(Number(s)) && Number(s) > 0` */
  predicate IsPositiveNumber(s: string)
  {
    IsDecimal(s) && Numerator(s) > 0
  }

  predicate IsNonZeroDigit(c: char) { '1' <= c <= '9' }

  predicate HasNonZeroDigit(s: string)
  {
    exists i :: 0 <= i < |s| && IsNonZeroDigit(s[i])
  }

  lemma NonZeroDigitConcat(x: string, y: string)
    ensures HasNonZeroDigit(x + y) <==> HasNonZeroDigit(x) || HasNonZeroDigit(y)
  {
    if HasNonZeroDigit(x + y) {
      var i :| 0 <= i < |x + y| && IsNonZeroDigit((x + y)[i]);
      if i >= |x| { assert IsNonZeroDigit(y[i - |x|]); }
    }
    if HasNonZeroDigit(x) {
      var i :| 0 <= i < |x| && IsNonZeroDigit(x[i]);
      assert (x + y)[i] == x[i];
    }
    if HasNonZeroDigit(y) {
      var i :| 0 <= i < |y| && IsNonZeroDigit(y[i]);
      assert (x + y)[|x| + i] == y[i];
    }
  }

  /** A digit string denotes a positive number exactly when one of its digits
      is not 0. */
  lemma {:induction false} DigitsValuePositive(ds: string)
    requires AllDigits(ds)
    ensures DigitsValue(ds) > 0 <==> HasNonZeroDigit(ds)
  {
    if ds != [] {
      var p := ds[..|ds| - 1];
      DigitsValuePositive(p);
      assert ds == p + [ds[|ds| - 1]];
      NonZeroDigitConcat(p, [ds[|ds| - 1]]);
    }
  }

  /** A decimal literal is a positive number exactly when it is not negated
      and has a digit other than 0: "0", "-5", "+0.00" are not, "12.50" is. */
  lemma PositiveNumberIff(s: string)
    requires IsDecimal(s)
    ensures IsPositiveNumber(s) <==> s != [] && s[0] != '-' && HasNonZeroDigit(s)
  {
    var b := Unsigned(s);
    var k := LeadingDigits(b);
    DigitsValuePositive(Mantissa(b));
    if k < |b| {
      assert b == b[..k] + [b[k]] + b[k + 1..];
      NonZeroDigitConcat(b[..k], [b[k]]);
      NonZeroDigitConcat(b[..k] + [b[k]], b[k + 1..]);
      NonZeroDigitConcat(b[..k], b[k + 1..]);
    }
    if b != s {
      assert s == [s[0]] + b;
      NonZeroDigitConcat([s[0]], b);
    }
  }
}
