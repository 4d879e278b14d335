/**
  The slice of JavaScript semantics that the order bot's core leans on:
  truthiness of request fields, `String.prototype.trim`, `toLowerCase`,
  `split` on a one-character separator, `Array.prototype.join`, `String(n)`
  for integers and the global `parseInt` with no radix argument.
 */
module JsText {

  datatype Option<+T> = None | Some(value: T)

  datatype Result<+T, +E> = Success(value: T) | Failure(error: E)

  /**
    The JavaScript values that reach the core from request bodies and
    session stores. Objects are flat records of string fields (the only
    objects the core builds or inspects are `{ state: "..." }` sessions
    and KYC forms). Numbers are modelled as the integers they hold;
    fractional numbers are not modelled.
   */
  datatype JsValue =
    | JsUndefined
    | JsNull
    | JsBool(b: bool)
    | JsNumber(n: int)
    | JsString(s: string)
    | JsObject(fields: map<string, JsValue>)

  /** JavaScript's ToBoolean. */
  predicate Truthy(v: JsValue) {
    match v
    case JsUndefined => false
    case JsNull => false
    case JsBool(b) => b
    case JsNumber(n) => n != 0
    case JsString(s) => s != ""
    case JsObject(_) => true
  }

  /** `obj.name` on a record: an absent field reads as `undefined`. */
  function Field(fields: map<string, JsValue>, name: string): JsValue {
    if name in fields then fields[name] else JsUndefined
  }

  /** WhiteSpace and LineTerminator code points of ECMAScript (what `trim` and `parseInt` skip). */
  predicate IsWhitespace(c: char) {
    || c == ' ' || c == '\t' || c == '\n' || c == '\r'
    || c == '\U{000B}' || c == '\U{000C}' || c == '\U{00A0}' || c == '\U{1680}'
    || ('\U{2000}' <= c <= '\U{200A}')
    || c == '\U{2028}' || c == '\U{2029}' || c == '\U{202F}' || c == '\U{205F}'
    || c == '\U{3000}' || c == '\U{FEFF}'
  }

  /** `v || null`. */
  function OrNull(v: JsValue): (r: JsValue)
    ensures Truthy(v) ==> r == v
    ensures !Truthy(v) ==> r == JsNull
  {
    if Truthy(v) then v else JsNull
  }

  /** Drops leading whitespace: the result is the suffix of `s` that starts at its first non-blank. */
  function TrimStart(s: string): (r: string)
    ensures |r| <= |s|
    ensures forall i :: 0 <= i < |s| - |r| ==> IsWhitespace(s[i])
    ensures r == [] || !IsWhitespace(r[0])
  {
    if s != [] && IsWhitespace(s[0]) then TrimStart(s[1..]) else s
  }

  /** What `TrimStart` keeps is a suffix of its input. */
  lemma {:induction false} TrimStartSuffix(s: string)
    ensures TrimStart(s) == s[|s| - |TrimStart(s)|..]
  {
    if s != [] && IsWhitespace(s[0]) {
      TrimStartSuffix(s[1..]);
    }
  }

  /** Drops trailing whitespace: the result is the prefix of `s` that ends at its last non-blank. */
  function TrimEnd(s: string): (r: string)
    ensures |r| <= |s|
    ensures forall i :: |r| <= i < |s| ==> IsWhitespace(s[i])
    ensures r == [] || !IsWhitespace(r[|r| - 1])
  {
    if s != [] && IsWhitespace(s[|s| - 1]) then TrimEnd(s[..|s| - 1]) else s
  }

  /** What `TrimEnd` keeps is a prefix of its input. */
  lemma {:induction false} TrimEndPrefix(s: string)
    ensures TrimEnd(s) == s[..|TrimEnd(s)|]
  {
    if s != [] && IsWhitespace(s[|s| - 1]) {
      TrimEndPrefix(s[..|s| - 1]);
    }
  }

  /** `s.trim()`: the slice of `s` left once its leading and trailing whitespace is dropped (see `TrimIsSlice`). */
  function Trim(s: string): (r: string)
    ensures |r| <= |s|
    ensures r == [] || (!IsWhitespace(r[0]) && !IsWhitespace(r[|r| - 1]))
  {
    TrimEndPrefix(TrimStart(s));
    TrimEnd(TrimStart(s))
  }

  /** What `trim` keeps is a slice of its input, and everything it drops around that slice is whitespace. */
  lemma TrimIsSlice(s: string)
    ensures exists i, j :: 0 <= i <= j <= |s| && Trim(s) == s[i..j]
                           && (forall k :: 0 <= k < i ==> IsWhitespace(s[k]))
                           && (forall k :: j <= k < |s| ==> IsWhitespace(s[k]))
  {
    var t := TrimStart(s);
    TrimStartSuffix(s);
    TrimEndPrefix(t);
    var i := |s| - |t|;
    var j := i + |TrimEnd(t)|;
    assert Trim(s) == s[i..j];
    assert forall k :: j <= k < |s| ==> s[k] == t[k - i];
  }


  /** A string that neither starts nor ends with whitespace is its own trim. */
  lemma TrimOfTrimmed(s: string)
    requires s == [] || (!IsWhitespace(s[0]) && !IsWhitespace(s[|s| - 1]))
    ensures Trim(s) == s
  {
  }

  /** A string made only of whitespace trims to the empty string. */
  lemma {:induction false} TrimOfBlank(s: string)
    requires forall i :: 0 <= i < |s| ==> IsWhitespace(s[i])
    ensures Trim(s) == ""
  {
    TrimStartSuffix(s);
  }

  function LowerChar(c: char): (d: char)
    ensures 'A' <= c <= 'Z' ==> 'a' <= d <= 'z'
    ensures !('A' <= c <= 'Z') ==> d == c
  {
    if 'A' <= c <= 'Z' then (c as int + 32) as char else c
  }

  /** `s.toLowerCase()` on the ASCII range. */
  function ToLower(s: string): (r: string)
    ensures |r| == |s|
    ensures forall i :: 0 <= i < |s| ==> r[i] == LowerChar(s[i])
  {
    seq(|s|, i requires 0 <= i < |s| => LowerChar(s[i]))
  }

  /** Lower-casing twice is lower-casing once. */
  lemma ToLowerIdempotent(s: string)
    ensures ToLower(ToLower(s)) == ToLower(s)
  {
    assert forall i :: 0 <= i < |s| ==> LowerChar(LowerChar(s[i])) == LowerChar(s[i]);
  }

  /** Text without upper-case ASCII letters is its own lower-case form. */
  lemma ToLowerOfLower(s: string)
    requires forall i :: 0 <= i < |s| ==> !('A' <= s[i] <= 'Z')
    ensures ToLower(s) == s
  {
  }

  /** `s.split(sep)` for a one-character separator: every separator ends one part. */
  function Split(s: string, sep: char): (parts: seq<string>)
    ensures |parts| >= 1
    ensures forall i :: 0 <= i < |parts| ==> sep !in parts[i]
    ensures |parts| == 1 <==> sep !in s
  {
    if s == [] then [""]
    else
      var rest := Split(s[1..], sep);
      if s[0] == sep then [""] + rest
      else [[s[0]] + rest[0]] + rest[1..]
  }

  /** `parts.join(sep)` */
  function Join(parts: seq<string>, sep: string): string {
    if |parts| == 0 then ""
    else if |parts| == 1 then parts[0]
    else parts[0] + sep + Join(parts[1..], sep)
  }

  /** Joining the parts of a split with the same separator gives back the original string. */
  lemma {:induction false} JoinSplit(s: string, sep: char)
    ensures Join(Split(s, sep), [sep]) == s
  {
    if s != [] {
      var rest := Split(s[1..], sep);
      JoinSplit(s[1..], sep);
      if s[0] == sep {
        JoinAfterEmpty(rest, [sep]);
      } else {
        JoinExtendFirst(s[0], rest, [sep]);
      }
    }
  }

  /** An empty first part contributes only the separator. */
  lemma JoinAfterEmpty(parts: seq<string>, sep: string)
    requires parts != []
    ensures Join([""] + parts, sep) == sep + Join(parts, sep)
  {
    assert ([""] + parts)[1..] == parts;
  }

  /** A character put in front of the first part comes out in front of the join. */
  lemma JoinExtendFirst(c: char, parts: seq<string>, sep: string)
    requires parts != []
    ensures Join([[c] + parts[0]] + parts[1..], sep) == [c] + Join(parts, sep)
  {
    var ext := [[c] + parts[0]] + parts[1..];
    if |parts| > 1 {
      assert ext[1..] == parts[1..];
      calc {
        Join(ext, sep);
        ([c] + parts[0]) + sep + Join(parts[1..], sep);
        [c] + (parts[0] + sep + Join(parts[1..], sep));
      }
    }
  }

  /**
    The first part of a split is the text before the first separator, and
    re-joining the remaining parts gives exactly the text after it.
   */
  lemma SplitFirst(s: string, sep: char)
    ensures var parts := Split(s, sep);
            if |parts| == 1 then parts[0] == s
            else s == parts[0] + [sep] + Join(parts[1..], [sep])
  {
    JoinSplit(s, sep);
  }

  /** Text without the separator splits into itself alone. */
  lemma SplitNoSeparator(s: string, sep: char)
    requires sep !in s
    ensures Split(s, sep) == [s]
  {
    JoinSplit(s, sep);
  }

  /** Text before the first separator is the first part; the rest splits on its own. */
  lemma {:induction false} SplitAfterFirst(a: string, sep: char, b: string)
    requires sep !in a
    ensures Split(a + [sep] + b, sep) == [a] + Split(b, sep)
    decreases |a|
  {
    var s := a + [sep] + b;
    if a == [] {
      assert s == [sep] + b && s[1..] == b;
    } else {
      assert s[0] == a[0] && s[1..] == a[1..] + [sep] + b;
      SplitAfterFirst(a[1..], sep, b);
      assert [a[0]] + a[1..] == a;
    }
  }

  function DigitChar(d: nat): (c: char)
    requires d < 10
    ensures '0' <= c <= '9'
  {
    ('0' as int + d) as char
  }

  /** The decimal numeral of a natural number, without leading zeros. */
  function NatToString(n: nat): (r: string)
    ensures |r| >= 1
    ensures forall i :: 0 <= i < |r| ==> '0' <= r[i] <= '9'
  {
    if n < 10 then [DigitChar(n)] else NatToString(n / 10) + [DigitChar(n % 10)]
  }

  /** The decimal numeral of an integer, as a customer types it: a '-' when negative, then its digits. */
  function IntToString(n: int): string {
    if n < 0 then "-" + NatToString(-n) else NatToString(n)
  }

  /** 10^21: from this magnitude on, `String(n)` switches to exponent notation. */
  const ExponentThreshold: int := 1_000_000_000_000_000_000_000

  /** The first decimal digit of `n`. */
  function LeadingDigit(n: nat): (d: nat)
    ensures d < 10 && (n > 0 ==> d > 0)
  {
    if n < 10 then n else LeadingDigit(n / 10)
  }

  function Pow10(k: nat): (p: nat)
    ensures p >= 1
  {
    if k == 0 then 1 else 10 * Pow10(k - 1)
  }

  /** 10^21 is `Pow10(21)`, unfolded one power at a time. */
  lemma Pow10OfThreshold()
    ensures Pow10(21) == ExponentThreshold && Pow10(20) == ExponentThreshold / 10
  {
    assert Pow10(1) == 10;
    assert Pow10(2) == 100;
    assert Pow10(3) == 1000;
    assert Pow10(4) == 10000;
    assert Pow10(5) == 100000;
    assert Pow10(6) == 1000000;
    assert Pow10(7) == 10000000;
    assert Pow10(8) == 100000000;
    assert Pow10(9) == 1000000000;
    assert Pow10(10) == 10000000000;
    assert Pow10(11) == 100000000000;
    assert Pow10(12) == 1000000000000;
    assert Pow10(13) == 10000000000000;
    assert Pow10(14) == 100000000000000;
    assert Pow10(15) == 1000000000000000;
    assert Pow10(16) == 10000000000000000;
    assert Pow10(17) == 100000000000000000;
    assert Pow10(18) == 1000000000000000000;
    assert Pow10(19) == 10000000000000000000;
    assert Pow10(20) == 100000000000000000000;
    assert Pow10(21) == 1000000000000000000000;
  }

  /** Appending zeros to a numeral does not change its leading digit. */
  lemma {:induction false} LeadingDigitOfShifted(x: nat, k: nat)
    requires x >= 1
    ensures LeadingDigit(x * Pow10(k)) == LeadingDigit(x)
  {
    if k > 0 {
      LeadingDigitOfShifted(x, k - 1);
      var y := x * Pow10(k - 1);
      assert x * Pow10(k) == y * 10;
      assert (y * 10) / 10 == y;
    }
  }

  /** The numeral of `n` starts with the digit `LeadingDigit(n)`. */
  lemma {:induction false} NatToStringStartsWithLeadingDigit(n: nat)
    ensures NatToString(n)[0] == DigitChar(LeadingDigit(n))
  {
    if n >= 10 {
      NatToStringStartsWithLeadingDigit(n / 10);
    }
  }

  /** `s` without its trailing '0' characters. */
  function DropTrailingZeros(s: string): (r: string)
    ensures |r| <= |s| && r == s[..|r|]
    ensures r == [] || r[|r| - 1] != '0'
  {
    if s != [] && s[|s| - 1] == '0' then DropTrailingZeros(s[..|s| - 1]) else s
  }

  /**
    Number::toString of an integer of magnitude 10^21 or more: a '-' when
    it is negative, the leading digit, then '.' and the remaining
    significant digits when there are any, then "e+" and the exponent
    ("1e+21", "-1.5e+21").
   */
  function ExponentForm(m: nat, negative: bool): string {
    var digits := NatToString(m);
    var fraction := DropTrailingZeros(digits[1..]);
    (if negative then "-" else "") + [digits[0]] + (if fraction == [] then "" else "." + fraction)
    + "e+" + NatToString(|digits| - 1)
  }

  /** `String(n)` for a number holding the integer `n`: its numeral below 10^21 in magnitude, exponent notation from there on. */
  function NumberToString(n: int): string {
    if -ExponentThreshold < n < ExponentThreshold then IntToString(n)
    else ExponentForm(Magnitude(n), n < 0)
  }

  /** The absolute value of `n`. */
  function Magnitude(n: int): nat {
    if n < 0 then -n else n
  }

  /** The value of `c` as a digit, or 36 when it is not a digit in any radix up to 36. */
  function DigitValue(c: char): (v: nat)
    ensures v <= 36
  {
    if '0' <= c <= '9' then c as int - '0' as int
    else if 'a' <= c <= 'z' then c as int - 'a' as int + 10
    else if 'A' <= c <= 'Z' then c as int - 'A' as int + 10
    else 36
  }

  predicate IsDigitIn(c: char, radix: nat) {
    DigitValue(c) < radix
  }

  /** The length of the longest prefix of `s` made of digits of `radix`. */
  function LeadingDigits(s: string, radix: nat): (k: nat)
    ensures k <= |s|
    ensures forall i :: 0 <= i < k ==> IsDigitIn(s[i], radix)
    ensures k == |s| || !IsDigitIn(s[k], radix)
  {
    if s != [] && IsDigitIn(s[0], radix) then 1 + LeadingDigits(s[1..], radix) else 0
  }

  /** The number written by the digit string `ds` in `radix`. */
  function DigitsValue(ds: string, radix: nat): (v: int)
    ensures v >= 0
  {
    if ds == [] then 0 else DigitsValue(ds[..|ds| - 1], radix) * radix + DigitValue(ds[|ds| - 1])
  }

  /**
    The unsigned part of `parseInt`: a "0x"/"0X" prefix selects radix 16,
    otherwise radix 10, and the longest digit prefix is read. `None` when
    there is no digit at all.
   */
  function ParseUnsigned(u: string): Option<int> {
    if |u| >= 2 && u[0] == '0' && (u[1] == 'x' || u[1] == 'X') then ParseDigits(u[2..], 16)
    else ParseDigits(u, 10)
  }

  /** The longest prefix of `v` made of digits of `radix`, read in that radix; `None` when it is empty. */
  function ParseDigits(v: string, radix: nat): Option<int> {
    var k := LeadingDigits(v, radix);
    if k == 0 then None else Some(DigitsValue(v[..k], radix))
  }

  /**
    The global `parseInt(s)` with no radix: skip leading whitespace, take an
    optional sign, then read the unsigned part. `None` stands for NaN.
   */
  function ParseInt(s: string): (r: Option<int>)
    ensures r.Some? ==> DropSign(TrimStart(s)) != [] && IsDigitIn(DropSign(TrimStart(s))[0], 10)
    ensures r.Some? && r.value < 0 ==> IsNegative(TrimStart(s))
    ensures r.Some? && r.value > 0 ==> !IsNegative(TrimStart(s))
  {
    var t := TrimStart(s);
    var magnitude := ParseUnsigned(DropSign(t));
    if magnitude.None? then None
    else if IsNegative(t) then Some(-(magnitude.value as int))
    else Some(magnitude.value as int)
  }

  predicate IsNegative(t: string) {
    t != [] && t[0] == '-'
  }

  /** The text after an optional leading '+' or '-'. */
  function DropSign(t: string): string {
    if t != [] && (t[0] == '-' || t[0] == '+') then t[1..] else t
  }

  lemma {:induction false} DigitsValueOfNatToString(n: nat)
    ensures forall i :: 0 <= i < |NatToString(n)| ==> IsDigitIn(NatToString(n)[i], 10)
    ensures DigitsValue(NatToString(n), 10) == n
  {
    var s := NatToString(n);
    if n >= 10 {
      DigitsValueOfNatToString(n / 10);
      assert s[..|s| - 1] == NatToString(n / 10);
    }
  }

  /** A non-empty string of decimal digits reads as its decimal value. */
  lemma ParseUnsignedOfDecimal(d: string)
    requires d != []
    requires forall i :: 0 <= i < |d| ==> '0' <= d[i] <= '9'
    ensures ParseUnsigned(d) == Some(DigitsValue(d, 10))
  {
    assert !(|d| >= 2 && d[1] == 'x');
    assert !(|d| >= 2 && d[1] == 'X');
    var k := LeadingDigits(d, 10);
    if k < |d| {
      assert IsDigitIn(d[k], 10);
    }
    assert d[..k] == d;
  }

  /** `parseInt` of text that starts with a minus sign is the negated unsigned reading of the rest. */
  lemma ParseIntOfMinus(s: string)
    requires s != [] && s[0] == '-'
    ensures ParseInt(s) == if ParseUnsigned(s[1..]).None? then None
                           else Some(-(ParseUnsigned(s[1..]).value as int))
  {
    assert TrimStart(s) == s;
    assert DropSign(s) == s[1..];
    assert IsNegative(s);
    var m := ParseUnsigned(s[1..]);
    if m.Some? {
      assert ParseInt(s) == Some(-(m.value as int));
    }
  }

  /** `parseInt` of text that starts with neither blank, sign nor decimal digit is NaN. */
  lemma ParseIntOfNonNumeric(s: string)
    requires s != [] && !IsWhitespace(s[0]) && s[0] != '-' && s[0] != '+' && !('0' <= s[0] <= '9')
    ensures ParseInt(s) == None
  {
    assert TrimStart(s) == s;
    assert DropSign(s) == s;
    assert LeadingDigits(s, 10) == 0;
  }

  /** `parseInt` of text that starts with a decimal digit is its unsigned reading. */
  lemma ParseIntOfDigitFirst(s: string)
    requires s != [] && '0' <= s[0] <= '9'
    ensures ParseInt(s) == if ParseUnsigned(s).None? then None
                           else Some(ParseUnsigned(s).value as int)
  {
    assert TrimStart(s) == s;
    assert DropSign(s) == s;
  }

  /** Reading back the numeral of an integer gives the integer. */
  lemma ParseIntOfIntToString(n: int)
    ensures ParseInt(IntToString(n)) == Some(n)
  {
    var m: nat := if n < 0 then -n else n;
    var digits := NatToString(m);
    DigitsValueOfNatToString(m);
    ParseUnsignedOfDecimal(digits);
    var s := IntToString(n);
    if n < 0 {
      assert s[1..] == digits;
      ParseIntOfMinus(s);
    } else {
      ParseIntOfDigitFirst(s);
    }
  }
  /** Text that starts with the non-zero digit `d` followed by a non-digit reads, unsigned, as `d`. */
  lemma ParseUnsignedOfOneDigit(s: string, d: nat)
    requires 1 <= d <= 9 && |s| >= 2 && s[0] == DigitChar(d) && !IsDigitIn(s[1], 10)
    ensures ParseUnsigned(s) == Some(d as int)
  {
    assert LeadingDigits(s, 10) == 1 by {
      assert IsDigitIn(s[0], 10);
      assert LeadingDigits(s[1..], 10) == 0;
    }
    assert s[..1][..0] == [];
    assert DigitsValue(s[..1], 10) == d;
    assert ParseUnsigned(s) == ParseDigits(s, 10);
  }

  /** At position `k` of `e` stands the digit `d`, followed by '.' or 'e'. */
  predicate SignedDigitShape(e: string, k: nat, d: nat) {
    d < 10 && |e| >= k + 2 && e[k] == DigitChar(d) && (e[k + 1] == '.' || e[k + 1] == 'e')
  }

  /** The exponent form: its sign, then the leading digit, followed by '.' or 'e'. */
  lemma ExponentFormShape(m: nat, negative: bool)
    requires m >= 10
    ensures negative ==> SignedDigitShape(ExponentForm(m, negative), 1, LeadingDigit(m)) && ExponentForm(m, negative)[0] == '-'
    ensures !negative ==> SignedDigitShape(ExponentForm(m, negative), 0, LeadingDigit(m))
  {
    NatToStringStartsWithLeadingDigit(m);
  }

  /** `parseInt` of the exponent form is its leading digit, with its sign. */
  lemma ParseIntOfExponentForm(m: nat, negative: bool, d: nat)
    requires m >= 10 && d == LeadingDigit(m)
    ensures ParseInt(ExponentForm(m, negative)) == Some(if negative then -(d as int) else d as int)
  {
    ExponentFormShape(m, negative);
    ParseIntOfSignedDigit(ExponentForm(m, negative), d, negative);
  }

  /** Text made of an optional '-', a digit other than 0, then a '.' or an 'e', reads as that digit with its sign. */
  lemma ParseIntOfSignedDigit(e: string, d: nat, negative: bool)
    requires 1 <= d <= 9
    requires negative ==> SignedDigitShape(e, 1, d) && e[0] == '-'
    requires !negative ==> SignedDigitShape(e, 0, d)
    ensures ParseInt(e) == Some(if negative then -(d as int) else d as int)
  {
    if negative {
      ParseUnsignedOfOneDigit(e[1..], d);
      ParseIntOfMinus(e);
    } else {
      ParseUnsignedOfOneDigit(e, d);
      ParseIntOfDigitFirst(e);
    }
  }

  /**
    `parseInt(String(n))`: `n` itself below 10^21 in magnitude; from there
    on only the leading digit of the exponent form, with its sign.
   */
  lemma ParseIntOfNumberToString(n: int)
    ensures ParseInt(NumberToString(n)) == Some(if -ExponentThreshold < n < ExponentThreshold then n
                                               else if n < 0 then -(LeadingDigit(Magnitude(n)) as int)
                                               else LeadingDigit(Magnitude(n)) as int)
  {
    if -ExponentThreshold < n < ExponentThreshold {
      ParseIntOfIntToString(n);
    } else {
      ParseIntOfExponentForm(Magnitude(n), n < 0, LeadingDigit(Magnitude(n)));
    }
  }

  /**
    The `forEach`-and-`push` pattern: apply `f` to every element in order
    and keep the values it produces.
   */
  function FilterMap<A, B>(xs: seq<A>, f: A -> Option<B>): (r: seq<B>)
    ensures |r| <= |xs|
    decreases |xs|
  {
    if xs == [] then []
    else (match f(xs[0]) case None => [] case Some(y) => [y]) + FilterMap(xs[1..], f)
  }

  /** `FilterMap` distributes over concatenation. */
  lemma {:induction false} FilterMapAppend<A, B>(xs: seq<A>, ys: seq<A>, f: A -> Option<B>)
    ensures FilterMap(xs + ys, f) == FilterMap(xs, f) + FilterMap(ys, f)
    decreases |xs|
  {
    if xs != [] {
      var head := match f(xs[0]) case None => [] case Some(y) => [y];
      assert (xs + ys)[0] == xs[0];
      assert (xs + ys)[1..] == xs[1..] + ys;
      assert FilterMap(xs + ys, f) == head + FilterMap(xs[1..] + ys, f);
      FilterMapAppend(xs[1..], ys, f);
      assert FilterMap(xs, f) == head + FilterMap(xs[1..], f);
    } else {
      assert xs + ys == ys;
    }
  }

  /** Extending the input by one element extends the output by what `f` keeps of it. */
  lemma FilterMapStep<A, B>(xs: seq<A>, i: nat, f: A -> Option<B>)
    requires i < |xs|
    ensures f(xs[i]).None? ==> FilterMap(xs[..i + 1], f) == FilterMap(xs[..i], f)
    ensures f(xs[i]).Some? ==> FilterMap(xs[..i + 1], f) == FilterMap(xs[..i], f) + [f(xs[i]).value]
    ensures f(xs[i]).Some? ==> |FilterMap(xs[..i], f)| < |FilterMap(xs, f)|
                               && FilterMap(xs, f)[|FilterMap(xs[..i], f)|] == f(xs[i]).value
  {
    assert xs[..i + 1] == xs[..i] + [xs[i]];
    FilterMapAppend(xs[..i], [xs[i]], f);
    assert xs == xs[..i + 1] + xs[i + 1..];
    FilterMapAppend(xs[..i + 1], xs[i + 1..], f);
  }

  /** The output for a prefix of the input is a prefix of the output. */
  lemma FilterMapPrefix<A, B>(xs: seq<A>, i: nat, f: A -> Option<B>)
    requires i <= |xs|
    ensures var p := FilterMap(xs[..i], f); |p| <= |FilterMap(xs, f)| && p == FilterMap(xs, f)[..|p|]
  {
    assert xs == xs[..i] + xs[i..];
    FilterMapAppend(xs[..i], xs[i..], f);
  }

  /** The indices of the elements `f` keeps, in increasing order. */
  function Kept<A, B>(xs: seq<A>, f: A -> Option<B>): seq<nat>
    decreases |xs|
  {
    if xs == [] then []
    else (if f(xs[0]).Some? then [0] else []) + Shift(Kept(xs[1..], f))
  }

  function Shift(ks: seq<nat>): (r: seq<nat>)
    ensures |r| == |ks| && forall k :: 0 <= k < |ks| ==> r[k] == ks[k] + 1
  {
    seq(|ks|, k requires 0 <= k < |ks| => ks[k] + 1)
  }

  /** One output per kept index. */
  lemma {:induction false} FilterMapLength<A, B>(xs: seq<A>, f: A -> Option<B>)
    ensures |FilterMap(xs, f)| == |Kept(xs, f)|
    decreases |xs|
  {
    if xs != [] {
      FilterMapLength(xs[1..], f);
    }
  }

  /** The k-th output is what `f` made of the element at the k-th kept index. */
  lemma {:induction false} FilterMapAt<A, B>(xs: seq<A>, f: A -> Option<B>)
    ensures var r, ks := FilterMap(xs, f), Kept(xs, f);
            forall k :: 0 <= k < |ks| && k < |r| ==> ks[k] < |xs| && f(xs[ks[k]]) == Some(r[k])
    decreases |xs|
  {
    if xs != [] {
      FilterMapAt(xs[1..], f);
      FilterMapLength(xs[1..], f);
      var r', ks' := FilterMap(xs[1..], f), Kept(xs[1..], f);
      var r, ks := FilterMap(xs, f), Kept(xs, f);
      if f(xs[0]).Some? {
        assert r == [f(xs[0]).value] + r';
        assert ks == [0] + Shift(ks');
        forall k | 1 <= k < |ks| && k < |r| ensures ks[k] < |xs| && f(xs[ks[k]]) == Some(r[k]) {
          assert ks[k] == ks'[k - 1] + 1 && r[k] == r'[k - 1];
          assert xs[ks[k]] == xs[1..][ks'[k - 1]];
        }
      } else {
        assert r == r' && ks == Shift(ks');
        forall k | 0 <= k < |ks| && k < |r| ensures ks[k] < |xs| && f(xs[ks[k]]) == Some(r[k]) {
          assert xs[ks[k]] == xs[1..][ks'[k]];
        }
      }
    }
  }

  predicate Increasing(ks: seq<nat>) {
    forall k, l :: 0 <= k < l < |ks| ==> ks[k] < ks[l]
  }

  lemma ShiftIncreasing(ks: seq<nat>)
    requires Increasing(ks)
    ensures Increasing(Shift(ks)) && Increasing([0] + Shift(ks))
  {
    var r := [0] + Shift(ks);
    forall k, l | 0 <= k < l < |r| ensures r[k] < r[l] {
      if k > 0 {
        assert r[k] == ks[k - 1] + 1 && r[l] == ks[l - 1] + 1;
      }
    }
  }

  /** Kept indices are strictly increasing, so outputs follow input order. */
  lemma {:induction false} KeptIncreasing<A, B>(xs: seq<A>, f: A -> Option<B>)
    ensures Increasing(Kept(xs, f))
    decreases |xs|
  {
    if xs != [] {
      KeptIncreasing(xs[1..], f);
      ShiftIncreasing(Kept(xs[1..], f));
    }
  }

  /** Every element `f` accepts is kept: nothing is dropped but what `f` rejects. */
  lemma {:induction false} KeptComplete<A, B>(xs: seq<A>, f: A -> Option<B>)
    ensures forall i :: 0 <= i < |xs| && f(xs[i]).Some? ==> i in Kept(xs, f)
    decreases |xs|
  {
    if xs != [] {
      KeptComplete(xs[1..], f);
      var ks' := Kept(xs[1..], f);
      forall i | 0 <= i < |xs| && f(xs[i]).Some? ensures i in Kept(xs, f) {
        if i > 0 {
          assert xs[1..][i - 1] == xs[i];
          var k :| 0 <= k < |ks'| && ks'[k] == i - 1;
          assert Shift(ks')[k] == i;
        }
      }
    }
  }

  /**
    Applies `f` to each element in turn and collects the results, stopping at
    the first failure, which becomes the result.
   */
  function Traverse<A, B, E>(xs: seq<A>, f: A -> Result<B, E>): Result<seq<B>, E> {
    if xs == [] then Success([])
    else
      match Traverse(xs[..|xs| - 1], f)
      case Failure(e) => Failure(e)
      case Success(ys) =>
        match f(xs[|xs| - 1])
        case Failure(e) => Failure(e)
        case Success(y) => Success(ys + [y])
  }

  /** `Traverse` succeeds exactly when `f` succeeds on every element, and then maps `f` over the input. */
  lemma {:induction false} TraverseSuccess<A, B, E>(xs: seq<A>, f: A -> Result<B, E>)
    ensures Traverse(xs, f).Success? <==> forall i :: 0 <= i < |xs| ==> f(xs[i]).Success?
    ensures Traverse(xs, f).Success? ==>
              |Traverse(xs, f).value| == |xs|
              && forall i :: 0 <= i < |xs| ==> Traverse(xs, f).value[i] == f(xs[i]).value
  {
    if xs != [] {
      var init := xs[..|xs| - 1];
      TraverseSuccess(init, f);
      assert forall i :: 0 <= i < |init| ==> init[i] == xs[i];
    }
  }

  /** A failing `Traverse` reports the failure of the first element on which `f` fails. */
  lemma {:induction false} TraverseFailure<A, B, E>(xs: seq<A>, f: A -> Result<B, E>)
    requires Traverse(xs, f).Failure?
    ensures exists i :: 0 <= i < |xs|
              && f(xs[i]) == Failure(Traverse(xs, f).error)
              && forall j :: 0 <= j < i ==> f(xs[j]).Success?
  {
    var init := xs[..|xs| - 1];
    assert forall i :: 0 <= i < |init| ==> init[i] == xs[i];
    if Traverse(init, f).Failure? {
      TraverseFailure(init, f);
    } else {
      TraverseSuccess(init, f);
    }
  }

  /** Once a prefix fails, the whole traversal fails with the same error. */
  lemma {:induction false} TraverseFromPrefix<A, B, E>(xs: seq<A>, n: nat, f: A -> Result<B, E>)
    requires n <= |xs| && Traverse(xs[..n], f).Failure?
    ensures Traverse(xs, f) == Traverse(xs[..n], f)
    decreases |xs| - n
  {
    if n < |xs| {
      assert xs[..n + 1][..n] == xs[..n];
      TraverseFromPrefix(xs, n + 1, f);
    } else {
      assert xs[..n] == xs;
    }
  }
}
