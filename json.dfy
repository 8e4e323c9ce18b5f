/** The JavaScript values a parsed JSON request body can hold, with the
    parts of the language the server code relies on: truthiness, property
    lookup, `typeof`, `.length` and conversion to a string. Numbers are
    integers here. */
module Json {
  import opened JsText

  datatype Json =
    | JUndefined
    | JNull
    | JBool(b: bool)
    | JNum(n: int)
    | JStr(s: string)
    | JArr(items: seq<Json>)
    | JObj(fields: map<string, Json>)

  /** `!!v`. */
  predicate Truthy(v: Json)
  {
    match v
    case JUndefined => false
    case JNull => false
    case JBool(b) => b
    case JNum(n) => n != 0
    case JStr(s) => s != []
    case JArr(_) => true
    case JObj(_) => true
  }

  /** `typeof v === 'object'` (true of null and of arrays). */
  predicate IsObjectType(v: Json)
  {
    v.JNull? || v.JArr? || v.JObj?
  }

  /** `v[key]` for a value known to be an object or an array; a missing
      property reads as undefined. */
  function Get(v: Json, key: string): (r: Json)
    ensures v.JObj? && key in v.fields ==> r == v.fields[key]
    ensures !(v.JObj? && key in v.fields) ==> r == JUndefined
  {
    if v.JObj? && key in v.fields then v.fields[key] else JUndefined
  }

  /** A number as `ToNumber` yields it: NaN, an infinity, or the exact
      value `mantissa / 10^scale`. */
  datatype Numeric = NaN | Infinite(negative: bool) | Decimal(mantissa: int, scale: nat)

  function Pow10(n: nat): (r: nat)
    ensures r >= 1
  {
    if n == 0 then 1 else 10 * Pow10(n - 1)
  }

  function Pow2(n: nat): (r: nat)
    ensures r >= 1
  {
    if n == 0 then 1 else 2 * Pow2(n - 1)
  }

  /** The exponent of the highest power of two not above `n`. */
  function Log2Floor(n: nat): (k: nat)
    requires n >= 1
    ensures Pow2(k) <= n < 2 * Pow2(k)
  {
    if n == 1 then 0 else 1 + Log2Floor(n / 2)
  }

  /** 2^52: integers below it are doubles, spaced at least 2^-1 apart
      from the next double above them. */
  const TwoTo52 := 0x10_0000_0000_0000

  /** A positive integer below 2^52. */
  predicate DoubleBound(bound: int)
  {
    1 <= bound < TwoTo52
  }

  lemma {:induction false} Pow2Monotone(a: nat, b: nat)
    requires a <= b
    ensures Pow2(a) <= Pow2(b)
    decreases b
  {
    if a < b {
      Pow2Monotone(a, b - 1);
    }
  }

  lemma Pow2Of52()
    ensures Pow2(52) == TwoTo52
  {
    assert Pow2(13) == 8192;
    Pow2Sum(13, 13);
    assert Pow2(26) == 67108864;
    Pow2Sum(26, 26);
  }

  /** The exponent of a bound below 2^52 is at most 51. */
  lemma BoundExponent(bound: int)
    requires DoubleBound(bound)
    ensures Log2Floor(bound) <= 51
  {
    var k := Log2Floor(bound);
    Pow2Of52();
    if k >= 52 {
      Pow2Monotone(52, k);
    }
  }

  /** `x > bound` once `x` is rounded to the nearest double, as `Number`
      rounds it. With 2^k <= bound < 2^(k+1), the next double above the
      bound is bound + 2^(k-52). So `x` becomes a double above the bound
      exactly when it lies beyond the midpoint bound + 2^(k-53). At the
      midpoint the tie goes to the bound, whose last significand bit is 0.
      NaN compares false. */
  predicate GreaterThan(x: Numeric, bound: int)
    requires DoubleBound(bound)
  {
    match x
    case NaN => false
    case Infinite(negative) => !negative
    case Decimal(m, scale) =>
      BoundExponent(bound);
      var p := Pow2(53 - Log2Floor(bound));
      m * p > (bound * p + 1) * Pow10(scale)
  }

  /** The value of `c` as a digit: 0 to 9, then letters from 10 on, either
      case; -1 for anything else. */
  function DigitValue(c: char): int
  {
    if '0' <= c <= '9' then c as int - '0' as int
    else if 'a' <= c <= 'z' then c as int - 'a' as int + 10
    else if 'A' <= c <= 'Z' then c as int - 'A' as int + 10
    else -1
  }

  /** Every character of `s` is a digit in `base`. */
  predicate DigitsIn(s: string, base: nat)
  {
    forall k :: 0 <= k < |s| ==> 0 <= DigitValue(s[k]) < base
  }

  /** The value of a string of digits in `base`, most significant first. */
  function DigitsValue(s: string, base: nat): nat
    requires DigitsIn(s, base)
  {
    if s == [] then 0
    else
      var prefix := s[..|s| - 1];
      assert DigitsIn(prefix, base) by {
        forall k | 0 <= k < |prefix| ensures 0 <= DigitValue(prefix[k]) < base {
          assert prefix[k] == s[k];
        }
      }
      DigitsValue(prefix, base) * base + DigitValue(s[|s| - 1])
  }

  /** Number of decimal digits in `s` from position `i` on. */
  function DecimalRun(s: string, i: nat): (n: nat)
    requires i <= |s|
    ensures i + n <= |s|
    ensures DigitsIn(s[i..i + n], 10)
    ensures i + n == |s| || !(0 <= DigitValue(s[i + n]) < 10)
    decreases |s| - i
  {
    if i < |s| && 0 <= DigitValue(s[i]) < 10 then
      var n := DecimalRun(s, i + 1);
      assert s[i..i + 1 + n] == [s[i]] + s[i + 1..i + 1 + n];
      1 + n
    else 0
  }

  /** The exponent part of a decimal literal (`e` or `E`, an optional
      sign, digits), or 0 when there is none; `None` when the text is not
      one. */
  function Exponent(r: string): Option<int>
  {
    if r == [] then Some(0)
    else if r[0] != 'e' && r[0] != 'E' then None
    else
      var rest := r[1..];
      var negative := |rest| > 0 && rest[0] == '-';
      var digits := if |rest| > 0 && (rest[0] == '-' || rest[0] == '+') then rest[1..] else rest;
      if digits != [] && DigitsIn(digits, 10) then
        Some(if negative then -(DigitsValue(digits, 10) as int) else DigitsValue(digits, 10))
      else None
  }

  /** `m * 10^e` as a number. */
  function Scaled(m: int, e: int): Numeric
  {
    if e >= 0 then Decimal(m * Pow10(e), 0) else Decimal(m, -e)
  }

  /** An unsigned decimal literal: `Infinity`, or digits with an optional
      fraction and an optional exponent, with at least one digit before the
      exponent. */
  function UnsignedDecimal(u: string): Numeric
  {
    if u == "Infinity" then Infinite(false)
    else
      var i := DecimalRun(u, 0);
      var hasPoint := i < |u| && u[i] == '.';
      var j := if hasPoint then DecimalRun(u, i + 1) else 0;
      var fractionEnd := if hasPoint then i + 1 + j else i;
      if i + j == 0 then NaN
      else
        var digits := u[..i] + u[fractionEnd - j..fractionEnd];
        assert DigitsIn(digits, 10) by {
          assert u[..i] == u[0..0 + i];
          forall k | 0 <= k < |digits| ensures 0 <= DigitValue(digits[k]) < 10 {
            if k < i { assert digits[k] == u[0..0 + i][k]; }
            else if hasPoint { assert digits[k] == u[i + 1..i + 1 + j][k - i]; }
          }
        }
        match Exponent(u[fractionEnd..])
        case None => NaN
        case Some(e) => Scaled(DigitsValue(digits, 10), e - j)
  }

  function Negated(x: Numeric): Numeric
  {
    match x
    case NaN => NaN
    case Infinite(negative) => Infinite(!negative)
    case Decimal(m, scale) => Decimal(-m, scale)
  }

  /** The base a radix letter after a leading `0` selects: `x` 16, `o` 8,
      `b` 2, either case; 0 for any other character. */
  function RadixOf(c: char): nat
  {
    if c == 'x' || c == 'X' then 16
    else if c == 'o' || c == 'O' then 8
    else if c == 'b' || c == 'B' then 2
    else 0
  }

  /** `Number(s)` for a string: surrounding whitespace is ignored, blank
      text is 0, `0x`, `0o` and `0b` introduce hexadecimal, octal and
      binary integers, and otherwise a signed decimal literal is read; any
      other text is NaN. */
  function StringToNumber(s: string): Numeric
  {
    var t := Trim(s);
    if t == [] then Decimal(0, 0)
    else if |t| > 2 && t[0] == '0' && RadixOf(t[1]) != 0 && DigitsIn(t[2..], RadixOf(t[1])) then
      Decimal(DigitsValue(t[2..], RadixOf(t[1])), 0)
    else if t[0] == '-' then Negated(UnsignedDecimal(t[1..]))
    else if t[0] == '+' then UnsignedDecimal(t[1..])
    else UnsignedDecimal(t)
  }

  /** `Number(v)` for a value that is `Convertible`: objects and arrays are
      first turned into their string form, as `ToPrimitive` does for
      parsed data. */
  function ToNumber(v: Json): Numeric
  {
    match v
    case JUndefined => NaN
    case JNull => Decimal(0, 0)
    case JBool(b) => Decimal(if b then 1 else 0, 0)
    case JNum(n) => Decimal(n, 0)
    case JStr(s) => StringToNumber(s)
    case _ => StringToNumber(ToJsString(v))
  }

  /** The message of the TypeError V8 throws when `ToPrimitive` finds no
      method that yields a primitive. */
  const CannotConvert := "Cannot convert object to primitive value"

  /** `ToPrimitive` succeeds on `v`, and for an array so does the `join`
      it calls on each element. A parsed object converts through
      `Object.prototype.toString` to "[object Object]", unless it has its
      own "toString" key. Parsed JSON holds no functions, so that property
      hides the inherited method and cannot be called, and `valueOf`
      returns the object itself, which is not a primitive: the conversion
      throws. An array converts when each of its elements does. */
  predicate Convertible(v: Json)
  {
    match v
    case JObj(fields) => "toString" !in fields
    case JArr(items) => forall k :: 0 <= k < |items| ==> Convertible(items[k])
    case _ => true
  }

  /** `v.length > bound` runs without throwing: only an object's own
      `length` property is converted, so for an object it must be
      convertible. */
  predicate LengthComparable(v: Json)
  {
    v.JObj? ==> Convertible(Get(v, "length"))
  }

  /** `v.length > bound` for a value that is not null or undefined, when it
      does not throw (`LengthComparable`). A string or an array compares
      its length; an object compares its `length` property converted by
      `Number` (a missing one is undefined, so NaN); numbers and booleans
      have no `length`. */
  predicate LongerThan(v: Json, bound: int)
    requires DoubleBound(bound)
  {
    match v
    case JStr(s) => |s| > bound
    case JArr(items) => |items| > bound
    case JObj(_) => GreaterThan(ToNumber(Get(v, "length")), bound)
    case _ => false
  }

  /** Decimal digits of a natural number. */
  function NatToString(n: nat): (r: string)
    ensures |r| > 0
    ensures forall k :: 0 <= k < |r| ==> '0' <= r[k] <= '9'
  {
    if n < 10 then [('0' as int + n) as char] else NatToString(n / 10) + [('0' as int + n % 10) as char]
  }

  /** `String(v)` for a value that is `Convertible`; for an array the
      elements are joined with "," as `Array.prototype.toString` does. */
  function ToJsString(v: Json): string
    decreases v, 0
  {
    match v
    case JUndefined => "undefined"
    case JNull => "null"
    case JBool(b) => if b then "true" else "false"
    case JNum(n) => if n < 0 then "-" + NatToString(-n) else NatToString(n)
    case JStr(s) => s
    case JArr(items) => Join(seq(|items|, k requires 0 <= k < |items| => ElementString(items[k])), ",")
    case JObj(_) => "[object Object]"
  }

  /** How `Array.prototype.join` renders one element: null and undefined
      become the empty string. */
  function ElementString(v: Json): string
    decreases v, 1
  {
    if v.JUndefined? || v.JNull? then "" else ToJsString(v)
  }

  /** `items.join(sep)` for items that are all `Convertible`. */
  function JoinValues(items: seq<Json>, sep: string): (r: string)
  {
    Join(seq(|items|, k requires 0 <= k < |items| => ElementString(items[k])), sep)
  }

  /** Joining strings renders each string as it is. */
  lemma JoinStrings(items: seq<Json>, sep: string)
    requires forall k :: 0 <= k < |items| ==> items[k].JStr?
    ensures JoinValues(items, sep) == Join(seq(|items|, k requires 0 <= k < |items| => items[k].s), sep)
  {
    var a := seq(|items|, k requires 0 <= k < |items| => ElementString(items[k]));
    var b := seq(|items|, k requires 0 <= k < |items| => items[k].s);
    forall k | 0 <= k < |items| ensures a[k] == b[k] {
      assert items[k].JStr?;
      assert ElementString(items[k]) == ToJsString(items[k]) == items[k].s;
    }
    assert a == b;
  }

  /** `items.includes(s)` for a string `s`: SameValueZero equals a string
      only to the same string. */
  predicate IncludesString(items: seq<Json>, s: string)
  {
    JStr(s) in items
  }

  /** The decimal digits of `n` read back as `n`. */
  lemma {:induction false} NatToStringValue(n: nat)
    ensures DigitsIn(NatToString(n), 10)
    ensures DigitsValue(NatToString(n), 10) == n
  {
    var r := NatToString(n);
    if n >= 10 {
      NatToStringValue(n / 10);
      assert r[..|r| - 1] == NatToString(n / 10);
    }
  }

  /** A run of decimal digits to the end of the text is read whole. */
  lemma {:induction false} DecimalRunToEnd(s: string, i: nat)
    requires i <= |s|
    requires forall k :: i <= k < |s| ==> 0 <= DigitValue(s[k]) < 10
    ensures DecimalRun(s, i) == |s| - i
    decreases |s| - i
  {
    if i < |s| {
      DecimalRunToEnd(s, i + 1);
    }
  }

  /** A non-empty string of decimal digits is the integer it spells. */
  lemma UnsignedDecimalDigits(d: string)
    requires d != [] && DigitsIn(d, 10)
    ensures UnsignedDecimal(d) == Decimal(DigitsValue(d, 10), 0)
  {
    assert d[0] != 'I';
    assert d != "Infinity";
    DecimalRunToEnd(d, 0);
    assert d[..|d|] + d[|d| - 0..|d|] == d;
    assert d[|d|..] == [];
  }

  /** A decimal digit is neither whitespace, a sign nor a radix letter. */
  lemma DigitIsPlain(c: char)
    requires 0 <= DigitValue(c) < 10
    ensures '0' <= c <= '9' && !IsSpace(c) && RadixOf(c) == 0
  {
  }

  /** A non-empty string of decimal digits converts to the integer it
      spells. */
  lemma DigitsToNumber(d: string)
    requires d != [] && DigitsIn(d, 10)
    ensures StringToNumber(d) == Decimal(DigitsValue(d, 10), 0)
  {
    DigitIsPlain(d[0]);
    DigitIsPlain(d[|d| - 1]);
    if |d| > 1 { DigitIsPlain(d[1]); }
    TrimTrimmed(d);
    UnsignedDecimalDigits(d);
  }

  /** With a minus sign in front it converts to the negated integer. */
  lemma NegativeDigitsToNumber(d: string)
    requires d != [] && DigitsIn(d, 10)
    ensures StringToNumber("-" + d) == Decimal(-(DigitsValue(d, 10) as int), 0)
  {
    var m := "-" + d;
    DigitIsPlain(d[|d| - 1]);
    assert m[|m| - 1] == d[|d| - 1];
    assert !IsSpace(m[0]);
    TrimTrimmed(m);
    assert m[1..] == d;
    UnsignedDecimalDigits(d);
  }

  /** `Number(String(n))` is `n`: an integer's decimal text converts back
      to it. */
  lemma NumberStringRoundTrip(n: int)
    ensures ToNumber(JStr(ToJsString(JNum(n)))) == ToNumber(JNum(n))
  {
    var magnitude: nat := if n < 0 then -n else n;
    var digits := NatToString(magnitude);
    NatToStringValue(magnitude);
    if n < 0 {
      assert ToJsString(JNum(n)) == "-" + digits;
      NegativeDigitsToNumber(digits);
    } else {
      assert ToJsString(JNum(n)) == digits;
      DigitsToNumber(digits);
    }
  }

  /** An array holding one integer converts to that integer, through its
      string form. */
  lemma SingletonArrayNumber(n: int)
    ensures ToNumber(JArr([JNum(n)])) == ToNumber(JNum(n))
  {
    assert ToJsString(JArr([JNum(n)])) == ToJsString(JNum(n)) by {
      var rendered := seq(1, k requires 0 <= k < 1 => ElementString([JNum(n)][k]));
      assert rendered == [ToJsString(JNum(n))];
    }
    NumberStringRoundTrip(n);
  }

  /** Compared with a bound, an integer converted by `Number` behaves as
      the integer itself: rounding cannot move it across the bound. */
  lemma IntegerGreaterThan(n: int, bound: int)
    requires DoubleBound(bound)
    ensures GreaterThan(ToNumber(JNum(n)), bound) <==> n > bound
  {
    BoundExponent(bound);
    var p := Pow2(53 - Log2Floor(bound));
    assert p == 2 * Pow2(52 - Log2Floor(bound));
    assert ToNumber(JNum(n)) == Decimal(n, 0) && Pow10(0) == 1;
    ScaledIntegerCompare(n, bound, p);
  }

  /** Scaling by a factor of at least 2 leaves room for the midpoint's +1. */
  lemma ScaledIntegerCompare(n: int, bound: int, p: int)
    requires p >= 2
    ensures n * p > bound * p + 1 <==> n > bound
  {
    var d := n - bound;
    assert n * p == bound * p + d * p;
    if d >= 1 {
      assert (d - 1) * p >= 0;
      assert d * p == (d - 1) * p + p;
    } else {
      assert (-d) * p >= 0;
    }
  }

  lemma {:induction false} Pow10Sum(a: nat, b: nat)
    ensures Pow10(a + b) == Pow10(a) * Pow10(b)
    decreases a
  {
    if a > 0 {
      Pow10Sum(a - 1, b);
    }
  }

  lemma {:induction false} Pow2Sum(a: nat, b: nat)
    ensures Pow2(a + b) == Pow2(a) * Pow2(b)
    decreases a
  {
    if a > 0 {
      Pow2Sum(a - 1, b);
    }
  }

  /** Digits, a point and more digits convert to the exact decimal they
      spell, before any rounding. */
  lemma FractionToNumber(a: string, b: string)
    requires a != [] && DigitsIn(a, 10) && b != [] && DigitsIn(b, 10)
    ensures DigitsIn(a + b, 10)
    ensures StringToNumber(a + "." + b) == Decimal(DigitsValue(a + b, 10), |b|)
  {
    var t := a + "." + b;
    assert t[0] == a[0] && t[|t| - 1] == b[|b| - 1] && t[..|a|] == a;
    DigitIsPlain(a[0]);
    DigitIsPlain(b[|b| - 1]);
    assert IsTrimmed(t);
    TrimTrimmed(t);
    assert RadixOf(t[1]) == 0 by {
      if |a| > 1 { assert t[1] == a[1]; DigitIsPlain(a[1]); } else { assert t[1] == '.'; }
    }
    assert t[0] != '-' && t[0] != '+';
    UnsignedFraction(a, b);
    assert StringToNumber(t) == UnsignedDecimal(t);
  }

  /** The unsigned part of `FractionToNumber`. */
  lemma UnsignedFraction(a: string, b: string)
    requires a != [] && DigitsIn(a, 10) && b != [] && DigitsIn(b, 10)
    ensures DigitsIn(a + b, 10)
    ensures UnsignedDecimal(a + "." + b) == Decimal(DigitsValue(a + b, 10), |b|)
  {
    var t := a + "." + b;
    DigitsConcat(a, b);
    FractionRuns(a, b, t);
    assert t != "Infinity" by {
      DigitIsPlain(a[0]);
      assert t[0] == a[0];
    }
    UnsignedPointed(t, |a|, |b|);
    assert t[..|a|] + t[|a| + 1..] == a + b;
  }

  /** Digits, a point and at least one more digit, with nothing after. */
  lemma UnsignedPointed(u: string, i: nat, j: nat)
    requires u != "Infinity" && i + 1 + j == |u| && u[i] == '.' && j > 0
    requires DecimalRun(u, 0) == i && DecimalRun(u, i + 1) == j
    ensures DigitsIn(u[..i] + u[i + 1..], 10)
    ensures UnsignedDecimal(u) == Decimal(DigitsValue(u[..i] + u[i + 1..], 10), j)
  {
    assert DigitsIn(u[..i] + u[i + 1..], 10) by {
      assert u[..i] == u[0..0 + i];
      assert u[i + 1..] == u[i + 1..i + 1 + j];
      DigitsConcat(u[..i], u[i + 1..]);
    }
    assert u[i + 1 + j - j..i + 1 + j] == u[i + 1..];
    assert Exponent(u[i + 1 + j..]) == Some(0) by {
      assert u[i + 1 + j..] == [];
    }
    UnsignedPointedValue(u, i, j, u[..i] + u[i + 1..]);
  }

  /** The value `UnsignedDecimal` gives once its runs are known. */
  lemma UnsignedPointedValue(u: string, i: nat, j: nat, digits: string)
    requires u != "Infinity" && i + 1 + j == |u| && u[i] == '.' && j > 0
    requires DecimalRun(u, 0) == i && DecimalRun(u, i + 1) == j
    requires digits == u[..i] + u[i + 1 + j - j..i + 1 + j] && DigitsIn(digits, 10)
    requires Exponent(u[i + 1 + j..]) == Some(0)
    ensures UnsignedDecimal(u) == Decimal(DigitsValue(digits, 10), j)
  {
    assert Scaled(DigitsValue(digits, 10), 0 - j) == Decimal(DigitsValue(digits, 10), j);
  }

  lemma DigitsConcat(a: string, b: string)
    requires DigitsIn(a, 10) && DigitsIn(b, 10)
    ensures DigitsIn(a + b, 10)
  {
    forall k | 0 <= k < |a + b| ensures 0 <= DigitValue((a + b)[k]) < 10 {
      if k < |a| { assert (a + b)[k] == a[k]; } else { assert (a + b)[k] == b[k - |a|]; }
    }
  }

  /** Where the digit runs of "a.b" start and end. */
  lemma FractionRuns(a: string, b: string, t: string)
    requires DigitsIn(a, 10) && DigitsIn(b, 10) && t == a + "." + b
    ensures |t| == |a| + 1 + |b| && t[|a|] == '.'
    ensures DecimalRun(t, 0) == |a| && DecimalRun(t, |a| + 1) == |b|
    ensures t[..|a|] == a && t[|a| + 1..|t|] == b && t[|t|..] == []
  {
    assert t[..|a|] == a;
    assert DigitValue('.') == -1;
    DecimalRunToEnd(a, 0);
    DecimalRunPrefix(t, a, 0);
    assert t[|a| + 1..|t|] == b;
    forall k | |a| + 1 <= k < |t| ensures 0 <= DigitValue(t[k]) < 10 {
      assert t[k] == b[k - |a| - 1];
    }
    DecimalRunToEnd(t, |a| + 1);
  }

  /** A run of zeros reads as 0. */
  lemma {:induction false} ZerosValue(z: string)
    requires forall k :: 0 <= k < |z| ==> z[k] == '0'
    ensures DigitsIn(z, 10) && DigitsValue(z, 10) == 0
  {
    if z != [] {
      ZerosValue(z[..|z| - 1]);
    }
  }

  /** Reading two digit strings one after the other: the first is shifted
      by the length of the second. */
  lemma {:induction false} DigitsValueConcat(a: string, b: string)
    requires DigitsIn(a, 10) && DigitsIn(b, 10)
    ensures DigitsIn(a + b, 10)
    ensures DigitsValue(a + b, 10) == DigitsValue(a, 10) * Pow10(|b|) + DigitsValue(b, 10)
    decreases |b|
  {
    DigitsConcat(a, b);
    if b == [] {
      assert a + b == a;
    } else {
      var b' := b[..|b| - 1];
      assert DigitsIn(b', 10) by {
        forall k | 0 <= k < |b'| ensures 0 <= DigitValue(b'[k]) < 10 { assert b'[k] == b[k]; }
      }
      DigitsValueConcat(a, b');
      var last := DigitValue(b[|b| - 1]);
      assert (a + b)[..|a + b| - 1] == a + b';
      assert (a + b)[|a + b| - 1] == b[|b| - 1];
      assert DigitsValue(a + b, 10) == DigitsValue(a + b', 10) * 10 + last;
      assert DigitsValue(b, 10) == DigitsValue(b', 10) * 10 + last;
      assert Pow10(|b|) == Pow10(|b'|) * 10;
      ShiftedDigit(DigitsValue(a, 10), Pow10(|b'|), DigitsValue(b', 10), last);
    }
  }

  /** One more digit on the right of `x * p + y`. */
  lemma ShiftedDigit(x: int, p: int, y: int, d: int)
    ensures (x * p + y) * 10 + d == x * (p * 10) + (y * 10 + d)
  {
    assert (x * p + y) * 10 == x * p * 10 + y * 10;
  }

  /** "50." followed by zeros and a final 1 is the exact decimal
      50 + 10^-n for n digits after the point. */
  lemma FiftyPointOne(z: string)
    requires forall k :: 0 <= k < |z| ==> z[k] == '0'
    ensures StringToNumber("50" + "." + (z + "1")) == Decimal(50 * Pow10(|z| + 1) + 1, |z| + 1)
  {
    var b := z + "1";
    ZeroRunThenOne(z);
    FiftyDigits();
    DigitsValueConcat("50", b);
    FractionToNumber("50", b);
  }

  lemma ZeroRunThenOne(z: string)
    requires forall k :: 0 <= k < |z| ==> z[k] == '0'
    ensures DigitsIn(z + "1", 10) && DigitsValue(z + "1", 10) == 1
  {
    ZerosValue(z);
    assert DigitsIn("1", 10) && DigitsValue("1", 10) == 1;
    DigitsValueConcat(z, "1");
  }

  lemma FiftyDigits()
    ensures DigitsIn("50", 10) && DigitsValue("50", 10) == 50
  {
    assert "50"[..1] == "5";
    assert DigitsValue("5", 10) == 5;
  }

  /** A digit run inside a longer text that stops at a non-digit has the
      length it has on its own. */
  lemma {:induction false} DecimalRunPrefix(t: string, a: string, i: nat)
    requires i <= |a| < |t| && t[..|a|] == a && !(0 <= DigitValue(t[|a|]) < 10)
    ensures DecimalRun(t, i) == DecimalRun(a, i)
    decreases |a| - i
  {
    assert forall k :: 0 <= k < |a| ==> t[k] == a[k] by {
      forall k | 0 <= k < |a| ensures t[k] == a[k] { assert t[..|a|][k] == t[k]; }
    }
    if i < |a| {
      DecimalRunPrefix(t, a, i + 1);
    }
  }

  /** Near the colour bound: 50 + 10^-n becomes a double above 50 exactly
      when 10^-n exceeds half the gap 2^-47 between 50 and the next
      double, that is for n up to 14. So "50.00000000000001" is above 50,
      and "50.000000000000001" reads as 50. */
  lemma FiftyPlusTenPowerRounding(n: nat)
    ensures GreaterThan(Decimal(50 * Pow10(n) + 1, n), 50) <==> n <= 14
  {
    var p, x := Pow2(48), Pow10(n);
    GreaterThanFifty(50 * x + 1, n);
    MidpointCompare(x, p);
    Pow2Of48();
    Pow10Of14();
    if n <= 14 {
      Pow10Monotone(n, 14);
    } else {
      Pow10Monotone(15, n);
    }
  }

  /** The comparison with 50 spelled out: 2^5 <= 50 < 2^6, so the
      midpoint is 50 + 2^-48. */
  lemma GreaterThanFifty(m: int, n: nat)
    ensures GreaterThan(Decimal(m, n), 50) <==> m * Pow2(48) > (50 * Pow2(48) + 1) * Pow10(n)
  {
    assert Log2Floor(50) == 5;
  }

  /** 50 + 1/x lies beyond the midpoint 50 + 1/p exactly when p > x. */
  lemma MidpointCompare(x: int, p: int)
    ensures (50 * x + 1) * p > (50 * p + 1) * x <==> p > x
  {
    assert (50 * x + 1) * p == 50 * x * p + p;
    assert (50 * p + 1) * x == 50 * x * p + x;
  }

  lemma Pow2Of48()
    ensures Pow2(48) == 281474976710656
  {
    assert Pow2(12) == 4096;
    Pow2Sum(12, 12);
    Pow2Sum(24, 24);
  }

  lemma Pow10Of14()
    ensures Pow10(14) == 100000000000000 && Pow10(15) == 1000000000000000
  {
    assert Pow10(7) == 10000000;
    Pow10Sum(7, 7);
    Pow10Sum(14, 1);
  }

  lemma {:induction false} Pow10Monotone(a: nat, b: nat)
    requires a <= b
    ensures Pow10(a) <= Pow10(b)
    decreases b
  {
    if a < b {
      Pow10Monotone(a, b - 1);
    }
  }
}
