/** The JavaScript value semantics the handlers rely on: string comparison
    with `<`, truthiness of request fields, white space, and `parseInt`. */
module Js {
  import opened Wrappers

  /** `a < b` on two JavaScript strings: characters compared from the left,
      the first difference decides, and a proper prefix comes first. */
  predicate Less(a: string, b: string)
  {
    if a == [] then b != []
    else if b == [] then false
    else if a[0] != b[0] then a[0] < b[0]
    else Less(a[1..], b[1..])
  }

  lemma {:induction false} LessIrreflexive(a: string)
    ensures !Less(a, a)
  {
    if a != [] {
      LessIrreflexive(a[1..]);
    }
  }

  lemma {:induction false} LessAsymmetric(a: string, b: string)
    requires Less(a, b)
    ensures !Less(b, a)
  {
    if a != [] && b != [] && a[0] == b[0] {
      LessAsymmetric(a[1..], b[1..]);
    }
  }

  lemma {:induction false} LessTransitive(a: string, b: string, c: string)
    requires Less(a, b) && Less(b, c)
    ensures Less(a, c)
  {
    if a != [] && a[0] == b[0] && b[0] == c[0] {
      LessTransitive(a[1..], b[1..], c[1..]);
    }
  }

  lemma {:induction false} LessTrichotomous(a: string, b: string)
    ensures a == b || Less(a, b) || Less(b, a)
  {
    if a != [] && b != [] && a[0] == b[0] {
      LessTrichotomous(a[1..], b[1..]);
      assert a == [a[0]] + a[1..] && b == [b[0]] + b[1..];
    }
  }

  /** When `a` comes before `c`, any `b` comes after `a` or before `c`. */
  lemma LessNegativelyTransitive(a: string, b: string, c: string)
    requires Less(a, c)
    ensures Less(a, b) || Less(b, c)
  {
    LessTrichotomous(a, b);
    if Less(b, a) {
      LessTransitive(b, a, c);
    }
  }

  /** Pairs compared on the first string, ties broken on the second. */
  predicate LexLess(a1: string, a2: string, b1: string, b2: string)
  {
    Less(a1, b1) || (a1 == b1 && Less(a2, b2))
  }

  lemma LexLessAsymmetric(a1: string, a2: string, b1: string, b2: string)
    requires LexLess(a1, a2, b1, b2)
    ensures !LexLess(b1, b2, a1, a2)
  {
    if Less(a1, b1) {
      LessAsymmetric(a1, b1);
      LessIrreflexive(a1);
    } else {
      LessAsymmetric(a2, b2);
    }
  }

  lemma LexLessNegativelyTransitive(a1: string, a2: string, b1: string, b2: string, c1: string, c2: string)
    requires LexLess(a1, a2, c1, c2)
    ensures LexLess(a1, a2, b1, b2) || LexLess(b1, b2, c1, c2)
  {
    LessTrichotomous(a1, b1);
    LessTrichotomous(b1, c1);
    if Less(a1, c1) {
      LessNegativelyTransitive(a1, b1, c1);
    } else {
      LessNegativelyTransitive(a2, b2, c2);
    }
  }

  /** Two strings of which the first `k` characters agree compare as their
      characters at `k` do. */
  lemma {:induction false} LessAtFirstDifference(a: string, b: string, k: nat)
    requires k < |a| && k < |b| && a[..k] == b[..k] && a[k] != b[k]
    ensures Less(a, b) <==> a[k] < b[k]
  {
    if k > 0 {
      assert a[0] == a[..k][0] == b[..k][0] == b[0];
      assert a[1..][..k - 1] == a[..k][1..] == b[..k][1..] == b[1..][..k - 1];
      LessAtFirstDifference(a[1..], b[1..], k - 1);
    }
  }

  /** The characters JavaScript counts as white space or line terminators:
      the class `\s` of its regular expressions, also what `parseInt` skips. */
  predicate IsWhitespace(c: char)
  {
    || c == ' ' || c == '\t' || c == '\n' || c == '\r'
    || c == '\U{000B}' || c == '\U{000C}' || c == '\U{00A0}' || c == '\U{1680}'
    || ('\U{2000}' <= c <= '\U{200A}')
    || c == '\U{2028}' || c == '\U{2029}' || c == '\U{202F}' || c == '\U{205F}'
    || c == '\U{3000}' || c == '\U{FEFF}'
  }

  predicate IsDigit(c: char)
  {
    '0' <= c <= '9'
  }

  /** The value of `c` as a digit in base `radix` (letters count from 10), if it is one. */
  function DigitValue(c: char, radix: nat): (r: Option<nat>)
    ensures r.Some? ==> r.value < radix
    ensures radix == 10 ==> (r.Some? <==> IsDigit(c))
  {
    var v: int :=
      if '0' <= c <= '9' then c as int - '0' as int
      else if 'a' <= c <= 'z' then c as int - 'a' as int + 10
      else if 'A' <= c <= 'Z' then c as int - 'A' as int + 10
      else radix;
    if 0 <= v < radix then Some(v) else None
  }

  predicate AllDigits(s: string, radix: nat)
  {
    forall i :: 0 <= i < |s| ==> DigitValue(s[i], radix).Some?
  }

  /** The longest prefix of `s` made of digits in base `radix`. */
  function LeadingDigits(s: string, radix: nat): (r: string)
    ensures r <= s && AllDigits(r, radix)
    ensures |r| < |s| ==> DigitValue(s[|r|], radix).None?
  {
    if s != [] && DigitValue(s[0], radix).Some? then [s[0]] + LeadingDigits(s[1..], radix) else []
  }

  /** The number a string of digits in base `radix` denotes. */
  function ValueOf(ds: string, radix: nat): nat
    requires AllDigits(ds, radix)
  {
    if ds == [] then 0
    else ValueOf(ds[..|ds| - 1], radix) * radix + DigitValue(ds[|ds| - 1], radix).value
  }

  /** `s` without its leading white space. */
  function TrimStart(s: string): (r: string)
    ensures |r| <= |s| && r == s[|s| - |r|..]
    ensures forall i :: 0 <= i < |s| - |r| ==> IsWhitespace(s[i])
    ensures r == [] || !IsWhitespace(r[0])
  {
    if s != [] && IsWhitespace(s[0]) then TrimStart(s[1..]) else s
  }

  /** The digits after the sign: a `0x` or `0X` prefix selects base 16, and
      the longest run of digits that follows is read; no digit gives `NaN`. */
  function ParseUnsigned(u: string): Option<nat>
  {
    var hex := |u| >= 2 && u[0] == '0' && (u[1] == 'x' || u[1] == 'X');
    var radix := if hex then 16 else 10;
    var ds := LeadingDigits(if hex then u[2..] else u, radix);
    if ds == [] then None else Some(ValueOf(ds, radix))
  }

  /** `t` without the one sign character `parseInt` accepts in front of the digits. */
  function Unsigned(t: string): string
  {
    if t != [] && (t[0] == '-' || t[0] == '+') then t[1..] else t
  }

  /** The magnitude `v` with the sign `t` starts with. */
  function WithSign(t: string, v: nat): int
  {
    if t != [] && t[0] == '-' then -(v as int) else v
  }

  /** `parseInt(s)` without a radix: leading white space is skipped, then an
      optional sign, then the digits. */
  function ParseInt(s: string): Option<int>
  {
    var t := TrimStart(s);
    match ParseUnsigned(Unsigned(t))
    case None => None
    case Some(v) => Some(WithSign(t, v))
  }

  lemma ParseUnsignedWithoutDigits(u: string)
    requires forall i :: 0 <= i < |u| ==> !IsDigit(u[i])
    ensures ParseUnsigned(u) == None
  {
    if |u| > 0 {
      assert !IsDigit(u[0]);
      assert LeadingDigits(u, 10) == [];
    }
  }

  /** A string without a decimal digit parses to `NaN`. */
  lemma ParseIntWithoutDigits(s: string)
    requires forall i :: 0 <= i < |s| ==> !IsDigit(s[i])
    ensures ParseInt(s) == None
  {
    var t := TrimStart(s);
    var u := Unsigned(t);
    assert forall i :: 0 <= i < |u| ==> u[i] == s[|s| - |u| + i];
    ParseUnsignedWithoutDigits(u);
  }

  function DigitChar(d: nat): (c: char)
    requires d < 10
    ensures IsDigit(c) && DigitValue(c, 10) == Some(d)
  {
    ('0' as int + d) as char
  }

  /** The decimal text of a natural number, as `String(n)` writes it. */
  function NatToString(n: nat): (r: string)
    ensures |r| > 0 && AllDigits(r, 10)
  {
    if n < 10 then [DigitChar(n)] else NatToString(n / 10) + [DigitChar(n % 10)]
  }

  /** `String(n)` for an integer `n` below 10^21 in magnitude; JavaScript
      writes larger numbers in exponent form, which this model does not. */
  function NumberToString(n: int): string
  {
    if n < 0 then "-" + NatToString(-n) else NatToString(n)
  }

  lemma {:induction false} ValueOfNatToString(n: nat)
    ensures ValueOf(NatToString(n), 10) == n
  {
    var s := NatToString(n);
    if n >= 10 {
      ValueOfNatToString(n / 10);
      assert s[..|s| - 1] == NatToString(n / 10);
    }
  }

  lemma LeadingDigitsOfDigits(s: string, radix: nat)
    requires AllDigits(s, radix)
    ensures LeadingDigits(s, radix) == s
  {
  }

  lemma ParseUnsignedOfDecimal(ds: string)
    requires |ds| > 0 && AllDigits(ds, 10)
    ensures ParseUnsigned(ds) == Some(ValueOf(ds, 10))
  {
    LeadingDigitsOfDigits(ds, 10);
  }

  lemma ParseIntOfDigits(ds: string)
    requires |ds| > 0 && AllDigits(ds, 10)
    ensures ParseInt(ds) == Some(ValueOf(ds, 10))
  {
    assert !IsWhitespace(ds[0]);
    assert TrimStart(ds) == ds;
    assert Unsigned(ds) == ds;
    ParseUnsignedOfDecimal(ds);
  }

  lemma ParseIntOfNegatedDigits(ds: string)
    requires |ds| > 0 && AllDigits(ds, 10)
    ensures ParseInt("-" + ds) == Some(0 - ValueOf(ds, 10))
  {
    var s := "-" + ds;
    assert !IsWhitespace(s[0]);
    assert TrimStart(s) == s;
    assert Unsigned(s) == ds;
    ParseUnsignedOfDecimal(ds);
  }

  /** `parseInt` reads back the decimal text of any integer, which is what
      `String(n)` writes for `|n| < 10^21`. */
  lemma ParseIntOfNumberToString(n: int)
    ensures ParseInt(NumberToString(n)) == Some(n)
  {
    if n < 0 {
      var m: nat := -n;
      var ds := NatToString(m);
      assert NumberToString(n) == "-" + ds;
      ValueOfNatToString(m);
      ParseIntOfNegatedDigits(ds);
    } else {
      var ds := NatToString(n);
      assert NumberToString(n) == ds;
      ValueOfNatToString(n);
      ParseIntOfDigits(ds);
    }
  }

  /** A request value as JSON delivers it: absent (or null), a number, or a string. */
  datatype JsArg = Missing | Num(n: int) | Text(s: string)

  /** `!!a`: absent values, `0` and `""` are falsy. */
  predicate Truthy(a: JsArg)
  {
    match a
    case Missing => false
    case Num(n) => n != 0
    case Text(s) => s != ""
  }

  /** `!!field` for a text field: present and not empty. */
  predicate Given(field: Option<string>)
  {
    field.Some? && field.value != ""
  }

  /** `parseInt(a)`. A number is read back as itself and an absent value as
      `NaN`; `ParseIntArgAgrees` shows both are what `parseInt` makes of the
      text `String(a)` gives. */
  function ParseIntArg(a: JsArg): (r: Option<int>)
  {
    match a
    case Missing => None
    case Num(n) => Some(n)
    case Text(s) => ParseInt(s)
  }

  /** `parseInt` converts its argument to a string first: `String(n)` for a
      number and `"undefined"` for an absent value. */
  lemma ParseIntArgAgrees(a: JsArg)
    ensures a.Num? ==> ParseIntArg(a) == ParseInt(NumberToString(a.n))
    ensures a.Missing? ==> ParseIntArg(a) == ParseInt("undefined")
  {
    if a.Num? {
      ParseIntOfNumberToString(a.n);
    }
    if a.Missing? {
      var text := "undefined";
      assert forall i :: 0 <= i < |text| ==> !IsDigit(text[i]);
      ParseIntWithoutDigits(text);
    }
  }
}
