/**
 * Cell values of a parsed dataset and the JavaScript coercions the analysis
 * applies to them: `Number(v)` (with `isNaN` as `None`), `String(v)`, the
 * "missing" test and `Number(v) || 0`.
 */
module Values {

  datatype Option<+T> = None | Some(value: T)

  /** A cell as the CSV/JSON ingestion produces it. */
  datatype Value = Null | Undefined | Num(n: real) | Str(s: string) | Bool(b: bool)

  /** A record: an association list in key-insertion order, as a JS object enumerates it. */
  datatype Field = Field(key: string, value: Value)
  type Row = seq<Field>

  /** `row[column]`: the first field with that key, or `undefined` when there is none. */
  function Cell(row: Row, column: string): (v: Value)
    ensures v == Undefined || exists i :: 0 <= i < |row| && row[i].key == column && row[i].value == v
    ensures (forall i :: 0 <= i < |row| ==> row[i].key != column) ==> v == Undefined
  {
    if row == [] then Undefined
    else if row[0].key == column then row[0].value
    else Cell(row[1..], column)
  }

  /** When the row has the key, `row[column]` is the value of its first field with that key. */
  lemma {:induction false} CellIsFirstMatch(row: Row, column: string, i: nat)
    requires i < |row| && row[i].key == column
    requires forall j :: 0 <= j < i ==> row[j].key != column
    ensures Cell(row, column) == row[i].value
  {
    if i > 0 {
      CellIsFirstMatch(row[1..], column, i - 1);
    }
  }

  /** `Object.keys(row)`. */
  function KeysOf(row: Row): (ks: seq<string>)
    ensures |ks| == |row| && forall i :: 0 <= i < |row| ==> ks[i] == row[i].key
  {
    seq(|row|, i requires 0 <= i < |row| => row[i].key)
  }

  /** With distinct keys, looking up each key `Object.keys` lists finds that key's own field. */
  lemma {:induction false} KeysLookUpTheirFields(row: Row)
    requires forall i, j :: 0 <= i < j < |row| ==> row[i].key != row[j].key
    ensures forall i :: 0 <= i < |row| ==> Cell(row, KeysOf(row)[i]) == row[i].value
  {
    if row != [] {
      KeysLookUpTheirFields(row[1..]);
      forall i | 0 <= i < |row|
        ensures Cell(row, KeysOf(row)[i]) == row[i].value
      {
        if i > 0 {
          assert row[i].key != row[0].key;
          assert KeysOf(row[1..])[i - 1] == row[i].key;
        }
      }
    }
  }

  /** `value === null || value === undefined || value === ''`. */
  predicate IsMissing(v: Value) {
    v.Null? || v.Undefined? || v == Str("")
  }

  predicate IsDigit(c: char) {
    '0' <= c <= '9'
  }

  function DigitValue(c: char): (d: nat)
    requires IsDigit(c)
    ensures d < 10
  {
    (c as int) - ('0' as int)
  }

  /** The decimal value of a string of digits (0 for the empty string). */
  function DigitsValue(ds: string): nat
    requires forall i :: 0 <= i < |ds| ==> IsDigit(ds[i])
  {
    if ds == [] then 0 else 10 * DigitsValue(ds[..|ds| - 1]) + DigitValue(ds[|ds| - 1])
  }

  function Pow10(k: nat): (p: nat)
    ensures p >= 1
  {
    if k == 0 then 1 else 10 * Pow10(k - 1)
  }

  /** The longest prefix of `s` made of digits. */
  function LeadingDigits(s: string): (ds: string)
    ensures |ds| <= |s| && ds == s[..|ds|]
    ensures forall i :: 0 <= i < |ds| ==> IsDigit(ds[i])
    ensures |ds| < |s| ==> !IsDigit(s[|ds|])
  {
    if s == [] || !IsDigit(s[0]) then [] else [s[0]] + LeadingDigits(s[1..])
  }

  /** An unsigned decimal literal: digits, optionally '.' and more digits, at least one digit in all. */
  function ParseUnsigned(t: string): Option<real> {
    var ip := LeadingDigits(t);
    var rest := t[|ip|..];
    if rest == [] then
      if ip == [] then None else Some(DigitsValue(ip) as real)
    else if rest[0] == '.' then
      var fp := rest[1..];
      if (forall i :: 0 <= i < |fp| ==> IsDigit(fp[i])) && |ip| + |fp| > 0 then
        Some(DigitsValue(ip) as real + (DigitsValue(fp) as real) / (Pow10(|fp|) as real))
      else None
    else None
  }

  /** `Number(s)` on a string, `None` standing for NaN; the empty string is 0. */
  function ParseNumber(s: string): Option<real> {
    if s == [] then Some(0.0)
    else if s[0] == '-' then
      match ParseUnsigned(s[1..])
      case Some(r) => Some(-r)
      case None => None
    else if s[0] == '+' then ParseUnsigned(s[1..])
    else ParseUnsigned(s)
  }

  /** `Number(v)`, `None` standing for NaN. */
  function ToNumber(v: Value): (r: Option<real>)
    ensures v.Num? ==> r == Some(v.n)
    ensures v.Undefined? ==> r == None
    ensures v.Null? ==> r == Some(0.0)
    ensures v.Bool? ==> r == Some(if v.b then 1.0 else 0.0)
    ensures v.Str? ==> r == ParseNumber(v.s)
  {
    match v
    case Null => Some(0.0)
    case Undefined => None
    case Num(n) => Some(n)
    case Str(s) => ParseNumber(s)
    case Bool(b) => Some(if b then 1.0 else 0.0)
  }

  /** A multi-digit integer literal parses to its value. */
  lemma IntegerLiteral()
    ensures ToNumber(Str("42")) == Some(42.0)
  {
    assert LeadingDigits("42") == "42";
    assert DigitsValue("42") == 42;
  }

  /** A signed literal with a fraction parses to its value. */
  lemma SignedDecimalLiteral()
    ensures ToNumber(Str("-12.5")) == Some(-12.5)
  {
    var t := "12.5";
    assert "-12.5"[1..] == t;
    assert LeadingDigits(t) == "12";
    assert DigitsValue("12") == 12;
    assert t[2..] == ".5" && ".5"[1..] == "5";
    assert DigitsValue("5") == 5;
  }

  /** A second decimal point makes the literal NaN. */
  lemma TwoPointsLiteral()
    ensures ToNumber(Str("1.2.3")) == None
  {
    assert LeadingDigits("1.2.3") == "1";
    assert "1.2.3"[1..][1..] == "2.3" && !IsDigit("2.3"[1]);
  }

  /** A string of decimal digits has no sign and is its own longest digit prefix. */
  lemma AllDigitsParse(s: string)
    requires s != [] && forall i :: 0 <= i < |s| ==> IsDigit(s[i])
    ensures ParseNumber(s) == Some(DigitsValue(s) as real)
  {
    assert IsDigit(s[0]);
    var ip := LeadingDigits(s);
    assert |ip| == |s|;
    assert ip == s;
    assert s[|ip|..] == [];
  }

  /** The digits of `NatToString(n)` evaluate back to `n`. */
  lemma {:induction false} NatToStringDigits(n: nat)
    ensures forall i :: 0 <= i < |NatToString(n)| ==> IsDigit(NatToString(n)[i])
    ensures DigitsValue(NatToString(n)) == n
  {
    var s := NatToString(n);
    if n >= 10 {
      NatToStringDigits(n / 10);
      assert s == NatToString(n / 10) + [DigitChar(n % 10)];
      assert s[..|s| - 1] == NatToString(n / 10);
    }
  }

  /** `Number(String(n))` is `n` for every natural number `n`. */
  lemma NatRoundTrip(n: nat)
    ensures ToNumber(Str(NatToString(n))) == Some(n as real)
    ensures ToNumber(Str(Stringify(Num(n as real)))) == Some(n as real)
  {
    NatToStringDigits(n);
    AllDigitsParse(NatToString(n));
    assert (n as real).Floor == n;
  }

  /** Outside digits, a point at most once, the unsigned grammar admits nothing. */
  lemma ForeignCharUnsigned(t: string, j: nat)
    requires j < |t| && !IsDigit(t[j]) && t[j] != '.'
    ensures ParseUnsigned(t) == None
  {
    var ip := LeadingDigits(t);
    assert j >= |ip|;
    var rest := t[|ip|..];
    if rest[0] == '.' {
      var fp := rest[1..];
      assert fp[j - |ip| - 1] == t[j];
    }
  }

  /** A character that is not a digit, a sign or a point makes `Number(s)` NaN, wherever it is. */
  lemma ForeignCharIsNaN(s: string, i: nat)
    requires i < |s| && !IsDigit(s[i]) && s[i] != '.' && s[i] != '-' && s[i] != '+'
    ensures ToNumber(Str(s)) == None
  {
    if s[0] == '-' || s[0] == '+' {
      assert s[1..][i - 1] == s[i];
      ForeignCharUnsigned(s[1..], i - 1);
    } else {
      ForeignCharUnsigned(s, i);
    }
  }

  /** `Number(v) || 0`: NaN (and 0) become 0. */
  function NumOrZero(v: Value): real {
    match ToNumber(v)
    case Some(r) => r
    case None => 0.0
  }

  /** `typeof value === 'number' || !isNaN(Number(value))`. */
  predicate IsNumericLike(v: Value) {
    v.Num? || ToNumber(v).Some?
  }

  function DigitChar(d: nat): char
    requires d < 10
  {
    ('0' as int + d) as char
  }

  function NatToString(n: nat): (s: string)
    ensures |s| >= 1
  {
    if n < 10 then [DigitChar(n)] else NatToString(n / 10) + [DigitChar(n % 10)]
  }

  /** Decimal digits of a fraction in (0, 1), at most `fuel + 1` of them. */
  function FractionDigits(f: real, fuel: nat): string
    requires 0.0 < f < 1.0
    decreases fuel
  {
    var d := (f * 10.0).Floor;
    var rest := f * 10.0 - d as real;
    [DigitChar(d)] + if rest == 0.0 || fuel == 0 then [] else FractionDigits(rest, fuel - 1)
  }

  /** `String(x)` for a number: integers exactly, fractions as decimal digits. */
  function NumberToString(r: real): string {
    if r < 0.0 then "-" + UnsignedToString(-r) else UnsignedToString(r)
  }

  function UnsignedToString(r: real): string
    requires r >= 0.0
  {
    var ip := r.Floor;
    var f := r - ip as real;
    if f == 0.0 then NatToString(ip) else NatToString(ip) + "." + FractionDigits(f, 19)
  }

  /** `String(value)`. */
  function Stringify(v: Value): string {
    match v
    case Null => "null"
    case Undefined => "undefined"
    case Num(n) => NumberToString(n)
    case Str(s) => s
    case Bool(b) => if b then "true" else "false"
  }

  /** `toLowerCase` on ASCII letters. */
  function ToLower(s: string): (t: string)
    ensures |t| == |s|
    ensures forall i :: 0 <= i < |s| ==> t[i] == if 'A' <= s[i] <= 'Z' then (s[i] as int + 32) as char else s[i]
    ensures forall i :: 0 <= i < |s| ==> !('A' <= t[i] <= 'Z')
  {
    seq(|s|, i requires 0 <= i < |s| => if 'A' <= s[i] <= 'Z' then (s[i] as int + 32) as char else s[i])
  }

  /** Lowering twice is lowering once. */
  lemma ToLowerIdempotent(s: string)
    ensures ToLower(ToLower(s)) == ToLower(s)
  {
    var t := ToLower(s);
    assert forall i :: 0 <= i < |t| ==> ToLower(t)[i] == t[i];
  }

  /** `haystack.includes(needle)`. */
  predicate Includes(haystack: string, needle: string)
    decreases |haystack|
  {
    |needle| <= |haystack| && (haystack[..|needle|] == needle || Includes(haystack[1..], needle))
  }
}
