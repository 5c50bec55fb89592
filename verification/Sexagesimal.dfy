/**
  Printing and parsing of right ascensions and declinations (web/static/target.js), in
  exact arithmetic on the very texts.
*/
module Sexagesimal {
  datatype Option<+T> = None | Some(value: T)

  // ----- Numbers as texts

  predicate IsDigit(c: char) {
    '0' <= c <= '9'
  }

  predicate AllDigits(s: string) {
    forall i :: 0 <= i < |s| ==> IsDigit(s[i])
  }

  function Digit(n: nat): (c: char)
    requires n < 10
    ensures IsDigit(c)
  {
    '0' + n as char
  }

  function DigitValue(c: char): nat
    requires IsDigit(c)
  {
    c as nat - '0' as nat
  }

  /** A natural number without leading zeros. */
  function Digits(n: nat): (s: string)
    ensures |s| > 0 && AllDigits(s)
  {
    if n < 10 then [Digit(n)] else Digits(n / 10) + [Digit(n % 10)]
  }

  /** What a run of digits says. */
  function Value(s: string): nat
    requires AllDigits(s)
  {
    if s == "" then 0 else 10 * Value(s[..|s| - 1]) + DigitValue(s[|s| - 1])
  }

  function PadLeft(s: string, width: nat): (r: string)
    ensures |r| >= width && |r| >= |s|
    ensures AllDigits(s) ==> AllDigits(r)
    decreases width - |s|
  {
    if |s| < width then PadLeft("0" + s, width) else s
  }

  function Pow10(k: nat): (p: nat)
    ensures p >= 1
  {
    if k == 0 then 1 else 10 * Pow10(k - 1)
  }

  /** toFixed, of a number given in units of its last decimal. */
  function Fixed(units: nat, decimals: nat): string {
    var s := PadLeft(Digits(units), decimals + 1);
    if decimals == 0 then s else s[..|s| - decimals] + "." + s[|s| - decimals..]
  }

  lemma {:induction false} DigitsValue(n: nat)
    ensures Value(Digits(n)) == n
  {
    if n < 10 {
      assert [Digit(n)][..0] == "";
    } else {
      DigitsValue(n / 10);
      var s := Digits(n / 10) + [Digit(n % 10)];
      assert s[..|s| - 1] == Digits(n / 10);
    }
  }

  lemma {:induction false} LeadingZero(s: string)
    requires AllDigits(s)
    ensures AllDigits("0" + s) && Value("0" + s) == Value(s)
  {
    var z := "0" + s;
    if s == "" {
      assert z[..0] == "";
    } else {
      LeadingZero(s[..|s| - 1]);
      assert z[..|z| - 1] == "0" + s[..|s| - 1];
    }
  }

  lemma {:induction false} PadLeftValue(s: string, width: nat)
    requires AllDigits(s)
    ensures Value(PadLeft(s, width)) == Value(s)
    decreases width - |s|
  {
    if |s| < width {
      LeadingZero(s);
      PadLeftValue("0" + s, width);
    }
  }

  /** Digits in two parts: the first counts for as many tens as the second has digits. */
  lemma {:induction false} ValueOfBoth(a: string, b: string)
    requires AllDigits(a) && AllDigits(b)
    ensures AllDigits(a + b) && Value(a + b) == Value(a) * Pow10(|b|) + Value(b)
    decreases |b|
  {
    if b == "" {
      assert a + b == a;
    } else {
      var t := b[..|b| - 1];
      ValueOfBoth(a, t);
      assert (a + b)[..|a + b| - 1] == a + t;
      TenTimes(Value(a), Pow10(|t|));
    }
  }

  lemma TenTimes(x: nat, p: nat)
    ensures 10 * (x * p) == x * (10 * p)
  {
  }

  // ----- Printing

  /** Hours or degrees, minutes, and seconds in units of their last decimal. */
  datatype Parts = Parts(h: nat, m: nat, units: nat)

  function Pad2(n: nat): string {
    PadLeft(Digits(n), 2)
  }

  function Text(sign: string, p: Parts, decimals: nat): string {
    var width := if decimals > 0 then decimals + 3 else 2;
    sign + Pad2(p.h) + ":" + Pad2(p.m) + ":" + PadLeft(Fixed(p.units, decimals), width)
  }

  function Abs(x: real): real {
    if x < 0.0 then -x else x
  }

  /** Hours for a right ascension, degrees for a declination. */
  function Scale(isRa: bool): real {
    if isRa then 15.0 else 1.0
  }

  /** Math.round of z in f-ths. */
  function Rounded(z: real, f: nat): int {
    (z * f as real + 0.5).Floor
  }

  /** How many units of the last decimal of a second a is worth, rounded. */
  function Total(a: real, decimals: nat): (n: nat)
    requires a >= 0.0
  {
    NotNegative(a * 3600.0, Pow10(decimals) as real);
    Rounded(a * 3600.0, Pow10(decimals))
  }

  lemma NotNegative(x: real, y: real)
    requires x >= 0.0 && y >= 0.0
    ensures x * y >= 0.0
  {
  }

  /** Whole division. */
  function Quot(n: nat, d: nat): nat
    requires d > 0
  {
    if n < d then 0 else 1 + Quot(n - d, d)
  }

  lemma {:induction false} QuotBounds(n: nat, d: nat)
    requires d > 0
    ensures Quot(n, d) * d <= n < Quot(n, d) * d + d
  {
    if n >= d {
      QuotBounds(n - d, d);
      var q := Quot(n - d, d);
      assert (1 + q) * d == q * d + d;
    }
  }

  /** There is only one quotient with a rest below the divisor. */
  lemma {:induction false} QuotIsUnique(d: nat, q: nat, rest: nat)
    requires rest < d
    ensures q * d + rest >= 0 && Quot(q * d + rest, d) == q
    decreases q
  {
    if q > 0 {
      assert q * d == (q - 1) * d + d;
      QuotIsUnique(d, q - 1, rest);
    }
  }

  /** The units of a whole minute. */
  function Minute(decimals: nat): (n: nat)
    ensures n >= 60
  {
    60 * Pow10(decimals)
  }

  function Split(total: nat, minute: nat): Parts
    requires minute > 0
  {
    var minutes := Quot(total, minute);
    QuotBounds(total, minute);
    Parts(minutes / 60, minutes % 60, total - minutes * minute)
  }

  function SignOf(deg: real, isRa: bool): string {
    if deg < 0.0 then "-" else if isRa then "" else "+"
  }

  /** What a coordinate is worth in units of its last printed decimal. */
  function Units(deg: real, isRa: bool, decimals: nat): nat {
    Total(Abs(deg) / Scale(isRa), decimals)
  }

  /** A coordinate rounded once, to the last decimal of its seconds, and then split. */
  function Printed(deg: real, isRa: bool, decimals: nat): string {
    Text(SignOf(deg, isRa), Split(Units(deg, isRa, decimals), Minute(decimals)), decimals)
  }

  lemma FloorShift(k: int, z: real)
    ensures (k as real + z).Floor == k + z.Floor
  {
  }

  lemma Distribute(x: real, y: real, g: real)
    ensures (x + y) * g == x * g + y * g
  {
  }

  lemma WholeProduct(k: int, f: nat)
    ensures k as real * f as real == (k * f) as real
  {
  }

  lemma Shrinks(y: real, f: nat)
    requires 0.0 <= y < 60.0
    ensures 0.0 <= y * f as real <= (60 * f) as real
  {
    WholeProduct(60, f);
    NotNegative(y, f as real);
    NotNegative(60.0 - y, f as real);
    Distribute(60.0 - y, y, f as real);
  }

  /** Whole units may be taken out before rounding. */
  lemma RoundRest(z: real, k: int, y: real, f: nat)
    requires z == k as real + y && 0.0 <= y < 60.0
    ensures Rounded(z, f) == k * f + Rounded(y, f) && 0 <= Rounded(y, f) <= 60 * f
  {
    Distribute(k as real, y, f as real);
    WholeProduct(k, f);
    Shrinks(y, f);
    FloorShift(k * f, y * f as real + 0.5);
  }

  function Worth(minutes: int, units: int, minute: int): int {
    minutes * minute + units
  }

  lemma WorthOfSeconds(minutes: int, units: int, f: nat)
    ensures Worth(minutes, units, 60 * f) == (60 * minutes) * f + units
  {
  }

  /** Splitting first and rounding the seconds gives the same total. */
  lemma RoundingSeconds(a: real, decimals: nat, h: int, x: real, m: int, y: real)
    requires a >= 0.0 && h == a.Floor && x == (a - h as real) * 60.0 && m == x.Floor && y == (x - m as real) * 60.0
    ensures var r := Rounded(y, Pow10(decimals));
            && 0 <= h && 0 <= m < 60 && 0 <= r <= Minute(decimals)
            && Total(a, decimals) == Worth(h * 60 + m, r, Minute(decimals))
  {
    var n := h * 60 + m;
    RoundRest(a * 3600.0, 60 * n, y, Pow10(decimals));
    WorthOfSeconds(n, Rounded(y, Pow10(decimals)), Pow10(decimals));
  }

  /** Seconds that were rounded up to 60 belong to the next minute, 60 minutes to the next hour. */
  function Carried(h: nat, m: nat, units: nat, minute: nat): Parts
    requires m < 60 && units <= minute
  {
    if units < minute then Parts(h, m, units)
    else if m < 59 then Parts(h, m + 1, 0) else Parts(h + 1, 0, 0)
  }

  lemma Carry(total: nat, h: nat, m: nat, units: nat, minute: nat)
    requires minute > 0 && m < 60 && units <= minute
    requires total == Worth(h * 60 + m, units, minute)
    ensures Split(total, minute) == Carried(h, m, units, minute)
  {
    var n := h * 60 + m;
    if units < minute {
      QuotIsUnique(minute, n, units);
    } else {
      assert n * minute + units == (n + 1) * minute + 0;
      QuotIsUnique(minute, n + 1, 0);
    }
  }

  /** The parts of decToSexagesimal: the seconds rounded on their own, and carried. */
  method SplitAndCarry(a: real, secDecimals: nat) returns (p: Parts)
    requires a >= 0.0
    ensures p == Split(Total(a, secDecimals), Minute(secDecimals)) && p.m < 60 && p.units < Minute(secDecimals)
  {
    var h := a.Floor;
    var mFull := (a - h as real) * 60.0;
    var m := mFull.Floor;
    var s := (mFull - m as real) * 60.0;
    RoundingSeconds(a, secDecimals, h, mFull, m, s);
    var units := Rounded(s, Pow10(secDecimals));
    p := CarryOver(h, m, units, Minute(secDecimals));
    Carry(Total(a, secDecimals), h, m, units, Minute(secDecimals));
  }

  method CarryOver(hours: nat, minutes: nat, rounded: nat, minute: nat) returns (p: Parts)
    requires minutes < 60 && rounded <= minute && minute > 0
    ensures p == Carried(hours, minutes, rounded, minute) && p.m < 60 && p.units < minute
  {
    var h, m, units := hours, minutes, rounded;
    if units >= minute {
      units := units - minute;
      m := m + 1;
    }
    if m >= 60 {
      m := m - 60;
      h := h + 1;
    }
    p := Parts(h, m, units);
  }

  method PartsOf(deg: real, isRa: bool, secDecimals: nat) returns (p: Parts)
    ensures p == Split(Units(deg, isRa, secDecimals), Minute(secDecimals))
  {
    var a := Abs(deg);
    if isRa {
      a := a / 15.0;
    }
    assert a == Abs(deg) / Scale(isRa);
    p := SplitAndCarry(a, secDecimals);
  }

  /** decToSexagesimal. */
  method DecToSexagesimal(deg: Option<real>, isRa: bool, secDecimals: nat) returns (text: string)
    ensures text == if deg.None? then "" else Printed(deg.value, isRa, secDecimals)
  {
    if deg.None? {
      return "";
    }
    var sign := if deg.value < 0.0 then "-" else if isRa then "" else "+";
    var p := PartsOf(deg.value, isRa, secDecimals);
    text := Text(sign, p, secDecimals);
  }

  // ----- Parsing

  predicate IsSpace(c: char) {
    c == ' ' || c == '\t' || c == '\n' || c == '\r'
  }

  predicate IsSeparator(c: char) {
    c == ':' || IsSpace(c)
  }

  predicate InNumber(c: char) {
    IsDigit(c) || c == '.' || c == ','
  }

  /** How many characters of one kind s starts with. */
  function Run(s: string, kind: char -> bool): (n: nat)
    ensures n <= |s|
    ensures forall i :: 0 <= i < n ==> kind(s[i])
    ensures n < |s| ==> !kind(s[n])
  {
    if s == "" || !kind(s[0]) then 0 else 1 + Run(s[1..], kind)
  }

  function TrimEnd(s: string): string {
    if s != "" && IsSpace(s[|s| - 1]) then TrimEnd(s[..|s| - 1]) else s
  }

  function Trim(s: string): string {
    TrimEnd(s[Run(s, IsSpace)..])
  }

  /** The first comma is read as a decimal point. */
  function CommaToPoint(s: string): string {
    if s == "" then "" else if s[0] == ',' then "." + s[1..] else [s[0]] + CommaToPoint(s[1..])
  }

  /** s split after the characters of one kind it starts with. */
  function Take(s: string, kind: char -> bool): (r: (string, string))
    ensures r.0 + r.1 == s
    ensures forall i :: 0 <= i < |r.0| ==> kind(r.0[i])
  {
    (s[..Run(s, kind)], s[Run(s, kind)..])
  }

  function Number(whole: string, decimals: string): Option<real>
    requires AllDigits(whole) && AllDigits(decimals)
  {
    if whole == "" && decimals == "" then None
    else Some(Value(whole) as real + Value(decimals) as real / Pow10(|decimals|) as real)
  }

  /** parseFloat of an unsigned number; what follows it is ignored. */
  function ParseFloat(s: string): Option<real> {
    var (whole, rest) := Take(s, IsDigit);
    Number(whole, if rest != "" && rest[0] == '.' then Take(rest[1..], IsDigit).0 else "")
  }

  /** A reading of three numbers and a sign. */
  datatype Reading = Reading(negative: bool, h: string, m: string, s: string)

  function Unsigned(s: string): string {
    Take(if s != "" && (s[0] == '+' || s[0] == '-') then s[1..] else s, IsSpace).1
  }

  /** Digits and then separators, and what follows them. */
  function Field(s: string): (r: Option<(string, string)>)
    ensures r.Some? ==> AllDigits(r.value.0)
  {
    var (digits, after) := Take(s, IsDigit);
    var (separators, rest) := Take(after, IsSeparator);
    if digits != "" && separators != "" then Some((digits, rest)) else None
  }

  function MatchUnsigned(s: string, negative: bool): (r: Option<Reading>)
    ensures r.Some? ==> AllDigits(r.value.h) && AllDigits(r.value.m)
  {
    var h := Field(s);
    if h.None? then None
    else
      var m := Field(h.value.1);
      if m.None? || m.value.1 == "" || Take(m.value.1, InNumber).1 != "" then None
      else Some(Reading(negative, h.value.0, m.value.0, m.value.1))
  }

  /** The pattern of a sexagesimal reading: digits, digits and a number, with separators between. */
  function MatchSexagesimal(s: string): (r: Option<Reading>)
    ensures r.Some? ==> AllDigits(r.value.h) && AllDigits(r.value.m)
  {
    MatchUnsigned(Unsigned(s), s != "" && s[0] == '-')
  }

  /** A plain decimal number; exponents are not read. */
  function ParsePlain(s: string): Option<real> {
    var t := CommaToPoint(s);
    if t != "" && t[0] == '-' then
      var x := ParseFloat(t[1..]);
      if x.None? then None else Some(-x.value)
    else ParseFloat(if t != "" && t[0] == '+' then t[1..] else t)
  }

  function Combined(negative: bool, h: nat, m: nat, s: real, isRa: bool): real {
    var val := (h as real + m as real / 60.0 + s / 3600.0) * Scale(isRa);
    if negative then -val else val
  }

  /** What a sexagesimal reading says in degrees. */
  function ReadingValue(r: Reading, isRa: bool): Option<real>
    requires AllDigits(r.h) && AllDigits(r.m)
  {
    var seconds := ParseFloat(CommaToPoint(r.s));
    if seconds.None? then None else Some(Combined(r.negative, Value(r.h), Value(r.m), seconds.value, isRa))
  }

  /** parseCoordinate: degrees, or nothing. */
  function ParseCoordinate(str: string, isRa: bool): Option<real> {
    var s := Trim(str);
    if s == "" then None
    else
      var r := MatchSexagesimal(s);
      if r.None? then ParsePlain(s) else ReadingValue(r.value, isRa)
  }

  // ----- Parsing undoes printing

  lemma {:induction false} RunOf(a: string, b: string, kind: char -> bool)
    requires forall i :: 0 <= i < |a| ==> kind(a[i])
    requires b == "" || !kind(b[0])
    ensures Run(a + b, kind) == |a|
    decreases |a|
  {
    if a == "" {
      assert a + b == b;
    } else {
      RunOf(a[1..], b, kind);
      assert (a + b)[1..] == a[1..] + b;
    }
  }

  lemma TakeOf(a: string, b: string, kind: char -> bool)
    requires forall i :: 0 <= i < |a| ==> kind(a[i])
    requires b == "" || !kind(b[0])
    ensures Take(a + b, kind) == (a, b)
  {
    RunOf(a, b, kind);
  }

  lemma TakeAll(a: string, kind: char -> bool)
    requires forall i :: 0 <= i < |a| ==> kind(a[i])
    ensures Take(a, kind) == (a, "")
  {
    assert a + "" == a;
    TakeOf(a, "", kind);
  }

  lemma {:induction false} NoComma(s: string)
    requires forall i :: 0 <= i < |s| ==> s[i] != ','
    ensures CommaToPoint(s) == s
  {
    if s != "" {
      NoComma(s[1..]);
      assert s == [s[0]] + s[1..];
    }
  }

  lemma {:induction false} PadLeftAppend(a: string, b: string, width: nat)
    requires |b| <= width
    ensures PadLeft(a + b, width) == PadLeft(a, width - |b|) + b
    decreases width - |a|
  {
    if |a + b| < width {
      assert "0" + (a + b) == ("0" + a) + b;
      PadLeftAppend("0" + a, b, width);
    }
  }

  /** The seconds as printed: digits, or digits, a point and as many digits as there are decimals. */
  function SecondsText(units: nat, decimals: nat): string {
    PadLeft(Fixed(units, decimals), if decimals > 0 then decimals + 3 else 2)
  }

  lemma SecondsHavePoint(units: nat, decimals: nat) returns (a: string, b: string)
    requires decimals > 0
    ensures SecondsText(units, decimals) == a + "." + b
    ensures AllDigits(a) && AllDigits(b) && |a| > 0 && |b| == decimals
    ensures units == Value(a) * Pow10(decimals) + Value(b)
  {
    var s := PadLeft(Digits(units), decimals + 1);
    var whole;
    whole, b := s[..|s| - decimals], s[|s| - decimals..];
    PaddedDigits(units, decimals + 1);
    WholeAndRest(s, whole, b);
    PadLeftValue(whole, 2);
    a := PadLeft(whole, 2);
    PadPoint(whole, b);
  }

  lemma PaddedDigits(units: nat, width: nat)
    ensures var s := PadLeft(Digits(units), width); AllDigits(s) && Value(s) == units
  {
    PadLeftValue(Digits(units), width);
    DigitsValue(units);
  }

  lemma DigitsInParts(whole: string, b: string)
    requires AllDigits(whole + b)
    ensures AllDigits(whole) && AllDigits(b)
  {
    var s := whole + b;
    assert forall i :: 0 <= i < |whole| ==> whole[i] == s[i];
    assert forall i :: 0 <= i < |b| ==> b[i] == s[|whole| + i];
  }

  lemma WholeAndRest(s: string, whole: string, b: string)
    requires AllDigits(s) && s == whole + b
    ensures AllDigits(whole) && AllDigits(b) && Value(s) == Value(whole) * Pow10(|b|) + Value(b)
  {
    DigitsInParts(whole, b);
    ValueOfBoth(whole, b);
  }

  lemma PadPoint(whole: string, b: string)
    ensures PadLeft(whole + "." + b, |b| + 3) == PadLeft(whole, 2) + "." + b
  {
    var point := "." + b;
    Associative(whole, ".", b);
    PadLeftAppend(whole, point, |b| + 3);
    Associative(PadLeft(whole, 2), ".", b);
  }

  lemma Associative(a: string, b: string, c: string)
    ensures a + b + c == a + (b + c)
  {
  }

  lemma PointValue(x: nat, y: nat, f: nat)
    requires f > 0
    ensures x as real + y as real / f as real == (x * f + y) as real / f as real
  {
    var g := f as real;
    assert (x * f + y) as real == x as real * g + y as real;
  }

  lemma ParsePoint(a: string, b: string)
    requires AllDigits(a) && AllDigits(b)
    ensures ParseFloat(a + "." + b) == Number(a, b)
  {
    assert a + "." + b == a + ("." + b);
    TakeOf(a, "." + b, IsDigit);
    assert ("." + b)[1..] == b;
    TakeAll(b, IsDigit);
  }

  lemma ParseWhole(a: string)
    requires AllDigits(a)
    ensures ParseFloat(a) == Number(a, "")
  {
    TakeAll(a, IsDigit);
  }

  lemma NumberOf(a: string, b: string, units: nat)
    requires AllDigits(a) && AllDigits(b) && |a| > 0 && units == Value(a) * Pow10(|b|) + Value(b)
    ensures Number(a, b) == Some(units as real / Pow10(|b|) as real)
  {
    PointValue(Value(a), Value(b), Pow10(|b|));
  }

  /** A number as printed: not empty, without a comma, and with a digit at its end. */
  predicate NumberText(s: string) {
    && s != "" && IsDigit(s[|s| - 1])
    && forall i :: 0 <= i < |s| ==> InNumber(s[i]) && s[i] != ','
  }

  lemma ParseSeconds(units: nat, decimals: nat)
    ensures var s := SecondsText(units, decimals);
            NumberText(s) && ParseFloat(s) == Some(units as real / Pow10(decimals) as real)
  {
    if decimals == 0 {
      ParseWholeSeconds(units);
    } else {
      var a, b := SecondsHavePoint(units, decimals);
      ParsePoint(a, b);
      NumberOf(a, b, units);
      PointText(a, b);
    }
  }

  lemma ParseWholeSeconds(units: nat)
    ensures NumberText(SecondsText(units, 0))
    ensures ParseFloat(SecondsText(units, 0)) == Some(units as real / Pow10(0) as real)
  {
    var d := Digits(units);
    PadLeftValue(d, 1);
    PadLeftValue(PadLeft(d, 1), 2);
    DigitsValue(units);
    ParseWhole(SecondsText(units, 0));
    NumberOf(SecondsText(units, 0), "", units);
  }

  lemma PointText(a: string, b: string)
    requires AllDigits(a) && AllDigits(b) && |b| > 0
    ensures NumberText(a + "." + b)
  {
  }

  // ----- The whole reading

  lemma FieldOf(digits: string, rest: string)
    requires AllDigits(digits) && digits != "" && rest != "" && !IsSeparator(rest[0])
    ensures Field(digits + (":" + rest)) == Some((digits, rest))
  {
    TakeOf(digits, ":" + rest, IsDigit);
    TakeOf(":", rest, IsSeparator);
  }

  lemma MatchFields(text: string, atM: string, h: string, m: string, s: string, negative: bool)
    requires AllDigits(h) && AllDigits(m)
    requires Field(text) == Some((h, atM)) && Field(atM) == Some((m, s)) && s != "" && Take(s, InNumber).1 == ""
    ensures MatchUnsigned(text, negative) == Some(Reading(negative, h, m, s))
  {
  }

  lemma MatchPrinted(sign: string, h: string, m: string, s: string, atM: string, body: string)
    requires sign == "" || sign == "-" || sign == "+"
    requires AllDigits(h) && AllDigits(m) && h != "" && m != "" && NumberText(s)
    requires atM == m + (":" + s) && body == h + (":" + atM)
    ensures MatchSexagesimal(sign + body) == Some(Reading(sign == "-", h, m, s))
  {
    MatchBody(h, m, s, atM, body, sign == "-");
    UnsignedOf(sign, body);
  }

  lemma MatchBody(h: string, m: string, s: string, atM: string, body: string, negative: bool)
    requires AllDigits(h) && AllDigits(m) && h != "" && m != "" && NumberText(s)
    requires atM == m + (":" + s) && body == h + (":" + atM)
    ensures body != "" && IsDigit(body[0])
    ensures MatchUnsigned(body, negative) == Some(Reading(negative, h, m, s))
  {
    assert atM[0] == m[0] && body[0] == h[0];
    FieldOf(h, atM);
    FieldOf(m, s);
    TakeAll(s, InNumber);
    MatchFields(body, atM, h, m, s, negative);
  }

  lemma UnsignedOf(sign: string, body: string)
    requires sign == "" || sign == "-" || sign == "+"
    requires body != "" && IsDigit(body[0])
    ensures Unsigned(sign + body) == body && ((sign + body)[0] == '-' <==> sign == "-")
  {
    if sign == "" {
      assert sign + body == body;
    } else {
      assert (sign + body)[1..] == body;
    }
    assert "" + body == body;
    TakeOf("", body, IsSpace);
  }

  lemma TrimmedAlready(s: string)
    requires s != "" && !IsSpace(s[0]) && !IsSpace(s[|s| - 1])
    ensures Trim(s) == s
  {
    assert s[0..] == s;
  }

  /** Units of the last decimal in an hour or a degree. */
  function PerHour(decimals: nat): (d: real)
    ensures d > 0.0
  {
    (3600 * Pow10(decimals)) as real
  }

  /** The coordinate, in degrees, worth so many units. */
  function Degrees(negative: bool, total: int, isRa: bool, decimals: nat): real {
    var a := total as real / PerHour(decimals) * Scale(isRa);
    if negative then -a else a
  }

  lemma SumOfParts(h: nat, m: nat, units: nat, f: nat)
    requires f > 0
    ensures h as real + m as real / 60.0 + units as real / f as real / 3600.0
            == Worth(h * 60 + m, units, 60 * f) as real / (3600 * f) as real
  {
    var g := f as real;
    var u := units as real / g;
    assert u * g == units as real;
    var x := h as real + m as real / 60.0 + u / 3600.0;
    var w := Worth(h * 60 + m, units, 60 * f);
    WorthOfSeconds(h * 60 + m, units, f);
    WholeProduct(60 * (h * 60 + m), f);
    assert 3600.0 * x == (60 * (h * 60 + m)) as real + u;
    Distribute((60 * (h * 60 + m)) as real, u, g);
    assert 3600.0 * x * g == w as real;
    WholeProduct(3600, f);
    Quotient(x, w as real, 3600.0 * g);
  }

  lemma Quotient(x: real, w: real, d: real)
    requires d > 0.0 && x * d == w
    ensures x == w / d
  {
  }

  lemma SplitIsWorth(total: nat, minute: nat)
    requires minute > 0
    ensures var p := Split(total, minute); Worth(p.h * 60 + p.m, p.units, minute) == total
  {
    QuotBounds(total, minute);
  }

  lemma TextParts(sign: string, p: Parts, decimals: nat) returns (h: string, m: string, s: string)
    ensures h == Pad2(p.h) && m == Pad2(p.m) && s == SecondsText(p.units, decimals)
    ensures Text(sign, p, decimals) == sign + (h + (":" + (m + (":" + s))))
    ensures AllDigits(h) && AllDigits(m) && h != "" && m != "" && Value(h) == p.h && Value(m) == p.m
  {
    h, m, s := Pad2(p.h), Pad2(p.m), SecondsText(p.units, decimals);
    assert sign + h + ":" + m + ":" + s == sign + (h + (":" + (m + (":" + s))));
    PadLeftValue(Digits(p.h), 2);
    PadLeftValue(Digits(p.m), 2);
    DigitsValue(p.h);
    DigitsValue(p.m);
  }

  lemma CombinedParts(negative: bool, p: Parts, total: int, isRa: bool, decimals: nat)
    requires total == Worth(p.h * 60 + p.m, p.units, Minute(decimals))
    ensures Combined(negative, p.h, p.m, p.units as real / Pow10(decimals) as real, isRa)
            == Degrees(negative, total, isRa, decimals)
  {
    SumOfParts(p.h, p.m, p.units, Pow10(decimals));
  }

  lemma LastOf(a: string, b: string)
    requires b != ""
    ensures (a + b)[|a + b| - 1] == b[|b| - 1]
  {
  }

  lemma TrimPrinted(sign: string, h: string, body: string, rest: string, s: string)
    requires sign == "" || sign == "-" || sign == "+"
    requires AllDigits(h) && h != "" && NumberText(s)
    requires body == h + rest && rest != "" && rest[|rest| - 1] == s[|s| - 1]
    ensures sign + body != "" && Trim(sign + body) == sign + body
  {
    LastOf(h, rest);
    LastOf(sign, body);
    assert (sign + body)[0] == if sign == "" then h[0] else sign[0];
    TrimmedAlready(sign + body);
  }

  /** Whatever was printed is parsed to the very parts that were printed. */
  lemma ParseText(sign: string, p: Parts, total: int, isRa: bool, decimals: nat)
    requires sign == "" || sign == "-" || sign == "+"
    requires total == Worth(p.h * 60 + p.m, p.units, Minute(decimals))
    ensures ParseCoordinate(Text(sign, p, decimals), isRa) == Some(Degrees(sign == "-", total, isRa, decimals))
  {
    var h, m, s := TextParts(sign, p, decimals);
    ParseSeconds(p.units, decimals);
    NoComma(s);
    CombinedParts(sign == "-", p, total, isRa, decimals);
    var atM := m + (":" + s);
    MatchText(sign, h, m, s, atM, h + (":" + atM));
  }

  lemma MatchText(sign: string, h: string, m: string, s: string, atM: string, body: string)
    requires sign == "" || sign == "-" || sign == "+"
    requires AllDigits(h) && AllDigits(m) && h != "" && m != "" && NumberText(s)
    requires atM == m + (":" + s) && body == h + (":" + atM)
    ensures sign + body != "" && Trim(sign + body) == sign + body
    ensures MatchSexagesimal(sign + body) == Some(Reading(sign == "-", h, m, s))
  {
    LastOfBody(m, s, atM);
    TrimPrinted(sign, h, body, ":" + atM, s);
    MatchPrinted(sign, h, m, s, atM, body);
  }

  lemma LastOfBody(m: string, s: string, atM: string)
    requires s != "" && atM == m + (":" + s)
    ensures (":" + atM)[|":" + atM| - 1] == s[|s| - 1]
  {
    LastOf(":", s);
    LastOf(m, ":" + s);
    LastOf(":", atM);
  }

  /** A number of d-ths lies within half of one of what it was rounded from. */
  lemma RoundedIsNear(a: real, d: real, n: int)
    requires d > 0.0 && n == (a * d + 0.5).Floor
    ensures Abs(n as real / d - a) <= 0.5 / d
  {
    var x := n as real / d;
    assert x * d == n as real;
    Within(x - a, 0.5 / d, d);
    Within(a - x, 0.5 / d, d);
  }

  lemma Within(x: real, h: real, d: real)
    requires d > 0.0 && x * d <= h * d
    ensures x <= h
  {
    assert x == (x * d) / d;
    assert h == (h * d) / d;
  }

  lemma TotalIsNear(a: real, decimals: nat)
    requires a >= 0.0
    ensures Abs(Total(a, decimals) as real / PerHour(decimals) - a) <= 0.5 / PerHour(decimals)
  {
    var f := Pow10(decimals);
    WholeProduct(3600, f);
    assert a * 3600.0 * f as real == a * PerHour(decimals);
    RoundedIsNear(a, PerHour(decimals), Total(a, decimals));
  }

  lemma ScaledError(deg: real, isRa: bool, x: real, e: real)
    requires Abs(x - Abs(deg) / Scale(isRa)) <= e
    ensures Abs((if deg < 0.0 then -(x * Scale(isRa)) else x * Scale(isRa)) - deg) <= e * Scale(isRa)
  {
  }

  lemma DegreesAreNear(deg: real, isRa: bool, decimals: nat)
    ensures Abs(Degrees(deg < 0.0, Units(deg, isRa, decimals), isRa, decimals) - deg)
            <= 0.5 / PerHour(decimals) * Scale(isRa)
  {
    TotalIsNear(Abs(deg) / Scale(isRa), decimals);
    ScaledError(deg, isRa, Units(deg, isRa, decimals) as real / PerHour(decimals), 0.5 / PerHour(decimals));
  }

  /** Parsing what was printed gives back what it is worth in units of the last printed decimal. */
  lemma ParsePrinted(deg: real, isRa: bool, decimals: nat)
    ensures ParseCoordinate(Printed(deg, isRa, decimals), isRa)
            == Some(Degrees(deg < 0.0, Units(deg, isRa, decimals), isRa, decimals))
  {
    var total := Units(deg, isRa, decimals);
    SplitIsWorth(total, Minute(decimals));
    ParseText(SignOf(deg, isRa), Split(total, Minute(decimals)), total, isRa, decimals);
  }

  /**
    So it gives back the coordinate, within half a unit of the last printed decimal of a
    second, of fifteen times that for a right ascension.
  */
  lemma RoundTrip(deg: real, isRa: bool, decimals: nat)
    ensures var r := ParseCoordinate(Printed(deg, isRa, decimals), isRa);
            r.Some? && Abs(r.value - deg) <= 0.5 / PerHour(decimals) * Scale(isRa)
  {
    ParsePrinted(deg, isRa, decimals);
    DegreesAreNear(deg, isRa, decimals);
  }

  lemma UnitsOfDegrees(negative: bool, total: nat, isRa: bool, decimals: nat)
    ensures var deg := Degrees(negative, total, isRa, decimals);
            && (deg < 0.0 <==> negative && total > 0)
            && Units(deg, isRa, decimals) == total
  {
    var d := PerHour(decimals);
    var x := total as real / d;
    assert x * d == total as real;
    assert total > 0 ==> x > 0.0;
    assert Abs(Degrees(negative, total, isRa, decimals)) / Scale(isRa) == x;
    var f := Pow10(decimals);
    WholeProduct(3600, f);
    assert x * 3600.0 * f as real == x * d;
  }

  lemma SignsDiffer(p: Parts, isRa: bool, decimals: nat)
    ensures Text("-", p, decimals) != Text(if isRa then "" else "+", p, decimals)
  {
    var h, m, s := TextParts("-", p, decimals);
    var _, _, _ := TextParts("", p, decimals);
    var _, _, _ := TextParts("+", p, decimals);
    var body := h + (":" + (m + (":" + s)));
    assert "" + body == body && |"-" + body| == |body| + 1;
    assert ("-" + body)[0] == '-' && ("+" + body)[0] == '+';
  }

  /**
    Printing what was parsed from a printed text gives the same text again, unless a
    negative coordinate was rounded to zero: that one loses its sign.
  */
  lemma ReprintIsSame(deg: real, isRa: bool, decimals: nat)
    ensures var text := Printed(deg, isRa, decimals);
            var r := ParseCoordinate(text, isRa);
            r.Some? && (Printed(r.value, isRa, decimals) == text <==> deg >= 0.0 || Units(deg, isRa, decimals) > 0)
  {
    ParsePrinted(deg, isRa, decimals);
    var total := Units(deg, isRa, decimals);
    UnitsOfDegrees(deg < 0.0, total, isRa, decimals);
    SignsDiffer(Split(total, Minute(decimals)), isRa, decimals);
  }

  // ----- What is typed

  predicate AllOf(s: string, kind: char -> bool) {
    forall i :: 0 <= i < |s| ==> kind(s[i])
  }

  predicate IsSign(s: string) {
    s == "" || s == "+" || s == "-"
  }

  /** A number as typed: digits, perhaps with a point or a comma among them. */
  predicate Typed(whole: string, mark: string, decimals: string) {
    && AllDigits(whole) && AllDigits(decimals) && whole + decimals != ""
    && (mark == "." || mark == "," || (mark == "" && decimals == ""))
  }

  function TypedValue(whole: string, decimals: string): real
    requires AllDigits(whole) && AllDigits(decimals)
  {
    Value(whole) as real + Value(decimals) as real / Pow10(|decimals|) as real
  }

  lemma {:induction false} FirstComma(whole: string, rest: string)
    requires AllDigits(whole)
    ensures CommaToPoint(whole + rest) == whole + CommaToPoint(rest)
  {
    if whole == "" {
      assert whole + rest == rest;
    } else {
      FirstComma(whole[1..], rest);
      assert (whole + rest)[1..] == whole[1..] + rest;
      assert whole == [whole[0]] + whole[1..];
    }
  }

  lemma MarkToPoint(mark: string, decimals: string)
    requires AllDigits(decimals) && (mark == "." || mark == ",")
    ensures CommaToPoint(mark + decimals) == "." + decimals
  {
    var t := mark + decimals;
    assert t[1..] == decimals;
    NoComma(decimals);
  }

  lemma NumberMarked(whole: string, mark: string, decimals: string)
    requires Typed(whole, mark, decimals) && mark != ""
    ensures ParseFloat(CommaToPoint(whole + (mark + decimals))) == Number(whole, decimals)
  {
    FirstComma(whole, mark + decimals);
    MarkToPoint(mark, decimals);
    Associative(whole, ".", decimals);
    ParsePoint(whole, decimals);
  }

  lemma NumberUnmarked(whole: string)
    requires AllDigits(whole)
    ensures ParseFloat(CommaToPoint(whole)) == Number(whole, "")
  {
    NoComma(whole);
    ParseWhole(whole);
  }

  lemma NumberTyped(whole: string, mark: string, decimals: string, s: string)
    requires Typed(whole, mark, decimals) && s == whole + (mark + decimals)
    ensures ParseFloat(CommaToPoint(s)) == Some(TypedValue(whole, decimals))
  {
    NumberIsValue(whole, decimals);
    if mark == "" {
      Unmarked(whole, mark, decimals, s);
      NumberUnmarked(whole);
    } else {
      NumberMarked(whole, mark, decimals);
    }
  }

  lemma NumberIsValue(whole: string, decimals: string)
    requires AllDigits(whole) && AllDigits(decimals) && whole + decimals != ""
    ensures Number(whole, decimals) == Some(TypedValue(whole, decimals))
  {
  }

  lemma Unmarked(whole: string, mark: string, decimals: string, s: string)
    requires s == whole + (mark + decimals) && mark == "" && decimals == ""
    ensures s == whole && decimals == ""
  {
  }

  lemma FieldTyped(digits: string, separators: string, rest: string)
    requires AllDigits(digits) && digits != "" && separators != "" && AllOf(separators, IsSeparator)
    requires rest != "" && !IsSeparator(rest[0])
    ensures Field(digits + (separators + rest)) == Some((digits, rest))
  {
    TakeOf(digits, separators + rest, IsDigit);
    TakeOf(separators, rest, IsSeparator);
  }

  /** Blanks around a text that has none at its ends are not read. */
  lemma BlanksAround(before: string, core: string, after: string)
    requires AllOf(before, IsSpace) && AllOf(after, IsSpace)
    requires core != "" && !IsSpace(core[0]) && !IsSpace(core[|core| - 1])
    ensures Trim(before + (core + after)) == core
  {
    RunOf(before, core + after, IsSpace);
    BlanksAfter(core, after);
  }

  lemma {:induction false} BlanksAfter(core: string, after: string)
    requires AllOf(after, IsSpace) && core != "" && !IsSpace(core[|core| - 1])
    ensures TrimEnd(core + after) == core
    decreases |after|
  {
    if after == "" {
      assert core + after == core;
    } else {
      var n := |after| - 1;
      BlanksAfter(core, after[..n]);
      assert (core + after)[..|core + after| - 1] == core + after[..n];
    }
  }

  lemma EndsOfTyped(whole: string, mark: string, decimals: string)
    requires Typed(whole, mark, decimals)
    ensures var s := whole + (mark + decimals);
            s != "" && AllOf(s, InNumber) && !IsSpace(s[|s| - 1]) && !IsSeparator(s[0])
  {
  }

  lemma BodyTyped(h: string, sep: string, m: string, sep': string, s: string, negative: bool)
    requires AllDigits(h) && AllDigits(m) && h != "" && m != "" && sep != "" && sep' != ""
    requires AllOf(sep, IsSeparator) && AllOf(sep', IsSeparator)
    requires s != "" && AllOf(s, InNumber) && !IsSeparator(s[0]) && !IsSpace(s[|s| - 1])
    ensures var body := h + (sep + (m + (sep' + s)));
            && body[0] == h[0] && body[|body| - 1] == s[|s| - 1]
            && MatchUnsigned(body, negative) == Some(Reading(negative, h, m, s))
  {
    var atM := m + (sep' + s);
    EndsOfBody(h, sep, m, sep', s, atM, h + (sep + atM));
    MatchTyped(h, sep, m, sep', s, atM, h + (sep + atM), negative);
  }

  lemma EndsOfBody(h: string, sep: string, m: string, sep': string, s: string, atM: string, body: string)
    requires h != "" && m != "" && s != "" && atM == m + (sep' + s) && body == h + (sep + atM)
    ensures body[0] == h[0] && atM[0] == m[0] && body[|body| - 1] == s[|s| - 1]
  {
    LastOf(sep', s);
    LastOf(m, sep' + s);
    LastOf(sep, atM);
    LastOf(h, sep + atM);
  }

  lemma MatchTyped(h: string, sep: string, m: string, sep': string, s: string, atM: string, body: string,
                   negative: bool)
    requires AllDigits(h) && AllDigits(m) && h != "" && m != "" && sep != "" && sep' != ""
    requires AllOf(sep, IsSeparator) && AllOf(sep', IsSeparator)
    requires s != "" && AllOf(s, InNumber) && !IsSeparator(s[0])
    requires atM == m + (sep' + s) && body == h + (sep + atM) && atM[0] == m[0]
    ensures MatchUnsigned(body, negative) == Some(Reading(negative, h, m, s))
  {
    FieldTyped(h, sep, atM);
    FieldTyped(m, sep', s);
    TakeAll(s, InNumber);
    MatchFields(body, atM, h, m, s, negative);
  }

  /**
    Three numbers are read with any colons and blanks between them, a sign before and
    blanks around, the seconds with a point or a comma.
  */
  lemma SexagesimalTyped(before: string, sign: string, h: string, sep: string, m: string, sep': string,
                         whole: string, mark: string, decimals: string, after: string, isRa: bool)
    requires AllOf(before, IsSpace) && AllOf(after, IsSpace) && IsSign(sign)
    requires AllDigits(h) && AllDigits(m) && h != "" && m != "" && sep != "" && sep' != ""
    requires AllOf(sep, IsSeparator) && AllOf(sep', IsSeparator) && Typed(whole, mark, decimals)
    ensures var core := sign + (h + (sep + (m + (sep' + (whole + (mark + decimals))))));
            ParseCoordinate(before + (core + after), isRa)
            == Some(Combined(sign == "-", Value(h), Value(m), TypedValue(whole, decimals), isRa))
  {
    var s := whole + (mark + decimals);
    var body := h + (sep + (m + (sep' + s)));
    EndsOfTyped(whole, mark, decimals);
    BodyTyped(h, sep, m, sep', s, sign == "-");
    NumberTyped(whole, mark, decimals, s);
    ReadBody(before, sign, body, after, Reading(sign == "-", h, m, s), isRa);
  }

  lemma ReadBody(before: string, sign: string, body: string, after: string, r: Reading, isRa: bool)
    requires AllOf(before, IsSpace) && AllOf(after, IsSpace) && IsSign(sign)
    requires body != "" && IsDigit(body[0]) && !IsSpace(body[|body| - 1])
    requires AllDigits(r.h) && AllDigits(r.m) && MatchUnsigned(body, sign == "-") == Some(r)
    ensures ParseCoordinate(before + (sign + body + after), isRa) == ReadingValue(r, isRa)
  {
    UnsignedOf(sign, body);
    CoreTyped(before, sign, body, after);
    ParseMatched(before + (sign + body + after), sign + body, r, isRa);
  }

  lemma ParseMatched(str: string, core: string, r: Reading, isRa: bool)
    requires Trim(str) == core && core != "" && AllDigits(r.h) && AllDigits(r.m)
    requires MatchUnsigned(Unsigned(core), core[0] == '-') == Some(r)
    ensures ParseCoordinate(str, isRa) == ReadingValue(r, isRa)
  {
  }

  lemma CoreTyped(before: string, sign: string, body: string, after: string)
    requires AllOf(before, IsSpace) && AllOf(after, IsSpace) && IsSign(sign)
    requires body != "" && !IsSpace(body[0]) && !IsSpace(body[|body| - 1])
    ensures Trim(before + (sign + body + after)) == sign + body != ""
  {
    LastOf(sign, body);
    assert (sign + body)[0] == if sign == "" then body[0] else sign[0];
    BlanksAround(before, sign + body, after);
  }

  lemma ParseUnmatched(str: string, core: string, isRa: bool)
    requires Trim(str) == core && core != "" && MatchSexagesimal(core) == None
    ensures ParseCoordinate(str, isRa) == ParsePlain(core)
  {
  }

  /** One number is read as degrees, also as a right ascension. */
  lemma DecimalTyped(before: string, sign: string, whole: string, mark: string, decimals: string, after: string,
                     number: string, isRa: bool)
    requires AllOf(before, IsSpace) && AllOf(after, IsSpace) && IsSign(sign) && Typed(whole, mark, decimals)
    requires number == whole + (mark + decimals)
    ensures ParseCoordinate(before + (sign + number + after), isRa)
            == Some(if sign == "-" then -TypedValue(whole, decimals) else TypedValue(whole, decimals))
  {
    EndsOfNumber(whole, mark, decimals, number);
    NotThreeNumbers(sign, whole, mark, decimals, number);
    DecimalValue(sign, whole, mark, decimals, number);
    ReadPlain(before, sign, number, after, isRa);
  }

  lemma EndsOfNumber(whole: string, mark: string, decimals: string, number: string)
    requires Typed(whole, mark, decimals) && number == whole + (mark + decimals)
    ensures number != "" && !IsSpace(number[0]) && !IsSpace(number[|number| - 1])
  {
    EndsOfTyped(whole, mark, decimals);
    NotSeparator(number);
  }

  lemma NotSeparator(s: string)
    requires s != "" && !IsSeparator(s[0])
    ensures !IsSpace(s[0])
  {
  }

  lemma DecimalValue(sign: string, whole: string, mark: string, decimals: string, s: string)
    requires IsSign(sign) && Typed(whole, mark, decimals) && s == whole + (mark + decimals)
    ensures ParsePlain(sign + s)
            == Some(if sign == "-" then -TypedValue(whole, decimals) else TypedValue(whole, decimals))
  {
    EndsOfTyped(whole, mark, decimals);
    NumberTyped(whole, mark, decimals, s);
    NotSign(s);
    SignedTyped(sign + s, sign, s, CommaToPoint(s), TypedValue(whole, decimals));
  }

  lemma NotSign(s: string)
    requires s != "" && AllOf(s, InNumber)
    ensures s[0] != '+' && s[0] != '-'
  {
    assert InNumber(s[0]);
  }

  lemma ReadPlain(before: string, sign: string, s: string, after: string, isRa: bool)
    requires AllOf(before, IsSpace) && AllOf(after, IsSpace) && IsSign(sign)
    requires s != "" && !IsSpace(s[0]) && !IsSpace(s[|s| - 1]) && MatchSexagesimal(sign + s) == None
    ensures ParseCoordinate(before + (sign + s + after), isRa) == ParsePlain(sign + s)
  {
    CoreTyped(before, sign, s, after);
    ParseUnmatched(before + (sign + s + after), sign + s, isRa);
  }

  /** No field without separators. */
  lemma NoField(digits: string, rest: string)
    requires AllDigits(digits) && (rest == "" || (!IsDigit(rest[0]) && !IsSeparator(rest[0])))
    ensures Field(digits + rest) == None
  {
    TakeOf(digits, rest, IsDigit);
    assert "" + rest == rest;
    TakeOf("", rest, IsSeparator);
  }

  lemma UnsignedPlain(sign: string, s: string)
    requires IsSign(sign) && s != "" && s[0] != '+' && s[0] != '-' && !IsSpace(s[0])
    ensures Unsigned(sign + s) == s
  {
    if sign == "" {
      assert sign + s == s;
    } else {
      assert (sign + s)[1..] == s;
    }
    assert "" + s == s;
    TakeOf("", s, IsSpace);
  }

  lemma NotThreeNumbers(sign: string, whole: string, mark: string, decimals: string, s: string)
    requires IsSign(sign) && Typed(whole, mark, decimals) && s == whole + (mark + decimals)
    ensures MatchSexagesimal(sign + s) == None
  {
    EndsOfTyped(whole, mark, decimals);
    assert InNumber(s[0]);
    NoField(whole, mark + decimals);
    Unmatched(sign, s);
  }

  lemma Unmatched(sign: string, s: string)
    requires IsSign(sign) && s != "" && InNumber(s[0]) && Field(s) == None
    ensures MatchSexagesimal(sign + s) == None
  {
    UnsignedPlain(sign, s);
  }

  lemma SignedTyped(full: string, sign: string, s: string, x: string, value: real)
    requires IsSign(sign) && s != "" && s[0] != '+' && s[0] != '-' && full == sign + s
    requires x == CommaToPoint(s) && ParseFloat(x) == Some(value)
    ensures ParsePlain(full) == Some(if sign == "-" then -value else value)
  {
    SignKept(sign, s);
    FirstOfPoint(s);
    PlainSigned(full, sign, x, value);
  }

  lemma FirstOfPoint(s: string)
    requires s != ""
    ensures CommaToPoint(s) != "" && (CommaToPoint(s)[0] == s[0] || CommaToPoint(s)[0] == '.')
  {
  }

  lemma PlainSigned(full: string, sign: string, x: string, value: real)
    requires CommaToPoint(full) == sign + x && IsSign(sign)
    requires x != "" && x[0] != '+' && x[0] != '-' && ParseFloat(x) == Some(value)
    ensures ParsePlain(full) == Some(if sign == "-" then -value else value)
  {
    if sign == "" {
      assert sign + x == x;
    } else {
      assert (sign + x)[1..] == x;
    }
  }

  lemma SignKept(sign: string, s: string)
    requires IsSign(sign) && s != ""
    ensures CommaToPoint(sign + s) == sign + CommaToPoint(s)
  {
    if sign == "" {
      assert sign + s == s;
    } else {
      assert (sign + s)[1..] == s;
    }
  }

  /** Nothing typed is nothing read, and so is a text that begins with neither digit, point nor sign. */
  lemma NothingTyped(before: string, rest: string, isRa: bool)
    requires AllOf(before, IsSpace)
    requires rest == "" || !(IsDigit(rest[0]) || IsSpace(rest[0]) || rest[0] in ".,+-")
    ensures ParseCoordinate(before + rest, isRa) == None
  {
    RunOf(before, rest, IsSpace);
    assert (before + rest)[|before|..] == rest;
    TrimEndBegins(rest);
    if TrimEnd(rest) != "" {
      NoNumber(TrimEnd(rest));
      ParseUnmatched(before + rest, TrimEnd(rest), isRa);
    }
  }

  lemma NoNumber(s: string)
    requires s != "" && !(IsDigit(s[0]) || IsSpace(s[0]) || s[0] in ".,+-")
    ensures MatchSexagesimal(s) == None && ParsePlain(s) == None
  {
    NoReading(s);
    FirstStays(s);
    NoDigits(CommaToPoint(s));
  }

  lemma NoReading(s: string)
    requires s != "" && !IsDigit(s[0]) && !IsSpace(s[0]) && s[0] != '+' && s[0] != '-'
    ensures MatchSexagesimal(s) == None
  {
    assert "" + s == s;
    UnsignedPlain("", s);
    TakeOf("", s, IsDigit);
  }

  lemma FirstStays(s: string)
    requires s != "" && s[0] != ','
    ensures CommaToPoint(s) != "" && CommaToPoint(s)[0] == s[0]
  {
  }

  lemma NoDigits(t: string)
    requires t != "" && !IsDigit(t[0]) && t[0] != '.'
    ensures ParseFloat(t) == None
  {
    assert "" + t == t;
    TakeOf("", t, IsDigit);
  }

  lemma {:induction false} TrimEndBegins(s: string)
    ensures TrimEnd(s) <= s
  {
    if s != "" && IsSpace(s[|s| - 1]) {
      TrimEndBegins(s[..|s| - 1]);
    }
  }

  /** An hour is fifteen degrees, printed and parsed. */
  lemma HourIsFifteenDegrees(x: real, decimals: nat, negative: bool, h: nat, m: nat, s: real)
    ensures Units(15.0 * x, true, decimals) == Units(x, false, decimals)
    ensures Combined(negative, h, m, s, true) == 15.0 * Combined(negative, h, m, s, false)
    ensures Combined(negative, h, m, s, false)
            == (h as real + m as real / 60.0 + s / 3600.0) * (if negative then -1.0 else 1.0)
  {
    assert Abs(15.0 * x) / 15.0 == Abs(x) == Abs(x) / 1.0;
  }
}
