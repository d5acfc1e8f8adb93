/** Alert thresholds: the percentage text a user types, as a whole number of hundredths, and the
    target price computed from it. */
module Percent {
  import opened Tables

  predicate IsDigit(c: char) { '0' <= c <= '9' }

  predicate Digits(s: string) { forall i | 0 <= i < |s| :: IsDigit(s[i]) }

  /** The number a digit string denotes. */
  function Number(s: string): nat
    requires Digits(s)
  {
    if s == "" then 0 else 10 * Number(s[..|s| - 1]) + (s[|s| - 1] as int - '0' as int)
  }

  /* ---- Parsing ---- */

  /** Whether a minus sign is written, and the text behind the sign, if any. */
  function Sign(t: string): (bool, string) {
    if t != "" && t[0] == '-' then (true, t[1..]) else if t != "" && t[0] == '+' then (false, t[1..]) else (false, t)
  }

  function Signed(negative: bool, n: nat): int { if negative then 0 - n else n }

  function Unit(t: string): string {
    if t != "" && t[|t| - 1] == '%' then t[..|t| - 1] else t
  }

  /** Length of the leading digits. */
  function Leading(t: string): (n: nat)
    ensures n <= |t| && Digits(t[..n]) && (n < |t| ==> !IsDigit(t[n]))
  {
    if t == "" || !IsDigit(t[0]) then 0 else
      assert t[..1 + Leading(t[1..])] == [t[0]] + t[1..][..Leading(t[1..])];
      1 + Leading(t[1..])
  }

  /** Hundredths from one or two fraction digits. */
  function Hundredths(frac: string): nat
    requires Digits(frac)
  {
    if |frac| == 1 then 10 * Number(frac) else Number(frac)
  }

  /** One to four digits, optionally a separator with one or two more; in hundredths. */
  function Magnitude(body: string): Option<nat> {
    var n := Leading(body);
    if !(1 <= n <= 4) then None
    else if n == |body| then Some(100 * Number(body[..n]))
    else if (body[n] == '.' || body[n] == ',') && 1 <= |body| - n - 1 <= 2 && Digits(body[n + 1..])
    then Some(100 * Number(body[..n]) + Hundredths(body[n + 1..]))
    else None
  }

  /** parseAlertPercent: an optional sign before the number and an optional percent sign behind it;
      zero and anything outside [-99.99, 1000] is refused. */
  function Parse(t: string): Option<int> {
    var m := Magnitude(Unit(Sign(t).1));
    if m.Some? && ValidPct(Signed(Sign(t).0, m.value)) then Some(Signed(Sign(t).0, m.value)) else None
  }

  /* ---- The grammar, written the other way round ---- */

  datatype Mark = Unmarked | Plus | Minus

  datatype Text = Text(mark: Mark, whole: string, separator: Option<char>, fraction: string, unit: bool)

  predicate WellFormed(x: Text) {
    && 1 <= |x.whole| <= 4 && Digits(x.whole) && Digits(x.fraction)
    && match x.separator {
         case None => x.fraction == ""
         case Some(c) => (c == '.' || c == ',') && 1 <= |x.fraction| <= 2
       }
  }

  function MarkText(m: Mark): string { match m case Unmarked => "" case Plus => "+" case Minus => "-" }

  function Body(x: Text): string {
    if x.separator.Some? then x.whole + [x.separator.value] + x.fraction else x.whole
  }

  function UnitText(unit: bool): string { if unit then "%" else "" }

  function Render(x: Text): string { MarkText(x.mark) + (Body(x) + UnitText(x.unit)) }

  /** What the text means, in hundredths. */
  function Meaning(x: Text): int
    requires WellFormed(x)
  {
    Signed(x.mark.Minus?, 100 * Number(x.whole) + Hundredths(x.fraction))
  }

  lemma LeadingIs(t: string, n: nat)
    requires n <= |t| && Digits(t[..n]) && (n < |t| ==> !IsDigit(t[n]))
    ensures Leading(t) == n
  {
    var m := Leading(t);
    forall i | 0 <= i < n ensures IsDigit(t[i]) { assert t[..n][i] == t[i]; }
    forall i | 0 <= i < m ensures IsDigit(t[i]) { assert t[..m][i] == t[i]; }
  }

  lemma SignOf(m: Mark, rest: string)
    requires rest != "" && IsDigit(rest[0])
    ensures Sign(MarkText(m) + rest) == (m.Minus?, rest)
  {
    var t := MarkText(m) + rest;
    match m
    case Unmarked => assert t == rest;
    case _ => assert t[1..] == rest;
  }

  lemma UnitOf(body: string, unit: bool)
    requires body != "" && IsDigit(body[|body| - 1])
    ensures Unit(body + UnitText(unit)) == body
  {
  }

  lemma MagnitudeOf(x: Text)
    requires WellFormed(x)
    ensures Magnitude(Body(x)) == Some(100 * Number(x.whole) + Hundredths(x.fraction))
  {
    var body := Body(x);
    assert body[..|x.whole|] == x.whole;
    LeadingIs(body, |x.whole|);
    if x.separator.Some? { assert body[|x.whole| + 1..] == x.fraction; }
  }

  /** Every accepted spelling of a supported threshold parses to what it means; every other spelling
      in the grammar is refused. */
  lemma ParseRenders(x: Text)
    requires WellFormed(x)
    ensures Parse(Render(x)) == if ValidPct(Meaning(x)) then Some(Meaning(x)) else None
  {
    MagnitudeOf(x);
    ParseMagnitude(x, 100 * Number(x.whole) + Hundredths(x.fraction));
  }

  lemma ParseMagnitude(x: Text, m: nat)
    requires WellFormed(x) && Magnitude(Body(x)) == Some(m)
    ensures Parse(Render(x)) == if ValidPct(Signed(x.mark.Minus?, m)) then Some(Signed(x.mark.Minus?, m)) else None
  {
    BodyEnds(x);
    ParseText(Render(x), x.mark, Body(x), x.unit, m);
  }

  lemma ParseText(t: string, mark: Mark, body: string, unit: bool, m: nat)
    requires t == MarkText(mark) + (body + UnitText(unit)) && Magnitude(body) == Some(m)
    requires body != "" && IsDigit(body[0]) && IsDigit(body[|body| - 1])
    ensures Parse(t) == if ValidPct(Signed(mark.Minus?, m)) then Some(Signed(mark.Minus?, m)) else None
  {
    var rest := body + UnitText(unit);
    assert rest[0] == body[0];
    SignOf(mark, rest);
    UnitOf(body, unit);
  }

  lemma BodyEnds(x: Text)
    requires WellFormed(x)
    ensures Body(x) != "" && IsDigit(Body(x)[0]) && IsDigit(Body(x)[|Body(x)| - 1])
  {
    assert IsDigit(x.whole[0]) && IsDigit(x.whole[|x.whole| - 1]);
    if x.separator.Some? { assert IsDigit(x.fraction[|x.fraction| - 1]); }
  }

  lemma MagnitudeSound(body: string, mark: Mark, unit: bool) returns (x: Text)
    requires Magnitude(body).Some?
    ensures WellFormed(x) && Body(x) == body && x.mark == mark && x.unit == unit
  {
    var n := Leading(body);
    if n < |body| {
      x := Text(mark, body[..n], Some(body[n]), body[n + 1..], unit);
    } else {
      x := Text(mark, body[..n], None, "", unit);
    }
    assert Body(x) == body;
  }

  lemma SignSound(t: string) returns (mark: Mark)
    ensures t == MarkText(mark) + Sign(t).1 && Sign(t).0 == mark.Minus?
  {
    mark := if t != "" && t[0] == '-' then Minus else if t != "" && t[0] == '+' then Plus else Unmarked;
    assert mark.Unmarked? || t == [t[0]] + t[1..];
  }

  lemma UnitSound(rest: string) returns (unit: bool)
    ensures rest == Unit(rest) + UnitText(unit)
  {
    unit := rest != "" && rest[|rest| - 1] == '%';
    assert unit ==> rest == rest[..|rest| - 1] + [rest[|rest| - 1]];
  }

  lemma Spelling(t: string) returns (x: Text)
    requires Magnitude(Unit(Sign(t).1)).Some?
    ensures WellFormed(x) && Render(x) == t
  {
    var rest := Sign(t).1;
    var mark := SignSound(t);
    var unit := UnitSound(rest);
    x := MagnitudeSound(Unit(rest), mark, unit);
    assert MarkText(mark) + rest == MarkText(x.mark) + (Body(x) + UnitText(x.unit));
  }

  /** Whatever is accepted has that grammar, and the result is what it means. */
  lemma ParseSound(t: string) returns (x: Text)
    requires Parse(t).Some?
    ensures WellFormed(x) && Render(x) == t && Parse(t) == Some(Meaning(x)) && ValidPct(Meaning(x))
  {
    x := Spelling(t);
    ParseRenders(x);
  }

  /* ---- Printing ---- */

  function Digit(n: nat): char
    requires n < 10
  {
    '0' + n as char
  }

  /** Decimal digits without leading zeros. */
  function Decimal(n: nat): (s: string)
    ensures |s| >= 1 && Digits(s) && Number(s) == n
  {
    if n < 10 then
      assert [Digit(n)][..0] == "";
      [Digit(n)]
    else
      var s := Decimal(n / 10) + [Digit(n % 10)];
      assert s[..|s| - 1] == Decimal(n / 10);
      s
  }

  lemma {:induction false} DecimalLength(n: nat, k: nat)
    requires k >= 1 && n < Power10(k)
    ensures |Decimal(n)| <= k
  {
    if n >= 10 { DecimalLength(n / 10, k - 1); }
  }

  function Power10(k: nat): nat { if k == 0 then 1 else 10 * Power10(k - 1) }

  /** The `%+.2f` form used in lists and messages. */
  function Print(p: int): string {
    var a := if p < 0 then -p else p;
    (if p < 0 then "-" else "+") + Decimal(a / 100) + "." + [Digit(a % 100 / 10), Digit(a % 10)]
  }

  lemma TwoDigits(a: nat)
    ensures var s := [Digit(a % 100 / 10), Digit(a % 10)]; Digits(s) && Number(s) == a % 100
  {
    var s := [Digit(a % 100 / 10), Digit(a % 10)];
    assert s[..1] == [Digit(a % 100 / 10)] && s[..1][..0] == "";
    assert Number(s[..1]) == a % 100 / 10;
    assert a % 100 == 10 * (a % 100 / 10) + a % 100 % 10;
    assert a % 100 % 10 == a % 10;
  }

  function Printed(p: int, unit: bool): Text {
    var a := if p < 0 then -p else p;
    Text(if p < 0 then Minus else Plus, Decimal(a / 100), Some('.'), [Digit(a % 100 / 10), Digit(a % 10)], unit)
  }

  lemma PrintMeans(a: nat)
    requires a <= 100000
    ensures |Decimal(a / 100)| <= 4 && Hundredths([Digit(a % 100 / 10), Digit(a % 10)]) == a % 100
    ensures 100 * Number(Decimal(a / 100)) + a % 100 == a
  {
    TwoDigits(a);
    assert Power10(4) == 10000 by { assert Power10(2) == 100; }
    DecimalLength(a / 100, 4);
  }

  lemma PrintRenders(p: int, unit: bool)
    requires ValidPct(p)
    ensures WellFormed(Printed(p, unit)) && Meaning(Printed(p, unit)) == p
    ensures Render(Printed(p, unit)) == Print(p) + UnitText(unit)
  {
    var a := if p < 0 then -p else p;
    PrintMeans(a);
    TwoDigits(a);
    PrintSpells(if p < 0 then Minus else Plus, Decimal(a / 100), [Digit(a % 100 / 10), Digit(a % 10)], unit);
  }

  lemma PrintSpells(mark: Mark, whole: string, fraction: string, unit: bool)
    ensures Render(Text(mark, whole, Some('.'), fraction, unit)) ==
      MarkText(mark) + whole + "." + fraction + UnitText(unit)
  {
  }

  /** Parsing undoes printing, with or without the percent sign behind it. */
  lemma PrintParses(p: int)
    requires ValidPct(p)
    ensures Parse(Print(p)) == Some(p) && Parse(Print(p) + "%") == Some(p)
  {
    PrintRenders(p, false);
    PrintRenders(p, true);
    ParseRenders(Printed(p, false));
    ParseRenders(Printed(p, true));
    assert Print(p) + "" == Print(p);
  }

  /** Two supported thresholds are told apart by their printed forms. */
  lemma PrintInjective(p: int, q: int)
    requires ValidPct(p) && ValidPct(q) && Print(p) == Print(q)
    ensures p == q
  {
    PrintParses(p);
    PrintParses(q);
  }

  /* ---- Targets ---- */

  lemma Shift(base: real, pct: int)
    ensures Target(base, pct) == base + base * pct as real / 10000.0
  {
  }

  /** The target is positive and strictly on the side of the base the sign asks for. */
  lemma TargetSide(base: real, pct: int)
    requires base > 0.0 && ValidPct(pct)
    ensures Target(base, pct) > 0.0
    ensures if pct > 0 then Target(base, pct) > base else Target(base, pct) < base
  {
    Shift(base, pct);
    if pct > 0 { assert base * pct as real > 0.0; } else { assert base * (-pct) as real > 0.0; }
    assert base * (10000 + pct) as real > 0.0;
  }

}
