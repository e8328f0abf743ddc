/** The texts in which a portable backup writes identifiers, times, dates and decimal numbers, and how they are read
    back. */
module PortableText {
  import opened Common
  import opened Calendar
  import opened Numbers

  /** A moment in UTC, to the microsecond. */
  datatype Moment = Moment(date: Date, hour: nat, minute: nat, second: nat, micros: nat)

  /** A decimal: `units` times ten to the minus `scale`, with its trailing zeroes. */
  datatype Number = Number(units: int, scale: nat)

  predicate ValidMoment(m: Moment) {
    && ValidDate(m.date) && m.date.year <= 9999
    && m.hour < 24 && m.minute < 60 && m.second < 60 && m.micros < 1_000_000
  }

  // ---- Digits ----

  const HEX := "0123456789abcdef"

  function DigitChar(d: nat): char
    requires d < 16
  {
    HEX[d]
  }

  function DigitValue(c: char, base: nat): Option<nat> {
    var d :=
      if '0' <= c <= '9' then c as int - '0' as int
      else if 'a' <= c <= 'f' then c as int - 'a' as int + 10
      else 16;
    if d < base then Some(d) else None
  }

  /** Exactly `width` digits, with leading zeroes. */
  function Padded(n: nat, base: nat, width: nat): (s: string)
    requires 2 <= base <= 16
    ensures |s| == width
    ensures forall i :: 0 <= i < |s| ==> DigitValue(s[i], base).Some?
  {
    if width == 0 then "" else Padded(n / base, base, width - 1) + [DigitChar(n % base)]
  }

  function ReadDigits(s: string, base: nat): Option<nat> {
    if |s| == 0 then Some(0) else
    match (ReadDigits(s[..|s| - 1], base), DigitValue(s[|s| - 1], base))
    case (Some(high), Some(low)) => Some(high * base + low)
    case _ => None
  }

  lemma DigitReadsBack(d: nat, base: nat)
    requires d < base <= 16
    ensures DigitValue(DigitChar(d), base) == Some(d)
  {
  }

  lemma SplitDigit(n: nat, base: nat)
    requires base >= 1
    ensures (n / base) * base + n % base == n && n % base < base
  {
  }

  lemma ReadAppended(s: string, c: char, base: nat)
    ensures ReadDigits(s + [c], base) ==
      if ReadDigits(s, base).Some? && DigitValue(c, base).Some?
      then Some(ReadDigits(s, base).value * base + DigitValue(c, base).value) else None
  {
  }

  lemma {:induction false} PaddedReadsBack(n: nat, base: nat, width: nat)
    requires 2 <= base <= 16 && n < Power(base, width)
    ensures ReadDigits(Padded(n, base, width), base) == Some(n)
  {
    if width > 0 {
      QuotientBelow(n, base, Power(base, width - 1));
      PaddedReadsBack(n / base, base, width - 1);
      SplitDigit(n, base);
      DigitReadsBack(n % base, base);
      ReadAppended(Padded(n / base, base, width - 1), DigitChar(n % base), base);
    }
  }

  lemma QuotientBelow(n: nat, base: nat, bound: nat)
    requires base >= 1 && n < base * bound
    ensures n / base < bound
  {
  }

  lemma Scaled(base: nat, a: nat, b: nat)
    ensures b <= a ==> base * b <= base * a
  {
  }

  // ---- Identifiers ----

  const UUIDS: nat := 0x1_0000_0000_0000_0000_0000_0000_0000_0000

  function UuidText(n: nat): string {
    var hex := Padded(n, 16, 32);
    hex[..8] + "-" + hex[8..12] + "-" + hex[12..16] + "-" + hex[16..20] + "-" + hex[20..]
  }

  function ReadUuid(s: string): Option<nat> {
    if |s| == 36 && s[8] == '-' && s[13] == '-' && s[18] == '-' && s[23] == '-'
    then ReadDigits(s[..8] + s[9..13] + s[14..18] + s[19..23] + s[24..], 16)
    else None
  }

  lemma HexPowers()
    ensures Power(16, 32) == UUIDS
  {
    assert Power(16, 4) == 0x1_0000 by { assert Power(16, 2) == 0x100; }
    PowerAdds(16, 4, 4);
    PowerAdds(16, 8, 8);
    PowerAdds(16, 16, 16);
  }

  lemma UuidReadsBack(n: nat)
    requires n < UUIDS
    ensures ReadUuid(UuidText(n)) == Some(n)
  {
    var hex, s := Padded(n, 16, 32), UuidText(n);
    HexPowers();
    PaddedReadsBack(n, 16, 32);
    assert s[..8] == hex[..8] && s[9..13] == hex[8..12] && s[14..18] == hex[12..16] && s[19..23] == hex[16..20];
    assert s[24..] == hex[20..];
    assert hex[..8] + hex[8..12] + hex[12..16] + hex[16..20] + hex[20..] == hex;
  }

  // ---- Dates and moments ----

  function DateText(d: Date): string
    requires 0 <= d.year && 0 <= d.month && 0 <= d.day
  {
    Padded(d.year, 10, 4) + "-" + Padded(d.month, 10, 2) + "-" + Padded(d.day, 10, 2)
  }

  function ReadDate(s: string): Option<Date> {
    if |s| != 10 || s[4] != '-' || s[7] != '-' then None else
    match (ReadDigits(s[..4], 10), ReadDigits(s[5..7], 10), ReadDigits(s[8..], 10))
    case (Some(y), Some(m), Some(d)) => if ValidDate(Date(y, m, d)) then Some(Date(y, m, d)) else None
    case _ => None
  }

  lemma DecimalPowers()
    ensures Power(10, 2) == 100 && Power(10, 4) == 10_000 && Power(10, 6) == 1_000_000
  {
  }

  lemma DateReadsBack(d: Date)
    requires ValidDate(d) && d.year <= 9999
    ensures |DateText(d)| == 10 && ReadDate(DateText(d)) == Some(d)
  {
    var s := DateText(d);
    DecimalPowers();
    PaddedReadsBack(d.year, 10, 4);
    PaddedReadsBack(d.month, 10, 2);
    PaddedReadsBack(d.day, 10, 2);
    assert s[..4] == Padded(d.year, 10, 4) && s[5..7] == Padded(d.month, 10, 2) && s[8..] == Padded(d.day, 10, 2);
  }

  /** `isoformat`: the fraction is written only when it is not zero. */
  function MomentText(m: Moment): string
    requires 0 <= m.date.year && 0 <= m.date.month && 0 <= m.date.day
  {
    DateText(m.date) + "T" + ClockText(m) + FractionText(m) + "+00:00"
  }

  function ReadClock(s: string): Option<(nat, nat, nat)> {
    if |s| != 8 || s[2] != ':' || s[5] != ':' then None else
    match (ReadDigits(s[..2], 10), ReadDigits(s[3..5], 10), ReadDigits(s[6..], 10))
    case (Some(h), Some(m), Some(sec)) => if h < 24 && m < 60 && sec < 60 then Some((h, m, sec)) else None
    case _ => None
  }

  function ReadMoment(s: string): Option<Moment> {
    if |s| != 25 && |s| != 32 then None else
    if s[10] != 'T' || s[|s| - 6..] != "+00:00" || (|s| == 32 && s[19] != '.') then None else
    match (ReadDate(s[..10]), ReadClock(s[11..19]), if |s| == 25 then Some(0) else ReadDigits(s[20..26], 10))
    case (Some(date), Some((h, m, sec)), Some(micros)) => Some(Moment(date, h, m, sec, micros))
    case _ => None
  }

  lemma ClockReadsBack(h: nat, m: nat, sec: nat)
    requires h < 24 && m < 60 && sec < 60
    ensures ReadClock(Padded(h, 10, 2) + ":" + Padded(m, 10, 2) + ":" + Padded(sec, 10, 2)) == Some((h, m, sec))
  {
    var s := Padded(h, 10, 2) + ":" + Padded(m, 10, 2) + ":" + Padded(sec, 10, 2);
    DecimalPowers();
    PaddedReadsBack(h, 10, 2);
    PaddedReadsBack(m, 10, 2);
    PaddedReadsBack(sec, 10, 2);
    assert s[..2] == Padded(h, 10, 2) && s[3..5] == Padded(m, 10, 2) && s[6..] == Padded(sec, 10, 2);
  }

  /** The pieces of a text that is put together from a date, a clock, a fraction and the offset. */
  lemma MomentPieces(date: string, clock: string, fraction: string)
    requires |date| == 10 && |clock| == 8 && (|fraction| == 0 || (|fraction| == 7 && fraction[0] == '.'))
    ensures var s := date + "T" + clock + fraction + "+00:00";
      && |s| == 25 + |fraction| && s[10] == 'T' && s[|s| - 6..] == "+00:00"
      && s[..10] == date && s[11..19] == clock
      && (|fraction| == 7 ==> s[19] == '.' && s[20..26] == fraction[1..])
  {
  }

  function ClockText(m: Moment): string {
    Padded(m.hour, 10, 2) + ":" + Padded(m.minute, 10, 2) + ":" + Padded(m.second, 10, 2)
  }

  function FractionText(m: Moment): string { if m.micros == 0 then "" else "." + Padded(m.micros, 10, 6) }

  lemma FractionReadsBack(m: Moment)
    requires 0 < m.micros < 1_000_000
    ensures ReadDigits(FractionText(m)[1..], 10) == Some(m.micros)
  {
    DecimalPowers();
    PaddedReadsBack(m.micros, 10, 6);
    assert FractionText(m)[1..] == Padded(m.micros, 10, 6);
  }

  lemma MomentReadsBack(m: Moment)
    requires ValidMoment(m)
    ensures ReadMoment(MomentText(m)) == Some(m)
  {
    DateReadsBack(m.date);
    ClockReadsBack(m.hour, m.minute, m.second);
    MomentPieces(DateText(m.date), ClockText(m), FractionText(m));
    assert MomentText(m) == DateText(m.date) + "T" + ClockText(m) + FractionText(m) + "+00:00";
    if m.micros != 0 {
      FractionReadsBack(m);
    }
  }

  // ---- Decimal numbers ----

  /** As many digits as the number has, at least one. */
  function Natural(n: nat): (s: string)
    ensures |s| >= 1 && forall i :: 0 <= i < |s| ==> DigitValue(s[i], 10).Some?
  {
    if n < 10 then [DigitChar(n)] else Natural(n / 10) + [DigitChar(n % 10)]
  }

  lemma {:induction false} NaturalReadsBack(n: nat)
    ensures ReadDigits(Natural(n), 10) == Some(n)
  {
    DigitReadsBack(n % 10, 10);
    if n < 10 {
      ReadAppended("", DigitChar(n), 10);
      assert Natural(n) == "" + [DigitChar(n)];
    } else {
      NaturalReadsBack(n / 10);
      ReadAppended(Natural(n / 10), DigitChar(n % 10), 10);
    }
  }

  function WholePart(n: nat, scale: nat): nat {
    PowerPositive(10, scale);
    n / Power(10, scale)
  }

  function FractionPart(n: nat, scale: nat): nat {
    PowerPositive(10, scale);
    n % Power(10, scale)
  }

  /** `format(value, "f")` */
  function NumberText(x: Number): string {
    var digits := Natural(WholePart(Abs(x.units), x.scale)) + PointText(FractionPart(Abs(x.units), x.scale), x.scale);
    if x.units < 0 then "-" + digits else digits
  }

  function FindPoint(s: string): (i: nat)
    ensures i <= |s| && (i < |s| ==> s[i] == '.') && forall j :: 0 <= j < i ==> s[j] != '.'
  {
    if |s| == 0 || s[0] == '.' then 0 else 1 + FindPoint(s[1..])
  }

  /** A whole part and so many places. */
  function Compose(whole: nat, part: nat, scale: nat): Number { Number(whole * Power(10, scale) + part, scale) }

  function Joined(whole: string, fraction: string): Option<Number> {
    var w, part := ReadDigits(whole, 10), ReadDigits(fraction, 10);
    if whole == "" || w.None? || part.None? then None else Some(Compose(w.value, part.value, |fraction|))
  }

  function ReadMagnitude(s: string): Option<Number> {
    var point := FindPoint(s);
    Joined(s[..point], if point == |s| then "" else s[point + 1..])
  }

  function ReadNumber(s: string): Option<Number> {
    if |s| > 0 && s[0] == '-' then
      match ReadMagnitude(s[1..])
      case Some(x) => Some(x.(units := -x.units))
      case None => None
    else ReadMagnitude(s)
  }

  lemma {:induction false} PointAfter(whole: string, rest: string)
    requires forall i :: 0 <= i < |whole| ==> DigitValue(whole[i], 10).Some?
    requires rest == "" || rest[0] == '.'
    ensures FindPoint(whole + rest) == |whole|
  {
    if |whole| == 0 {
      assert whole + rest == rest;
    } else {
      assert (whole + rest)[0] == whole[0] && (whole + rest)[1..] == whole[1..] + rest;
      PointAfter(whole[1..], rest);
    }
  }

  function PointText(part: nat, scale: nat): string { if scale == 0 then "" else "." + Padded(part, 10, scale) }

  /** A text made of a whole part and a fraction is read as their sum. */
  lemma PartsReadBack(whole: nat, part: nat, scale: nat)
    requires part < Power(10, scale)
    ensures ReadMagnitude(Natural(whole) + PointText(part, scale)) == Some(Compose(whole, part, scale))
  {
    var w, fraction := Natural(whole), Padded(part, 10, scale);
    NaturalReadsBack(whole);
    PaddedReadsBack(part, 10, scale);
    SplitAtPoint(w, fraction, PointText(part, scale));
    assert Joined(w, fraction) == Some(Compose(whole, part, scale));
  }

  lemma SplitAtPoint(whole: string, fraction: string, rest: string)
    requires |whole| >= 1 && forall i :: 0 <= i < |whole| ==> DigitValue(whole[i], 10).Some?
    requires rest == if fraction == "" then "" else "." + fraction
    ensures ReadMagnitude(whole + rest) == Joined(whole, fraction)
  {
    var s := whole + rest;
    PointAfter(whole, rest);
    assert s[..|whole|] == whole;
    assert fraction != "" ==> s[|whole| + 1..] == fraction;
  }

  lemma MagnitudeReadsBack(n: nat, scale: nat)
    ensures ReadMagnitude(NumberText(Number(n, scale))) == Some(Number(n, scale))
  {
    PowerPositive(10, scale);
    SplitDigit(n, Power(10, scale));
    PartsReadBack(WholePart(n, scale), FractionPart(n, scale), scale);
    assert Compose(WholePart(n, scale), FractionPart(n, scale), scale) == Number(n, scale);
  }

  lemma NumberReadsBack(x: Number)
    ensures ReadNumber(NumberText(x)) == Some(x)
  {
    MagnitudeReadsBack(Abs(x.units), x.scale);
    var s := NumberText(Number(Abs(x.units), x.scale));
    if x.units < 0 {
      assert NumberText(x)[1..] == s;
    } else {
      assert DigitValue(s[0], 10).Some?;
    }
  }
}
