/** Moments in UTC as ISO 8601 text: printed one way, read in several. */
module Timestamps {
  import opened Wrappers
  import opened Digits

  datatype Moment = Moment(year: nat, month: nat, day: nat, hour: nat, minute: nat, second: nat, micro: nat)

  function DaysIn(year: nat, month: nat): nat {
    if month == 2 then (if (year % 4 == 0 && year % 100 != 0) || year % 400 == 0 then 29 else 28)
    else if month in {4, 6, 9, 11} then 30
    else 31
  }

  predicate Valid(m: Moment) {
    && 1 <= m.year <= 9999 && 1 <= m.month <= 12 && 1 <= m.day <= DaysIn(m.year, m.month)
    && m.hour < 24 && m.minute < 60 && m.second < 60 && m.micro < 1_000_000
  }

  predicate IsDigit(c: char) { '0' <= c <= '9' }

  predicate AllDigits(s: string) { forall i :: 0 <= i < |s| ==> IsDigit(s[i]) }

  /** A number with leading zeros. */
  function Decimal(n: nat, width: nat): (s: string)
    ensures |s| == width && AllDigits(s)
  {
    var d := Write(n, Ten, width);
    seq(width, i requires 0 <= i < width => '0' + d[i] as char)
  }

  function Number(s: string): nat
    requires AllDigits(s)
  {
    Read(seq(|s|, i requires 0 <= i < |s| => (s[i] - '0') as nat), Ten)
  }

  lemma NumberOfDecimal(n: nat, width: nat)
    requires n < Count(Ten, width)
    ensures Number(Decimal(n, width)) == n
  {
    var d, s := Write(n, Ten, width), Decimal(n, width);
    assert seq(|s|, i requires 0 <= i < |s| => (s[i] - '0') as nat) == d;
    ReadWritten(n, Ten, width);
  }

  /** The moment without its offset. */
  function Print(m: Moment): string {
    Decimal(m.year, 4) + "-" + Decimal(m.month, 2) + "-" + Decimal(m.day, 2) + "T"
    + Decimal(m.hour, 2) + ":" + Decimal(m.minute, 2) + ":" + Decimal(m.second, 2)
    + (if m.micro == 0 then "" else "." + Decimal(m.micro, 6))
  }

  function Padded(s: string): (r: string)
    requires AllDigits(s)
    ensures |r| == 6 && AllDigits(r)
  {
    if |s| >= 6 then s[..6] else s + seq(6 - |s|, i requires 0 <= i < 6 - |s| => '0')
  }

  /** A fraction of a second: any number of digits after a point or a comma, cut off after six. */
  function ParseFraction(s: string): Option<nat> {
    if s == "" then Some(0)
    else if s[0] in {'.', ','} && |s| > 1 && AllDigits(s[1..]) then Some(Number(Padded(s[1..])))
    else None
  }

  /** Date and time in full, with any character between them. */
  function Parse(s: string): (r: Option<Moment>)
    ensures r.Some? ==> Valid(r.value)
  {
    if |s| < 19 || s[4] != '-' || s[7] != '-' || s[13] != ':' || s[16] != ':'
       || !AllDigits(s[..4]) || !AllDigits(s[5..7]) || !AllDigits(s[8..10])
       || !AllDigits(s[11..13]) || !AllDigits(s[14..16]) || !AllDigits(s[17..19])
       || ParseFraction(s[19..]).None?
    then None
    else
      var m := Moment(
        Number(s[..4]), Number(s[5..7]), Number(s[8..10]), Number(s[11..13]), Number(s[14..16]), Number(s[17..19]),
        ParseFraction(s[19..]).value);
      if Valid(m) then Some(m) else None
  }

  lemma FractionPrinted(micro: nat)
    requires micro < 1_000_000
    ensures ParseFraction(if micro == 0 then "" else "." + Decimal(micro, 6)) == Some(micro)
  {
    if micro != 0 {
      var s := "." + Decimal(micro, 6);
      assert s[1..] == Decimal(micro, 6) && Padded(s[1..]) == s[1..];
      NumberOfDecimal(micro, 6);
    }
  }

  /** Where the parts of a printed moment are. */
  lemma PrintedParts(y: string, mo: string, d: string, h: string, mi: string, se: string, f: string)
    requires |y| == 4 && |mo| == |d| == |h| == |mi| == |se| == 2
    ensures var s := y + "-" + mo + "-" + d + "T" + h + ":" + mi + ":" + se + f;
      && |s| == 19 + |f| && s[4] == '-' && s[7] == '-' && s[13] == ':' && s[16] == ':'
      && s[..4] == y && s[5..7] == mo && s[8..10] == d && s[11..13] == h && s[14..16] == mi && s[17..19] == se
      && s[19..] == f
  {
    var s := y + "-" + mo + "-" + d + "T" + h + ":" + mi + ":" + se + f;
    assert s[8] == d[0] && s[9] == d[1] && s[14] == mi[0] && s[15] == mi[1];
    assert s[8..10] == d && s[14..16] == mi;
  }

  lemma ParsePrinted(m: Moment)
    requires Valid(m)
    ensures Parse(Print(m)) == Some(m)
  {
    PrintedParts(Decimal(m.year, 4), Decimal(m.month, 2), Decimal(m.day, 2), Decimal(m.hour, 2), Decimal(m.minute, 2),
                 Decimal(m.second, 2), if m.micro == 0 then "" else "." + Decimal(m.micro, 6));
    NumberOfDecimal(m.year, 4);
    NumberOfDecimal(m.month, 2);
    NumberOfDecimal(m.day, 2);
    NumberOfDecimal(m.hour, 2);
    NumberOfDecimal(m.minute, 2);
    NumberOfDecimal(m.second, 2);
    FractionPrinted(m.micro);
  }

  /** Printed moments are short and made of digits and a few signs. */
  lemma PrintedText(m: Moment)
    ensures 19 <= |Print(m)| <= 26
    ensures forall c :: c in Print(m) ==> IsDigit(c) || c in "-T:."
  {
  }
}
