/**
 One way to write times and floats that the fallback file can rely on: moments of
 the calendar with an offset of whole minutes, and floats with one decimal.
 */
module FallbackFormats {
  import opened Wrappers
  import opened AuditEvents
  import opened JsonText
  import opened FallbackCodec
  import J = Json
  import T = Timestamps

  // ---- Times ----

  function DaysBeforeMonth(year: nat, month: nat): nat {
    if month <= 1 then 0 else DaysBeforeMonth(year, month - 1) + T.DaysIn(year, month - 1)
  }

  /** Days of the calendar before this year. */
  function DaysBeforeYear(year: nat): int {
    var y := year - 1;
    365 * y + y / 4 - y / 100 + y / 400
  }

  /** Microseconds since the beginning of the calendar. */
  function Micros(m: T.Moment): int {
    var days := DaysBeforeYear(m.year) + DaysBeforeMonth(m.year, m.month) + m.day - 1;
    (((days * 24 + m.hour) * 60 + m.minute) * 60 + m.second) * 1_000_000 + m.micro
  }

  const MINUTE := 60_000_000

  function OffsetText(minutes: int): string
    requires -1440 < minutes < 1440
  {
    var n := if minutes < 0 then -minutes else minutes;
    (if minutes < 0 then "-" else "+") + T.Decimal(n / 60, 2) + ":" + T.Decimal(n % 60, 2)
  }

  function ParseOffset(s: string): Option<int> {
    if |s| != 6 || s[0] !in "+-" || s[3] != ':' || !T.AllDigits(s[1..3]) || !T.AllDigits(s[4..6]) then None
    else
      var n := 60 * T.Number(s[1..3]) + T.Number(s[4..6]);
      Some(if s[0] == '-' then -n else n)
  }

  function ParseTime(s: string): Option<Time> {
    if |s| < 6 then None
    else
      var m, o := T.Parse(s[..|s| - 6]), ParseOffset(s[|s| - 6..]);
      if m.None? || o.None? then None else Some(Time(Micros(m.value), Some(o.value * MINUTE)))
  }

  /** The moment and the offset that a time is written with. */
  ghost predicate Spells(t: Time, m: T.Moment, minutes: int) {
    T.Valid(m) && -1440 < minutes < 1440 && t == Time(Micros(m), Some(minutes * MINUTE))
  }

  ghost predicate IsTime(t: Time) {
    exists m, minutes :: Spells(t, m, minutes)
  }

  ghost function TimeText(t: Time): string {
    if IsTime(t) then
      var m, minutes :| Spells(t, m, minutes);
      T.Print(m) + OffsetText(minutes)
    else ""
  }

  lemma OffsetBack(minutes: int)
    requires -1440 < minutes < 1440
    ensures ParseOffset(OffsetText(minutes)) == Some(minutes) && Tame(OffsetText(minutes)) && |OffsetText(minutes)| == 6
  {
    var n := if minutes < 0 then -minutes else minutes;
    var s, h, m := OffsetText(minutes), T.Decimal(n / 60, 2), T.Decimal(n % 60, 2);
    assert s[1..3] == h && s[4..6] == m;
    T.NumberOfDecimal(n / 60, 2);
    T.NumberOfDecimal(n % 60, 2);
  }

  lemma TimeBack(t: Time)
    requires IsTime(t)
    ensures ParseTime(TimeText(t)) == Some(t) && Tame(TimeText(t))
  {
    var m, minutes :| Spells(t, m, minutes) && TimeText(t) == T.Print(m) + OffsetText(minutes);
    MomentBack(m, minutes);
    TameText(m, minutes);
  }

  lemma MomentBack(m: T.Moment, minutes: int)
    requires T.Valid(m) && -1440 < minutes < 1440
    ensures ParseTime(T.Print(m) + OffsetText(minutes)) == Some(Time(Micros(m), Some(minutes * MINUTE)))
  {
    OffsetBack(minutes);
    T.ParsePrinted(m);
    Glued(T.Print(m), OffsetText(minutes));
  }

  lemma TameText(m: T.Moment, minutes: int)
    requires -1440 < minutes < 1440
    ensures Tame(T.Print(m) + OffsetText(minutes))
  {
    OffsetBack(minutes);
    T.PrintedText(m);
  }

  lemma Glued(moment: string, offset: string)
    requires |offset| == 6
    ensures var s := moment + offset; s[..|s| - 6] == moment && s[|s| - 6..] == offset
  {
  }

  // ---- Floats ----

  /** Tenths, as they are written. */
  function TenthsText(n: int): string {
    if n < 0 then "-" + Point(-n) else Point(n)
  }

  function Point(n: nat): string {
    NatText(n / 10) + "." + ['0' + (n % 10) as char]
  }

  function ParsePoint(s: string): Option<nat> {
    if |s| < 3 || s[|s| - 2] != '.' || !T.IsDigit(s[|s| - 1]) || !NatToken(s[..|s| - 2]) then None
    else Some(10 * T.Number(s[..|s| - 2]) + (s[|s| - 1] - '0') as nat)
  }

  function ParseFloat(s: string): Option<real> {
    if s != "" && s[0] == '-' then
      if ParsePoint(s[1..]).Some? then Some(Tenths(0 - ParsePoint(s[1..]).value)) else None
    else
      if ParsePoint(s).Some? then Some(Tenths(ParsePoint(s).value)) else None
  }

  function Tenths(n: int): real { n as real / 10.0 }

  ghost predicate IsFloat(r: real) { exists n :: r == Tenths(n) }

  ghost function TenthsOf(r: real): (n: int)
    requires IsFloat(r)
    ensures r == Tenths(n)
  {
    var n :| r == Tenths(n);
    n
  }

  ghost function FloatText(r: real): string {
    if IsFloat(r) then TenthsText(TenthsOf(r)) else ""
  }

  lemma PointBack(n: nat)
    ensures ParsePoint(Point(n)) == Some(n) && Point(n)[0] != '-'
    ensures IntOf(Point(n)).None? && IntOf("-" + Point(n)).None?
    ensures J.IsToken(Point(n)) && J.IsToken("-" + Point(n))
  {
    var s := Point(n);
    NatRead(n / 10);
    assert s[..|s| - 2] == NatText(n / 10);
    assert !T.IsDigit(s[|s| - 2]);
    assert ("-" + s)[1..] == s;
  }

  lemma FloatBack(r: real)
    requires IsFloat(r)
    ensures J.IsToken(FloatText(r)) && IntOf(FloatText(r)).None? && ParseFloat(FloatText(r)) == Some(r)
  {
    TenthsBack(TenthsOf(r));
  }

  lemma TenthsBack(n: int)
    ensures J.IsToken(TenthsText(n)) && IntOf(TenthsText(n)).None? && ParseFloat(TenthsText(n)) == Some(Tenths(n))
  {
    PointBack(if n < 0 then -n else n);
    if n < 0 {
      assert TenthsText(n)[1..] == Point(-n);
    }
  }

  ghost function Concrete(): Formats {
    Formats(
      (t: Time) => IsTime(t), (t: Time) => TimeText(t), (s: string) => ParseTime(s),
      (r: real) => IsFloat(r), (r: real) => FloatText(r), (s: string) => ParseFloat(s))
  }

  /** The law can be met, by a way of writing that has every moment of the calendar. */
  lemma ConcreteIsLawful()
    ensures Lawful(Concrete())
    ensures forall m, minutes :: T.Valid(m) && -1440 < minutes < 1440 ==>
      Concrete().isTime(Time(Micros(m), Some(minutes * MINUTE)))
  {
    forall t | IsTime(t) ensures Tame(TimeText(t)) && ParseTime(TimeText(t)) == Some(t) {
      TimeBack(t);
    }
    forall r | IsFloat(r)
      ensures J.IsToken(FloatText(r)) && IntOf(FloatText(r)).None? && ParseFloat(FloatText(r)) == Some(r)
    {
      FloatBack(r);
    }
    forall m, minutes | T.Valid(m) && -1440 < minutes < 1440
      ensures IsTime(Time(Micros(m), Some(minutes * MINUTE)))
    {
      assert Spells(Time(Micros(m), Some(minutes * MINUTE)), m, minutes);
    }
  }
}
