/**
 The texts and bytes themselves: what base64url, timestamps, identifiers, cursors
 and the size and the lines of a file look like, said by their standards or by arithmetic.
 */
module FormatLaws {
  import opened Wrappers
  import B = Base64Url
  import D = Digits
  import T = Timestamps
  import U = Uuids
  import C = Cursors
  import F = FallbackFile
  import FF = FallbackFormats

  // ---- Base64url ----

  /** The alphabet of section 5 of RFC 4648: letters, small letters, digits, each in a row, and two signs. */
  lemma AlphabetIs(v: B.Six)
    ensures B.Letter(0) == 'A' && B.Letter(25) == 'Z' && B.Letter(26) == 'a' && B.Letter(51) == 'z'
    ensures B.Letter(52) == '0' && B.Letter(61) == '9' && B.Letter(62) == '-' && B.Letter(63) == '_'
    ensures v !in {25, 51, 61, 62, 63} ==> B.Letter(v + 1) == B.Letter(v) + 1 as char
  {
  }

  function OfBytes(x: nat, y: nat, z: nat): nat { 65536 * x + 256 * y + z }

  function OfGroups(p: nat, q: nat, r: nat, s: nat): nat { 262144 * p + 4096 * q + 64 * r + s }

  /** Three bytes are the same number of 24 bits as their four groups. */
  lemma {:induction false} GroupIsNumber(b: seq<B.Byte>, k: nat)
    requires 3 * k + 2 < |b|
    ensures var v := B.Pack(b);
      && 4 * k + 3 < |v|
      && OfBytes(b[3 * k], b[3 * k + 1], b[3 * k + 2]) == OfGroups(v[4 * k], v[4 * k + 1], v[4 * k + 2], v[4 * k + 3])
  {
    if k > 0 {
      GroupIsNumber(b[3..], k - 1);
      assert b[3..][3 * k - 3] == b[3 * k] && b[3..][3 * k - 2] == b[3 * k + 1] && b[3..][3 * k - 1] == b[3 * k + 2];
      var v, w := B.Pack(b), B.Pack(b[3..]);
      assert v[4..] == w;
      assert w[4 * k - 4] == v[4 * k] && w[4 * k - 3] == v[4 * k + 1] && w[4 * k - 2] == v[4 * k + 2];
      assert w[4 * k - 1] == v[4 * k + 3];
    }
  }

  /** What is left over is filled up with zeros to whole groups. */
  ghost predicate RestIs(b: seq<B.Byte>, v: seq<B.Six>) {
    && (|b| % 3 == 1 ==> |v| >= 2 && OfBytes(b[|b| - 1], 0, 0) == OfGroups(v[|v| - 2], v[|v| - 1], 0, 0))
    && (|b| % 3 == 2 ==>
          && |v| >= 3
          && OfBytes(b[|b| - 2], b[|b| - 1], 0) == OfGroups(v[|v| - 3], v[|v| - 2], v[|v| - 1], 0))
  }

  lemma {:induction false} RestIsNumber(b: seq<B.Byte>)
    ensures RestIs(b, B.Pack(b))
  {
    hide RestIs;
    if |b| >= 3 {
      RestIsNumber(b[3..]);
      RestMoves(b);
    } else {
      RestOfFew(b);
    }
  }

  lemma RestOfFew(b: seq<B.Byte>)
    requires |b| < 3
    ensures RestIs(b, B.Pack(b))
  {
    hide OfBytes, OfGroups, B.Pack;
    if |b| == 1 {
      OneByte(b[0]);
      PackOne(b);
    } else if |b| == 2 {
      TwoBytes(b[0], b[1]);
      PackTwo(b);
    }
  }

  lemma PackOne(b: seq<B.Byte>)
    requires |b| == 1
    ensures B.Pack(b) == [b[0] / 4, b[0] % 4 * 16]
  {
  }

  lemma PackTwo(b: seq<B.Byte>)
    requires |b| == 2
    ensures B.Pack(b) == [b[0] / 4, b[0] % 4 * 16 + b[1] / 16, b[1] % 16 * 4]
  {
  }

  lemma OneByte(x: B.Byte)
    ensures OfBytes(x, 0, 0) == OfGroups(x / 4, x % 4 * 16, 0, 0)
  {
    assert x == 4 * (x / 4) + x % 4;
  }

  lemma TwoBytes(x: B.Byte, y: B.Byte)
    ensures OfBytes(x, y, 0) == OfGroups(x / 4, x % 4 * 16 + y / 16, y % 16 * 4, 0)
  {
    assert x == 4 * (x / 4) + x % 4 && y == 16 * (y / 16) + y % 16;
  }

  lemma PackMoves(b: seq<B.Byte>)
    requires |b| >= 3
    ensures |B.Pack(b)| == |B.Pack(b[3..])| + 4 && B.Pack(b)[4..] == B.Pack(b[3..])
    ensures |b[3..]| % 3 == |b| % 3
  {
  }

  lemma RestMoves(b: seq<B.Byte>)
    requires |b| >= 3 && RestIs(b[3..], B.Pack(b[3..]))
    ensures RestIs(b, B.Pack(b))
  {
    hide OfBytes, OfGroups, B.Pack;
    PackMoves(b);
    var v, w := B.Pack(b), B.Pack(b[3..]);
    assert |w| >= 1 ==> w[|w| - 1] == v[|v| - 1];
    assert |w| >= 2 ==> w[|w| - 2] == v[|v| - 2];
    assert |w| >= 3 ==> w[|w| - 3] == v[|v| - 3];
    assert |b| >= 4 ==> b[3..][|b| - 4] == b[|b| - 1];
    assert |b| >= 5 ==> b[3..][|b| - 5] == b[|b| - 2];
  }

  lemma EncodingIs(b: seq<B.Byte>, i: nat)
    requires i < |B.Encode(b)|
    ensures B.Encode(b)[i] == B.Letter(B.Pack(b)[i])
  {
  }

  // ---- Decimal numbers and moments ----

  function Digit(n: nat): char { '0' + (n % 10) as char }

  lemma TwoDigits(n: nat)
    ensures T.Decimal(n, 2) == [Digit(n / 10), Digit(n)]
  {
    assert D.Write(n, D.Ten, 2) == D.Write(n / 10, D.Ten, 1) + [n % 10];
    assert D.Write(n / 10, D.Ten, 1) == D.Write(n / 10 / 10, D.Ten, 0) + [n / 10 % 10];
  }

  lemma MoreDigits(n: nat, width: nat)
    requires width > 0
    ensures T.Decimal(n, width) == T.Decimal(n / 10, width - 1) + [Digit(n)]
  {
    assert D.Write(n, D.Ten, width) == D.Write(n / 10, D.Ten, width - 1) + [n % 10];
  }

  lemma FourDigits(n: nat)
    ensures T.Decimal(n, 4) == [Digit(n / 1000), Digit(n / 100), Digit(n / 10), Digit(n)]
  {
    MoreDigits(n, 4);
    MoreDigits(n / 10, 3);
    TwoDigits(n / 10 / 10);
  }

  lemma SixDigits(n: nat)
    ensures T.Decimal(n, 6) ==
      [Digit(n / 100000), Digit(n / 10000), Digit(n / 1000), Digit(n / 100), Digit(n / 10), Digit(n)]
  {
    MoreDigits(n, 6);
    MoreDigits(n / 10, 5);
    FourDigits(n / 100);
    Tens(n);
    assert T.Decimal(n, 6) == T.Decimal(n / 100, 4) + [Digit(n / 10), Digit(n)];
  }

  lemma Tens(n: nat)
    ensures n / 10 / 10 == n / 100 && n / 100 / 10 == n / 1000 && n / 100 / 100 == n / 10000
    ensures n / 100 / 1000 == n / 100000
  {
  }

  /** Date and time as in ISO 8601, the microseconds only if there are any. */
  lemma MomentIs(m: T.Moment)
    ensures T.Print(m) ==
      [Digit(m.year / 1000), Digit(m.year / 100), Digit(m.year / 10), Digit(m.year), '-',
       Digit(m.month / 10), Digit(m.month), '-', Digit(m.day / 10), Digit(m.day), 'T',
       Digit(m.hour / 10), Digit(m.hour), ':', Digit(m.minute / 10), Digit(m.minute), ':',
       Digit(m.second / 10), Digit(m.second)]
      + if m.micro == 0 then ""
        else ['.', Digit(m.micro / 100000), Digit(m.micro / 10000), Digit(m.micro / 1000), Digit(m.micro / 100),
              Digit(m.micro / 10), Digit(m.micro)]
  {
    hide T.Decimal;
    FourDigits(m.year);
    TwoDigits(m.month);
    TwoDigits(m.day);
    TwoDigits(m.hour);
    TwoDigits(m.minute);
    TwoDigits(m.second);
    SixDigits(m.micro);
  }

  /** Months and years agree: the days of a year's months are those between it and the next. */
  lemma YearIsItsMonths(year: nat)
    requires year >= 1
    ensures FF.DaysBeforeYear(year + 1) == FF.DaysBeforeYear(year) + FF.DaysBeforeMonth(year, 12) + T.DaysIn(year, 12)
  {
    MonthsAdd(year);
    LeapDays(year);
  }

  lemma MonthsAdd(year: nat)
    ensures FF.DaysBeforeMonth(year, 12) == 306 + T.DaysIn(year, 2) && T.DaysIn(year, 12) == 31
  {
    MonthAdds(year, 2);
    MonthAdds(year, 3);
    MonthAdds(year, 4);
    MonthAdds(year, 5);
    MonthAdds(year, 6);
    MonthAdds(year, 7);
    MonthAdds(year, 8);
    MonthAdds(year, 9);
    MonthAdds(year, 10);
    MonthAdds(year, 11);
    MonthAdds(year, 12);
  }

  lemma MonthAdds(year: nat, month: nat)
    requires month >= 2
    ensures FF.DaysBeforeMonth(year, month) == FF.DaysBeforeMonth(year, month - 1) + T.DaysIn(year, month - 1)
    ensures FF.DaysBeforeMonth(year, 1) == 0
  {
  }

  /** Every fourth year is longer by a day, but of the hundreds only every fourth. */
  lemma LeapDays(year: nat)
    requires year >= 1
    ensures FF.DaysBeforeYear(year + 1) == FF.DaysBeforeYear(year) + 337 + T.DaysIn(year, 2)
  {
    assert year / 4 == (year - 1) / 4 + if year % 4 == 0 then 1 else 0;
    assert year / 100 == (year - 1) / 100 + if year % 100 == 0 then 1 else 0;
    assert year / 400 == (year - 1) / 400 + if year % 400 == 0 then 1 else 0;
  }

  /** The moments there are. */
  lemma MomentsAre(m: T.Moment)
    ensures T.Valid(m) <==>
      && 1 <= m.year < 10000 && 0 < m.month < 13 && 0 < m.day <= T.DaysIn(m.year, m.month)
      && m.hour <= 23 && m.minute <= 59 && m.second <= 59 && m.micro <= 999_999
  {
  }

  /** A fraction of a second has at least one digit; it is filled up with zeros to six, or cut off there. */
  lemma FractionsAre(d: string)
    requires T.AllDigits(d)
    ensures T.ParseFraction("") == Some(0) && T.ParseFraction(".") == None && T.ParseFraction("5") == None
    ensures |d| == 6 ==> T.ParseFraction("." + d) == T.ParseFraction("," + d) == Some(T.Number(d))
    ensures |d| > 6 ==> T.ParseFraction("." + d) == Some(T.Number(d[..6]))
    ensures 0 < |d| < 6 ==> T.ParseFraction("." + d) == T.ParseFraction("." + (d + "0"))
  {
    assert ("." + d)[1..] == d && ("," + d)[1..] == d && ("." + (d + "0"))[1..] == d + "0";
    if |d| == 6 {
      assert d[..6] == d;
    } else if 0 < |d| < 6 {
      assert T.Padded(d) == T.Padded(d + "0");
    }
  }

  // ---- Identifiers ----

  function Shifted(n: nat, digits: nat): nat
    decreases digits
  {
    if digits == 0 then n else Shifted(n / 16, digits - 1)
  }

  lemma {:induction false} DigitIs(n: nat, width: nat, k: nat)
    requires k < width
    ensures D.Write(n, D.Sixteen, width)[k] == Shifted(n, width - 1 - k) % 16
  {
    if k < width - 1 {
      DigitIs(n / 16, width - 1, k);
    }
  }

  /** The digit at a place between the dashes. */
  function Place(i: nat): int {
    if i < 8 then i else if i < 13 then i - 1 else if i < 18 then i - 2 else if i < 23 then i - 3 else i - 4
  }

  /** Thirty-two hexadecimal digits, the most significant first, with dashes after 8, 12, 16 and 20 of them. */
  lemma IdentifierIs(n: nat, i: nat)
    requires i < 36
    ensures |U.Print(n)| == 36
    ensures U.Print(n)[i] ==
      if i in {8, 13, 18, 23} then '-'
      else
        var k := Place(i);
        "0123456789abcdef"[Shifted(n, 31 - k) % 16]
  {
    var h := U.HexText(D.Write(n, D.Sixteen, 32));
    var k := Place(i);
    if i !in {8, 13, 18, 23} {
      DigitIs(n, 32, k);
      assert U.Dashed(h)[i] == h[k];
    }
  }

  // ---- Cursors ----

  /** A cursor is base64url of a JSON object of two members. */
  lemma CursorIs(c: C.Cursor)
    requires C.WellFormed(c)
    ensures var text := "{\"t\":\"" + T.Print(c.at) + "Z\",\"id\":\"" + U.Print(U.Parse(c.id).value) + "\"}";
      C.Ascii(text) && C.Encode(c) == B.Encode(C.ToBytes(text))
  {
    hide T.Print, U.Print, U.Parse;
    C.PayloadIsAscii(c);
    var text := "{\"t\":\"" + T.Print(c.at) + "Z\",\"id\":\"" + U.Print(U.Parse(c.id).value) + "\"}";
    assert C.Payload(c) == text;
  }

  lemma BytesAre(s: string, i: nat)
    requires C.Ascii(s) && i < |s|
    ensures C.ToBytes(s)[i] == s[i] as nat
  {
  }

  // ---- Sizes and lines ----

  /** UTF-8: one to four bytes for a character, by section 3 of RFC 3629. */
  lemma SizeIs(s: string, c: char)
    ensures F.Bytes("") == 0
    ensures F.Bytes(s + [c]) == F.Bytes(s) +
      if c <= '\U{007f}' then 1 else if c <= '\U{07ff}' then 2 else if c <= '\U{ffff}' then 3 else 4
  {
    assert (s + [c])[..|s|] == s;
  }

  predicate EndsLine(c: char) {
    c in {'\n', '\r', '\U{000b}', '\U{000c}', '\U{001c}', '\U{001d}', '\U{001e}', '\U{0085}', '\U{2028}', '\U{2029}'}
  }

  /** The ends of lines; a carriage return with a line feed is one. */
  lemma LinesAre(l: string, end: string, rest: string)
    requires forall c :: c in l ==> !EndsLine(c)
    requires end in {"\n", "\r\n", "\U{000b}", "\U{000c}", "\U{001c}", "\U{001d}", "\U{001e}", "\U{0085}", "\U{2028}",
      "\U{2029}"}
    ensures F.SplitLines(l + end + rest) == [l] + F.SplitLines(rest)
    ensures F.SplitLines(l) == if l == "" then [] else [l]
  {
    hide F.FirstLine, EndsLine;
    BreaksAre();
    FirstIs(l, end + rest);
    FirstIs(l, "");
    assert l + "" == l;
    var s := l + end + rest;
    assert s == l + (end + rest) && s[|l|] == end[0];
    if end == "\r\n" {
      assert s[|l| + 1] == '\n' && s[|l| + 2..] == rest;
    } else {
      assert s[|l| + 1..] == rest;
    }
  }

  lemma BreaksAre()
    ensures forall c :: EndsLine(c) <==> F.Break(c)
  {
  }

  lemma {:induction false} FirstIs(l: string, rest: string)
    requires forall c :: c in l ==> !F.Break(c)
    requires rest == "" || F.Break(rest[0])
    ensures F.FirstLine(l + rest) == l
  {
    if l == "" {
      assert l + rest == rest;
    } else {
      assert (l + rest)[1..] == l[1..] + rest && l == [l[0]] + l[1..];
      FirstIs(l[1..], rest);
      assert !F.Break(l[0]);
    }
  }
}
