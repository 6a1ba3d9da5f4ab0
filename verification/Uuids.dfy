/** Identifiers of 128 bits, spelled in hexadecimal with dashes. */
module Uuids {
  import opened Wrappers
  import opened Digits

  /** How many identifiers there are. */
  function Limit(): nat { Count(Sixteen, 32) }

  const HexAlphabet := "0123456789abcdef"

  function HexValue(c: char): (d: Option<nat>)
    ensures d.Some? ==> d.value < 16 && HexAlphabet[d.value] == Lower(c)
  {
    if '0' <= c <= '9' then Some((c - '0') as nat)
    else if 'a' <= c <= 'f' then Some((c - 'a') as nat + 10)
    else if 'A' <= c <= 'F' then Some((c - 'A') as nat + 10)
    else None
  }

  lemma HexOfDigit(d: nat)
    requires d < 16
    ensures HexValue(HexAlphabet[d]) == Some(d)
  {
  }

  /**
     Lower case of a character. The Kelvin sign is the one character outside ASCII
     whose lower case is in ASCII and can matter here.
   */
  function Lower(c: char): char {
    if 'A' <= c <= 'Z' then 'a' + (c - 'A') else if c == '\U{212A}' then 'k' else c
  }

  function LowerText(s: string): (r: string)
    ensures |r| == |s| && forall i :: 0 <= i < |s| ==> r[i] == Lower(s[i])
  {
    seq(|s|, i requires 0 <= i < |s| => Lower(s[i]))
  }

  lemma LowerTextTwice(s: string)
    ensures LowerText(LowerText(s)) == LowerText(s)
  {
  }

  function HexText(digits: seq<nat>): (r: string)
    requires forall i :: 0 <= i < |digits| ==> digits[i] < 16
    ensures |r| == |digits| && forall i :: 0 <= i < |r| ==> r[i] == HexAlphabet[digits[i]]
  {
    seq(|digits|, i requires 0 <= i < |digits| => HexAlphabet[digits[i]])
  }

  predicate AllHex(s: string) { forall i :: 0 <= i < |s| ==> HexValue(s[i]).Some? }

  function HexDigits(s: string): (r: seq<nat>)
    requires AllHex(s)
    ensures |r| == |s| && forall i :: 0 <= i < |s| ==> HexValue(s[i]) == Some(r[i])
  {
    seq(|s|, i requires 0 <= i < |s| => HexValue(s[i]).value)
  }

  /** The text without its dashes. */
  function Compact(s: string): (r: string)
    ensures |r| <= |s|
  {
    if s == "" then "" else (if s[0] == '-' then "" else [s[0]]) + Compact(s[1..])
  }

  lemma {:induction false} CompactJoin(s: string, t: string)
    ensures Compact(s + t) == Compact(s) + Compact(t)
  {
    if s != "" {
      assert (s + t)[1..] == s[1..] + t;
      CompactJoin(s[1..], t);
    } else {
      assert s + t == t;
    }
  }

  lemma {:induction false} CompactWithoutDashes(s: string)
    requires '-' !in s
    ensures Compact(s) == s
  {
    if s != "" {
      CompactWithoutDashes(s[1..]);
    }
  }

  /** The groups of 8, 4, 4, 4 and 12 digits. */
  function Dashed(h: string): (r: string)
    requires |h| == 32
    ensures |r| == 36
  {
    h[..8] + "-" + h[8..12] + "-" + h[12..16] + "-" + h[16..20] + "-" + h[20..]
  }

  lemma CompactDashed(h: string)
    requires |h| == 32 && '-' !in h
    ensures Compact(Dashed(h)) == h
  {
    var a := h[..8];
    var b := a + "-" + h[8..12];
    var c := b + "-" + h[12..16];
    var d := c + "-" + h[16..20];
    CompactWithoutDashes(a);
    CompactPart(a, h[8..12]);
    CompactPart(b, h[12..16]);
    CompactPart(c, h[16..20]);
    CompactPart(d, h[20..]);
    assert Compact(Dashed(h)) == h[..8] + h[8..12] + h[12..16] + h[16..20] + h[20..];
    assert h[..8] + h[8..12] == h[..12] && h[..12] + h[12..16] == h[..16] && h[..16] + h[16..20] == h[..20];
  }

  lemma CompactPart(before: string, part: string)
    requires '-' !in part
    ensures Compact(before + "-" + part) == Compact(before) + part
  {
    CompactJoin(before + "-", part);
    CompactJoin(before, "-");
    CompactWithoutDashes(part);
    CompactDash();
  }

  lemma CompactDash()
    ensures Compact("-") == ""
  {
  }

  /** The canonical spelling. */
  function Print(n: nat): string {
    Dashed(HexText(Write(n, Sixteen, 32)))
  }

  /** Any spelling with 32 digits, with dashes anywhere and in either case. */
  function Parse(s: string): Option<nat> {
    var h := Compact(s);
    if |h| == 32 && AllHex(h) then Some(Read(HexDigits(h), Sixteen)) else None
  }

  lemma ParsePrint(n: nat)
    requires n < Limit()
    ensures Parse(Print(n)) == Some(n)
  {
    var digits := Write(n, Sixteen, 32);
    var h := HexText(digits);
    forall i | 0 <= i < 32 ensures HexValue(h[i]) == Some(digits[i]) {
      HexOfDigit(digits[i]);
    }
    CompactDashed(h);
    assert HexDigits(h) == digits;
    ReadWritten(n, Sixteen, 32);
  }

  lemma ParseFits(s: string)
    requires Parse(s).Some?
    ensures Parse(s).value < Limit()
  {
    WriteRead(HexDigits(Compact(s)), Sixteen);
  }

  predicate IsHex(c: char) { '0' <= c <= '9' || 'a' <= c <= 'f' }

  /** The canonical spellings, as a pattern. */
  predicate IsText(s: string) {
    && |s| == 36
    && forall i :: 0 <= i < 36 ==> if i in {8, 13, 18, 23} then s[i] == '-' else IsHex(s[i])
  }

  lemma PrintIsText(n: nat)
    ensures IsText(Print(n))
  {
    var h := HexText(Write(n, Sixteen, 32));
    DashedIsText(h);
  }

  lemma DashedIsText(h: string)
    requires |h| == 32 && forall i :: 0 <= i < 32 ==> IsHex(h[i])
    ensures IsText(Dashed(h))
  {
  }

  /** A text that matches the pattern in lower case has that as its canonical spelling. */
  lemma PrintParse(s: string)
    requires IsText(LowerText(s))
    ensures Parse(s).Some? && Print(Parse(s).value) == LowerText(s)
  {
    hide Read, Write;
    var h := s[..8] + s[9..13] + s[14..18] + s[19..23] + s[24..];
    DashedBack(s, h);
    forall i | 0 <= i < 32 ensures HexValue(h[i]).Some? && h[i] != '-' {
      assert h[i] ==
        s[if i < 8 then i else if i < 12 then i + 1 else if i < 16 then i + 2 else if i < 20 then i + 3 else i + 4];
    }
    CompactDashed(h);
    WriteRead(HexDigits(h), Sixteen);
    assert HexText(HexDigits(h)) == LowerText(h);
    DashedLower(h);
  }

  lemma DashedBack(s: string, h: string)
    requires |s| == 36 && s[8] == '-' && s[13] == '-' && s[18] == '-' && s[23] == '-'
    requires h == s[..8] + s[9..13] + s[14..18] + s[19..23] + s[24..]
    ensures s == Dashed(h)
  {
    assert h[..8] == s[..8] && h[8..12] == s[9..13] && h[12..16] == s[14..18];
    assert h[16..20] == s[19..23] && h[20..] == s[24..];
  }

  lemma DashedLower(h: string)
    requires |h| == 32
    ensures Dashed(LowerText(h)) == LowerText(Dashed(h))
  {
  }

  /** The canonical spelling of what a text stands for. */
  function Canonical(s: string): Option<string> {
    if Parse(s).Some? then Some(Print(Parse(s).value)) else None
  }

  lemma CanonicalTwice(s: string)
    requires Canonical(s).Some?
    ensures Canonical(Canonical(s).value) == Canonical(s)
    ensures Parse(Canonical(s).value) == Parse(s)
  {
    ParseFits(s);
    ParsePrint(Parse(s).value);
  }

  /** The identifier is what a spelling stands for: equal spellings, equal identifiers. */
  lemma CanonicalIsId(s: string, t: string)
    requires Canonical(s).Some? && Canonical(t).Some?
    ensures Canonical(s) == Canonical(t) <==> Parse(s) == Parse(t)
  {
    CanonicalTwice(s);
    CanonicalTwice(t);
  }
}
