/**
 Every text that Python takes for an identifier, beyond the hexadecimal spellings
 of `Uuids`, and when such a text breaks the line of the fallback file it is in.
 */
module UuidSpellings {
  import opened Wrappers
  import opened Uuids
  import opened Digits
  import opened FallbackFile

  /** Blanks and decimal digits outside ASCII. */
  datatype Unicode = Unicode(blank: char -> bool, decimal: char -> Option<nat>)

  /** Ends of lines that JSON text may contain as they are. */
  const RAW_BREAKS: set<char> := {133 as char, '\U{2028}', '\U{2029}'}

  ghost predicate Lawful(u: Unicode) {
    && (forall c :: c in RAW_BREAKS ==> u.blank(c))
    && forall c :: u.decimal(c).Some? ==> u.decimal(c).value < 10
  }

  function Blank(u: Unicode, c: char): bool {
    if c < 128 as char then c == ' ' || '\t' <= c <= '\r' else u.blank(c)
  }

  function DigitOf(u: Unicode, c: char): Option<nat> {
    if c < 128 as char then HexValue(c) else u.decimal(c)
  }

  // ---- What is left of a text before it is read as a number ----

  /** Takes out every occurrence of the word, from the left. */
  function Remove(s: string, word: string): string
    requires word != ""
  {
    if |s| < |word| then s
    else if s[..|word|] == word then Remove(s[|word|..], word)
    else [s[0]] + Remove(s[1..], word)
  }

  function StripLeft(s: string): (r: string)
    ensures |r| <= |s|
  {
    if s != "" && s[0] in "{}" then StripLeft(s[1..]) else s
  }

  function StripRight(s: string): string {
    if s != "" && s[|s| - 1] in "{}" then StripRight(s[..|s| - 1]) else s
  }

  function Bare(s: string): string {
    Compact(StripRight(StripLeft(Remove(Remove(s, "urn:"), "uuid:"))))
  }

  // ---- The number ----

  function TrimLeft(u: Unicode, s: string): string {
    if s != "" && Blank(u, s[0]) then TrimLeft(u, s[1..]) else s
  }

  function TrimRight(u: Unicode, s: string): string {
    if s != "" && Blank(u, s[|s| - 1]) then TrimRight(u, s[..|s| - 1]) else s
  }

  function AfterSign(s: string): string { if s != "" && s[0] == '+' then s[1..] else s }

  function AfterPrefix(u: Unicode, s: string): string {
    if |s| < 2 || DigitOf(u, s[0]) != Some(0) || s[1] !in "xX" then s
    else if |s| > 2 && s[2] == '_' then s[3..]
    else s[2..]
  }

  /** At least one digit, with single underscores between digits. */
  function DigitsOf(u: Unicode, s: string): Option<seq<nat>> {
    if s == "" || DigitOf(u, s[0]).None? then None
    else if |s| == 1 then Some([DigitOf(u, s[0]).value])
    else
      var rest := DigitsOf(u, if s[1] == '_' then s[2..] else s[1..]);
      if rest.None? then None else Some([DigitOf(u, s[0]).value] + rest.value)
  }

  /** The identifier Python reads. */
  function Accepted(u: Unicode, s: string): Option<nat> {
    var h := Bare(s);
    if |h| != 32 then None
    else
      var digits := DigitsOf(u, AfterPrefix(u, AfterSign(TrimRight(u, TrimLeft(u, h)))));
      if digits.None? then None else Some(Read(digits.value, Sixteen))
  }

  // ---- The spellings modelled elsewhere ----

  /** Nothing but dashes and hexadecimal digits. */
  predicate Plain(s: string) { forall c :: c in s ==> c == '-' || HexValue(c).Some? }

  lemma {:induction false} RemoveAbsent(s: string, word: string)
    requires ':' !in s && ':' in word
    ensures Remove(s, word) == s
  {
    if |s| >= |word| {
      assert s[..|word|] != word by {
        var i :| 0 <= i < |word| && word[i] == ':';
        assert s[..|word|][i] in s;
      }
      RemoveAbsent(s[1..], word);
    }
  }

  lemma {:induction false} CompactKeeps(s: string)
    requires Plain(s)
    ensures AllHex(Compact(s))
  {
    if s != "" {
      assert s[0] in s && forall c :: c in s[1..] ==> c in s;
      CompactKeeps(s[1..]);
    }
  }

  lemma {:induction false} CompactIsPlain(s: string)
    requires AllHex(Compact(s))
    ensures Plain(s)
  {
    if s != "" {
      if s[0] != '-' {
        assert Compact(s)[0] == s[0] && Compact(s)[1..] == Compact(s[1..]);
        assert forall i :: 0 <= i < |Compact(s[1..])| ==> Compact(s[1..])[i] == Compact(s)[i + 1];
      } else {
        assert Compact(s) == Compact(s[1..]);
      }
      CompactIsPlain(s[1..]);
      assert s == [s[0]] + s[1..];
    }
  }

  lemma HexIsDigit(u: Unicode, c: char)
    requires HexValue(c).Some?
    ensures DigitOf(u, c) == HexValue(c) && c != '_'
  {
  }

  lemma {:induction false} DigitsOfHex(u: Unicode, h: string)
    requires h != "" && AllHex(h)
    ensures DigitsOf(u, h) == Some(HexDigits(h))
  {
    hide HexValue, HexDigits;
    HexIsDigit(u, h[0]);
    if |h| > 1 {
      HexIsDigit(u, h[1]);
      DigitsOfHex(u, h[1..]);
      assert HexDigits(h) == [HexDigits(h)[0]] + HexDigits(h[1..]);
    } else {
      assert HexDigits(h) == [HexDigits(h)[0]];
    }
  }

  /** Identifiers are parsed here as Python does, as far as they consist of dashes and hexadecimal digits. */
  lemma ParseIsPlainAccepted(u: Unicode, s: string)
    ensures Parse(s) == if Plain(s) then Accepted(u, s) else None
  {
    if Plain(s) {
      RemoveAbsent(s, "urn:");
      RemoveAbsent(s, "uuid:");
      assert s != "" ==> s[0] in s && s[|s| - 1] in s;
      assert Bare(s) == Compact(s);
      CompactKeeps(s);
      if |Compact(s)| == 32 {
        HexIsBare(u, Compact(s));
      }
    } else if Parse(s).Some? {
      CompactIsPlain(s);
    }
  }

  lemma HexIsBare(u: Unicode, h: string)
    requires |h| == 32 && AllHex(h)
    ensures DigitsOf(u, AfterPrefix(u, AfterSign(TrimRight(u, TrimLeft(u, h))))) == Some(HexDigits(h))
  {
    assert HexValue(h[0]).Some? && HexValue(h[1]).Some? && HexValue(h[31]).Some?;
    assert TrimLeft(u, h) == h && TrimRight(u, h) == h && AfterSign(h) == h && AfterPrefix(u, h) == h;
    DigitsOfHex(u, h);
  }

  // ---- In a line of the fallback file ----

  /** A character inside a JSON string: raw unless it is a quote, a backslash or a control character. */
  function Escaped(c: char): (r: string)
    ensures if c in RAW_BREAKS then r == [c] else forall x :: x in r ==> !Break(x)
  {
    assert forall i :: 0 <= i < 16 ==> !Break(HexAlphabet[i]);
    if c == '"' || c == '\\' then ['\\', c]
    else if c == '\n' then "\\n" else if c == '\r' then "\\r" else if c == '\t' then "\\t"
    else if c == 8 as char then "\\b" else if c == 12 as char then "\\f"
    else if c < ' ' then "\\u00" + [HexAlphabet[c as int / 16], HexAlphabet[c as int % 16]]
    else [c]
  }

  function EscapedText(s: string): string {
    if s == "" then "" else Escaped(s[0]) + EscapedText(s[1..])
  }

  lemma {:induction false} BreaksOfText(s: string)
    ensures (exists c :: c in EscapedText(s) && Break(c)) <==> exists c :: c in s && c in RAW_BREAKS
  {
    if s != "" {
      BreaksOfText(s[1..]);
      assert s == [s[0]] + s[1..];
      assert EscapedText(s) == Escaped(s[0]) + EscapedText(s[1..]);
      if s[0] in RAW_BREAKS {
        assert s[0] in EscapedText(s) && Break(s[0]);
      }
    }
  }

  /** The line stays one line exactly when the text has none of the raw ends of lines. */
  lemma LineStaysWhole(before: string, s: string, after: string)
    requires OneLiner(before) && OneLiner(after)
    ensures var line := before + EscapedText(s) + after;
      SplitLines(line + "\n") == [line] <==> forall c :: c in s ==> c !in RAW_BREAKS
  {
    var line := before + EscapedText(s) + after;
    BreaksOfText(s);
    VisibleIsNoBreak(before);
    VisibleIsNoBreak(after);
    SplitExactly(line);
  }

  lemma VisibleIsNoBreak(s: string)
    requires OneLiner(s)
    ensures forall c :: c in s ==> !Break(c)
  {
  }

  lemma SplitExactly(line: string)
    ensures SplitLines(line + "\n") == [line] <==> forall c :: c in line ==> !Break(c)
  {
    if forall c :: c in line ==> !Break(c) {
      assert line + "\n" == line + "\n" + "";
      SplitFirst(line, "");
    } else {
      FirstLineIsWhole(line + "\n");
      assert SplitLines(line + "\n")[0] == FirstLine(line + "\n");
    }
  }

  /**
   So the line of an identifier Python accepts is read back as one line exactly when
   none of three characters is in it; no hexadecimal spelling has one.
   */
  lemma IdentifierLine(u: Unicode, s: string, before: string, after: string)
    requires Accepted(u, s).Some? && OneLiner(before) && OneLiner(after)
    ensures var line := before + EscapedText(s) + after;
      && (SplitLines(line + "\n") == [line] <==> forall c :: c in s ==> c !in RAW_BREAKS)
      && (Plain(s) ==> SplitLines(line + "\n") == [line])
  {
    hide Accepted, SplitLines, EscapedText;
    LineStaysWhole(before, s, after);
  }

  function Zeros(n: nat): string { seq(n, _ => '0') }

  /** A line separator and 31 zeros are accepted, and break the line. */
  lemma SeparatorIsAccepted(u: Unicode, before: string, after: string)
    requires Lawful(u) && OneLiner(before) && OneLiner(after)
    ensures var s := "\U{2028}" + Zeros(31);
      && Accepted(u, s).Some? && Parse(s).None?
      && SplitLines(before + EscapedText(s) + after + "\n") != [before + EscapedText(s) + after]
  {
    hide Accepted, Parse, SplitLines, EscapedText;
    var s := "\U{2028}" + Zeros(31);
    SeparatorIsRead(u);
    assert s[0] in s && !Plain(s);
    ParseIsPlainAccepted(u, s);
    LineStaysWhole(before, s, after);
    assert s[0] in RAW_BREAKS;
  }

  lemma SeparatorIsRead(u: Unicode)
    requires Lawful(u)
    ensures Accepted(u, "\U{2028}" + Zeros(31)).Some?
  {
    hide Bare, DigitsOf, TrimLeft, TrimRight, AfterSign, AfterPrefix, Read, AllHex, HexDigits;
    var s := "\U{2028}" + Zeros(31);
    assert '\U{2028}' in RAW_BREAKS;
    BareIsAll(s);
    ZerosAreHex(31);
    NumberAfterBlank(u, s[0], Zeros(31));
    assert s == [s[0]] + Zeros(31);
  }

  lemma ZerosAreHex(n: nat)
    ensures AllHex(Zeros(n))
  {
  }

  lemma BareIsAll(s: string)
    requires forall c :: c in s ==> c !in ":{}-"
    ensures Bare(s) == s
  {
    RemoveAbsent(s, "urn:");
    RemoveAbsent(s, "uuid:");
    CompactWithoutDashes(s);
    assert s != "" ==> s[0] in s && s[|s| - 1] in s;
  }

  /** Blanks before the digits do not matter. */
  lemma NumberAfterBlank(u: Unicode, c: char, t: string)
    requires Blank(u, c) && |t| >= 2 && AllHex(t)
    ensures DigitsOf(u, AfterPrefix(u, AfterSign(TrimRight(u, TrimLeft(u, [c] + t))))) == Some(HexDigits(t))
  {
    assert HexValue(t[0]).Some? && HexValue(t[1]).Some? && HexValue(t[|t| - 1]).Some?;
    assert ([c] + t)[1..] == t;
    assert TrimLeft(u, t) == t && TrimRight(u, t) == t && AfterSign(t) == t && AfterPrefix(u, t) == t;
    assert TrimLeft(u, [c] + t) == TrimLeft(u, t);
    DigitsOfHex(u, t);
  }
}
