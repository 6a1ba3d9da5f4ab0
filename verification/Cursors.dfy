/** The opaque page cursor: one spelling for each position in the audit history. */
module Cursors {
  import opened Wrappers
  import Base64Url
  import Timestamps
  import Uuids
  import opened JsonText

  const MAX_CURSOR_CHARS := 512

  datatype Cursor = Cursor(at: Timestamps.Moment, id: string)

  predicate WellFormed(c: Cursor) { Timestamps.Valid(c.at) && Uuids.Parse(c.id).Some? }

  /** The identifier in its canonical spelling. */
  function Canonical(c: Cursor): Cursor
    requires WellFormed(c)
  {
    c.(id := Uuids.Print(Uuids.Parse(c.id).value))
  }

  // ---- Objects of strings ----

  function ParseMember(s: string): (r: Option<((string, string), string)>)
    ensures r.Some? ==> |r.value.1| < |s|
  {
    var key := ParseString(s);
    if key.None? then None else
    var colon := Take(key.value.1, ':');
    if colon.None? then None else
    var value := ParseString(colon.value);
    if value.None? then None else Some(((key.value.0, value.value.0), value.value.1))
  }

  /** Members up to the closing brace; of members with one key the last counts. */
  function ParseMembers(s: string, before: map<string, string>): Option<(map<string, string>, string)>
    decreases |s|
  {
    var member := ParseMember(s);
    if member.None? then None else
    var ((key, value), rest) := member.value;
    var found := before[key := value];
    if Take(rest, '}').Some? then Some((found, Take(rest, '}').value))
    else if Take(rest, ',').Some? then ParseMembers(Take(rest, ',').value, found)
    else None
  }

  function ParseObject(s: string): Option<map<string, string>> {
    var open := Take(s, '{');
    if open.None? then None else
    var r := if Take(open.value, '}').Some? then Some((map[], Take(open.value, '}').value))
      else ParseMembers(open.value, map[]);
    if r.Some? && Skip(r.value.1) == "" then Some(r.value.0) else None
  }

  function Member(key: string, value: string): string {
    "\"" + key + "\":\"" + value + "\""
  }

  // ---- The codec ----

  function Payload(c: Cursor): string
    requires WellFormed(c)
  {
    "{" + Member("t", Timestamps.Print(c.at) + "Z") + "," + Member("id", Canonical(c).id) + "}"
  }

  /** The same with its members the other way round. */
  function Swapped(c: Cursor): string
    requires WellFormed(c)
  {
    "{" + Member("id", Canonical(c).id) + "," + Member("t", Timestamps.Print(c.at) + "Z") + "}"
  }

  predicate Ascii(s: string) { forall i :: 0 <= i < |s| ==> s[i] < 128 as char }

  function ToBytes(s: string): (b: seq<Base64Url.Byte>)
    requires Ascii(s)
    ensures |b| == |s|
  {
    seq(|s|, i requires 0 <= i < |s| => s[i] as nat)
  }

  function FromBytes(b: seq<Base64Url.Byte>): Option<string> {
    if forall i :: 0 <= i < |b| ==> b[i] < 128
    then Some(seq(|b|, i requires 0 <= i < |b| => b[i] as char))
    else None
  }

  lemma PayloadIsAscii(c: Cursor)
    requires WellFormed(c)
    ensures Ascii(Payload(c)) && |Payload(c)| <= 79
  {
    var t, id := Timestamps.Print(c.at) + "Z", Canonical(c).id;
    MomentIsAscii(c);
    Uuids.PrintIsText(Uuids.Parse(c.id).value);
    MemberIsAscii("t", t);
    MemberIsAscii("id", id);
    assert |t| <= 27 && |id| == 36;
    assert |Member("t", t)| == 6 + |t| && |Member("id", id)| == 7 + |id|;
  }

  lemma MomentIsAscii(c: Cursor)
    ensures Ascii(Timestamps.Print(c.at) + "Z") && |Timestamps.Print(c.at)| <= 26
  {
    Timestamps.PrintedText(c.at);
  }

  lemma MemberIsAscii(key: string, value: string)
    requires Ascii(key) && Ascii(value)
    ensures Ascii(Member(key, value))
  {
  }

  function Encode(c: Cursor): string
    requires WellFormed(c)
  {
    PayloadIsAscii(c);
    Base64Url.Encode(ToBytes(Payload(c)))
  }

  /** A cursor of the right form, whatever its spelling. */
  function Loose(value: string): (r: Option<Cursor>)
    ensures r.Some? ==> WellFormed(r.value) && Canonical(r.value) == r.value
  {
    if value == "" || |value| > MAX_CURSOR_CHARS || |value| % 4 == 1 || !Base64Url.InAlphabet(value) then None else
    var text := FromBytes(Base64Url.Decode(value));
    if text.None? then None else
    var payload := ParseObject(text.value);
    if payload.None? then None else FromFields(payload.value)
  }

  function FromFields(payload: map<string, string>): (r: Option<Cursor>)
    ensures r.Some? ==> WellFormed(r.value) && Canonical(r.value) == r.value
  {
    if payload.Keys != {"t", "id"} then None else
    var t, id := payload["t"], payload["id"];
    if t == "" || t[|t| - 1] != 'Z' then None else
    var at := Timestamps.Parse(t[..|t| - 1]);
    if at.None? || Uuids.Canonical(id) != Some(id) then None else Some(Cursor(at.value, id))
  }

  /** Only the spelling that encoding gives is accepted. */
  function Decode(value: string): Option<Cursor> {
    var c := Loose(value);
    if c.None? || Encode(c.value) != value then None else c
  }

  lemma MemberParsed(key: string, value: string, rest: string)
    requires AllPlain(key) && AllPlain(value)
    ensures ParseMember(Member(key, value) + rest) == Some(((key, value), rest))
  {
    var s := Member(key, value) + rest;
    var s1 := "\":\"" + value + "\"" + rest;
    assert s[1..] == key + "\"" + (":\"" + value + "\"" + rest);
    QuotedPlain(key, ":\"" + value + "\"" + rest);
    var s2 := ":\"" + value + "\"" + rest;
    assert Skip(s2) == s2 && s2[1..] == "\"" + value + "\"" + rest;
    var s3 := "\"" + value + "\"" + rest;
    assert Skip(s3) == s3 && s3[1..] == value + "\"" + rest;
    QuotedPlain(value, rest);
  }

  /** Two members in either order. */
  lemma ObjectParsed(k: string, v: string, l: string, w: string)
    requires AllPlain(k) && AllPlain(v) && AllPlain(l) && AllPlain(w)
    ensures ParseObject("{" + Member(k, v) + "," + Member(l, w) + "}") == Some(map[][k := v][l := w])
  {
    var s := "{" + Member(k, v) + "," + Member(l, w) + "}";
    var first := Member(k, v) + ("," + (Member(l, w) + "}"));
    assert Skip(s) == s && s[1..] == first;
    assert Take(s, '{') == Some(first);
    assert first[0] == '"';
    MemberParsed(k, v, "," + (Member(l, w) + "}"));
    var comma := "," + (Member(l, w) + "}");
    assert comma[0] == ',' && comma[1..] == Member(l, w) + "}";
    MemberParsed(l, w, "}");
    assert ParseMembers(Member(l, w) + "}", map[][k := v]) == Some((map[][k := v][l := w], ""));
  }

  lemma BytesBack(s: string)
    requires Ascii(s)
    ensures FromBytes(ToBytes(s)) == Some(s)
  {
    var b := ToBytes(s);
    assert seq(|b|, i requires 0 <= i < |b| => b[i] as char) == s;
  }

  lemma PartsArePlain(c: Cursor)
    requires WellFormed(c)
    ensures AllPlain(Timestamps.Print(c.at) + "Z") && AllPlain(Canonical(c).id)
  {
    Timestamps.PrintedText(c.at);
    Uuids.PrintIsText(Uuids.Parse(c.id).value);
    var t := Timestamps.Print(c.at);
    assert forall i :: 0 <= i < |t| ==> t[i] in t;
  }

  lemma CanonicalTwice(c: Cursor)
    requires WellFormed(c)
    ensures WellFormed(Canonical(c)) && Canonical(Canonical(c)) == Canonical(c) && Encode(Canonical(c)) == Encode(c)
  {
    Uuids.CanonicalTwice(c.id);
  }

  lemma FieldsRead(c: Cursor, payload: map<string, string>)
    requires WellFormed(c) && payload.Keys == {"t", "id"}
    requires payload["t"] == Timestamps.Print(c.at) + "Z" && payload["id"] == Canonical(c).id
    ensures FromFields(payload) == Some(Canonical(c))
  {
    assert payload["t"][..|payload["t"]| - 1] == Timestamps.Print(c.at);
    Timestamps.ParsePrinted(c.at);
    Uuids.CanonicalTwice(c.id);
  }

  lemma TextRead(text: string)
    requires Ascii(text) && 0 < |text| <= 79
    ensures Loose(Base64Url.Encode(ToBytes(text))) ==
      if ParseObject(text).None? then None else FromFields(ParseObject(text).value)
  {
    Base64Url.DecodeEncoded(ToBytes(text));
    BytesBack(text);
  }

  /** With its members in either order, the looser reading finds the cursor. */
  lemma LooseReads(c: Cursor)
    requires WellFormed(c)
    ensures Loose(Encode(c)) == Some(Canonical(c))
    ensures Ascii(Swapped(c)) && Loose(Base64Url.Encode(ToBytes(Swapped(c)))) == Some(Canonical(c))
  {
    hide Ascii, FromFields, ParseObject, Timestamps.Print, Base64Url.Encode, Base64Url.Decode;
    var t, id := Timestamps.Print(c.at) + "Z", Canonical(c).id;
    PayloadIsAscii(c);
    AsciiEitherWay(Member("t", t), Member("id", id));
    TextRead(Payload(c));
    TextRead(Swapped(c));
    PartsArePlain(c);
    ObjectParsed("t", t, "id", id);
    ObjectParsed("id", id, "t", t);
    FieldsRead(c, map[]["t" := t]["id" := id]);
    FieldsRead(c, map[]["id" := id]["t" := t]);
  }

  lemma AsciiEitherWay(t: string, id: string)
    requires Ascii("{" + t + "," + id + "}")
    ensures Ascii("{" + id + "," + t + "}")
  {
    var s, r := "{" + t + "," + id + "}", "{" + id + "," + t + "}";
    forall i | 0 <= i < |r| ensures r[i] < 128 as char {
      assert 0 < i <= |id| ==> r[i] == s[i + |t| + 1];
      assert |id| + 1 < i < |r| - 1 ==> r[i] == s[i - |id| - 1];
    }
  }

  /** Decoding gives back what was encoded, in canonical form, and every cursor fits the limit. */
  lemma DecodeEncoded(c: Cursor)
    requires WellFormed(c)
    ensures Decode(Encode(c)) == Some(Canonical(c))
    ensures 0 < |Encode(c)| <= 106 < MAX_CURSOR_CHARS
  {
    LooseReads(c);
    PayloadIsAscii(c);
    CanonicalTwice(c);
  }

  /** A text is accepted exactly when it is the encoding of the canonical cursor it stands for. */
  lemma DecodeExactly(value: string, c: Cursor)
    ensures Decode(value) == Some(c) <==> WellFormed(c) && Canonical(c) == c && value == Encode(c)
  {
    if WellFormed(c) && Canonical(c) == c && value == Encode(c) {
      DecodeEncoded(c);
    }
  }

  /** No two texts are accepted for one position. */
  lemma OneSpelling(v: string, w: string)
    requires Decode(v).Some? && Decode(v) == Decode(w)
    ensures v == w
  {
    DecodeExactly(v, Decode(v).value);
    DecodeExactly(w, Decode(w).value);
  }

  /** It is the last comparison that makes it so: with the members swapped the text says the same, and is refused. */
  lemma SwappedIsRefused(c: Cursor)
    requires WellFormed(c)
    ensures Ascii(Swapped(c))
    ensures var value := Base64Url.Encode(ToBytes(Swapped(c)));
      Loose(value) == Some(Canonical(c)) && Decode(value).None?
  {
    LooseReads(c);
    CanonicalTwice(c);
    Differ(c);
  }

  lemma Differ(c: Cursor)
    requires WellFormed(c) && Ascii(Swapped(c))
    ensures Base64Url.Encode(ToBytes(Swapped(c))) != Encode(c)
  {
    PayloadIsAscii(c);
    SecondLetters(Timestamps.Print(c.at) + "Z", Canonical(c).id);
    EncodingTells(Swapped(c), Payload(c));
  }

  lemma SecondLetters(t: string, id: string)
    ensures "{" + Member("id", id) + "," + Member("t", t) + "}" != "{" + Member("t", t) + "," + Member("id", id) + "}"
  {
    assert ("{" + Member("id", id) + "," + Member("t", t) + "}")[2] == 'i';
    assert ("{" + Member("t", t) + "," + Member("id", id) + "}")[2] == 't';
  }

  lemma EncodingTells(a: string, b: string)
    requires Ascii(a) && Ascii(b) && a != b
    ensures Base64Url.Encode(ToBytes(a)) != Base64Url.Encode(ToBytes(b))
  {
    Base64Url.DecodeEncoded(ToBytes(a));
    Base64Url.DecodeEncoded(ToBytes(b));
    BytesBack(a);
    BytesBack(b);
  }
}
