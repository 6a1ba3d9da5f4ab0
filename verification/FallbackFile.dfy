/** The bounded file of audit lines waiting to be imported. */
module FallbackFile {
  import opened Wrappers
  import opened AuditEvents
  import opened FallbackCodec
  import J = Json
  import R = Reconciliation

  // ---- Lines and bytes ----

  /** Everything Python takes for the end of a line. */
  predicate Break(c: char) {
    c == '\n' || c == '\r' || c == 11 as char || c == 12 as char || c == 28 as char || c == 29 as char
      || c == 30 as char
    || c == 133 as char || c == '\U{2028}' || c == '\U{2029}'
  }

  function FirstLine(s: string): (l: string)
    ensures |l| <= |s| && l == s[..|l|] && (|l| < |s| ==> Break(s[|l|]))
  {
    if s == "" || Break(s[0]) then "" else [s[0]] + FirstLine(s[1..])
  }

  function SplitLines(s: string): seq<string>
    decreases |s|
  {
    if s == "" then []
    else
      var l := FirstLine(s);
      if |l| == |s| then [l]
      else if s[|l|] == '\r' && |l| + 1 < |s| && s[|l| + 1] == '\n' then [l] + SplitLines(s[|l| + 2..])
      else [l] + SplitLines(s[|l| + 1..])
  }

  /** The size in UTF-8. */
  function Bytes(s: string): nat {
    if s == "" then 0
    else
      var c := s[|s| - 1] as int;
      Bytes(s[..|s| - 1]) + if c < 0x80 then 1 else if c < 0x800 then 2 else if c < 0x1_0000 then 3 else 4
  }

  lemma {:induction false} BytesJoin(s: string, t: string)
    ensures Bytes(s + t) == Bytes(s) + Bytes(t)
  {
    if t == "" {
      assert s + t == s;
    } else {
      assert (s + t)[..|s + t| - 1] == s + t[..|t| - 1];
      BytesJoin(s, t[..|t| - 1]);
    }
  }

  lemma {:induction false} FirstLineWhole(body: string, rest: string)
    requires forall c :: c in body ==> !Break(c)
    ensures FirstLine(body + "\n" + rest) == body
  {
    var s := body + "\n" + rest;
    if body != "" {
      assert s[1..] == body[1..] + "\n" + rest && body == [body[0]] + body[1..];
      FirstLineWhole(body[1..], rest);
      assert !Break(body[0]);
    }
  }

  lemma {:induction false} FirstLineIsWhole(s: string)
    ensures forall c :: c in FirstLine(s) ==> !Break(c)
  {
    if s != "" && !Break(s[0]) {
      FirstLineIsWhole(s[1..]);
    }
  }

  lemma SplitFirst(body: string, rest: string)
    requires forall c :: c in body ==> !Break(c)
    ensures SplitLines(body + "\n" + rest) == [body] + SplitLines(rest)
  {
    var s := body + "\n" + rest;
    FirstLineWhole(body, rest);
    assert s[|body|] == '\n' && s[|body| + 1..] == rest;
  }

  // ---- The file ----

  ghost predicate AllFiled(f: Formats, es: seq<Event>) {
    forall i :: 0 <= i < |es| ==> Filed(f, es[i])
  }

  function JoinLines(lines: seq<string>): string {
    if lines == [] then "" else lines[0] + "\n" + JoinLines(lines[1..])
  }

  lemma {:induction false} JoinMore(lines: seq<string>, line: string)
    ensures JoinLines(lines + [line]) == JoinLines(lines) + (line + "\n")
  {
    if lines == [] {
      assert [] + [line] == [line] && JoinLines([line]) == line + "\n" + JoinLines([]);
    } else {
      assert (lines + [line])[1..] == lines[1..] + [line];
      JoinMore(lines[1..], line);
    }
  }

  ghost predicate OneLiner(s: string) { forall c :: c in s ==> J.Visible(c) }

  lemma {:induction false} SplitJoined(lines: seq<string>)
    requires forall i :: 0 <= i < |lines| ==> OneLiner(lines[i])
    ensures SplitLines(JoinLines(lines)) == lines
  {
    if lines != [] {
      assert OneLiner(lines[0]);
      SplitFirst(lines[0], JoinLines(lines[1..]));
      SplitJoined(lines[1..]);
    }
  }

  /** The lines of a file with these events. */
  ghost function Lines(f: Formats, es: seq<Event>): (lines: seq<string>)
    requires AllFiled(f, es)
    ensures |lines| == |es|
  {
    seq(|es|, i requires 0 <= i < |es| => Encode(f, es[i]))
  }

  lemma LinesMore(f: Formats, es: seq<Event>, e: Event)
    requires AllFiled(f, es) && Filed(f, e)
    ensures AllFiled(f, es + [e]) && Lines(f, es + [e]) == Lines(f, es) + [Encode(f, e)]
  {
    var all := es + [e];
    assert forall i :: 0 <= i < |all| ==> all[i] == if i < |es| then es[i] else e;
  }

  /** Each line stays whole and is read as its event in canonical form. */
  lemma LineBack(f: Formats, es: seq<Event>, i: nat)
    requires AllFiled(f, es) && i < |es|
    ensures OneLiner(Lines(f, es)[i]) && Lines(f, es)[i] != ""
    ensures Decode(f, Lines(f, es)[i]).Some? && Success(Decode(f, Lines(f, es)[i]).value) == Canonicalize(es[i])
  {
    DecodeEncoded(f, es[i]);
  }

  lemma SplitText(f: Formats, es: seq<Event>)
    requires AllFiled(f, es)
    ensures SplitLines(JoinLines(Lines(f, es))) == Lines(f, es)
  {
    forall i | 0 <= i < |es| ensures OneLiner(Lines(f, es)[i]) {
      LineBack(f, es, i);
    }
    SplitJoined(Lines(f, es));
  }

  datatype FileError = Format | Busy | Full | Io

  /** What an event is put into the file as. */
  lemma FallbackIsFiled(f: Formats, e: Event)
    requires Lawful(f) && Persistable(e) && f.isTime(e.occurredAt) && FloatsOk(f, e.facts.parameters)
    ensures Filed(f, FallbackEvent(e))
  {
    SanitizeTwice(e.facts);
    SanitizedIsWritable(f, e.facts);
    StillCanonical(e, Sanitize(e.facts));
  }

  lemma StillCanonical(e: Event, x: Facts)
    requires Canonicalize(e).Success?
    ensures Canonicalize(e.(delivery := Fallback, facts := x)).Success?
  {
  }

  /** Lists, objects and floats that are no numbers: where one that is none may be found. */
  predicate MayHideNonFinite(p: Parameters) {
    p.Dict? && exists k :: k in p.items && (p.items[k].NonFinite? || p.items[k].Compound?)
  }

  /** The event's line still fits behind the text. */
  ghost predicate HasRoom(text: string, f: Formats, e: Event, maxBytes: nat) {
    Writable(f, FallbackEvent(e).facts) && Bytes(text) + Bytes(Encode(f, FallbackEvent(e)) + "\n") <= maxBytes
  }

  class JsonlAuditFallback {
    const formats: Formats
    const maxBytes: nat
    var text: string
    ghost var appended: seq<Event>

    /** The file holds exactly the appended events, within its limit. */
    ghost predicate Valid()
      reads this
    {
      && Lawful(formats) && AllFiled(formats, appended) && text == JoinLines(Lines(formats, appended))
      && Bytes(text) <= maxBytes
    }

    constructor (formats: Formats, maxBytes: nat)
      requires Lawful(formats)
      ensures Valid() && appended == [] && this.formats == formats && this.maxBytes == maxBytes
    {
      this.formats, this.maxBytes, text, appended := formats, maxBytes, "", [];
    }

    /**
     Appends the sanitized event, or leaves the file as it was. `noticed`: a float
     that is no number is noticed among the parameters; `busy`: somebody else holds
     the lock; `written`: the write goes through.
     */
    method Append(e: Event, noticed: bool, busy: bool, written: bool) returns (r: Result<Event, FileError>)
      requires Valid() && formats.isTime(e.occurredAt) && FloatsOk(formats, e.facts.parameters)
      modifies this
      ensures Valid()
      ensures r ==
        if !Persistable(e) || (noticed && MayHideNonFinite(e.facts.parameters)) then Failure(Format)
        else if busy then Failure(Busy)
        else if !HasRoom(old(text), formats, e, maxBytes) then Failure(Full)
        else if !written then Failure(Io)
        else Success(FallbackEvent(e))
      ensures appended == if r.Success? then old(appended) + [r.value] else old(appended)
      ensures r.Failure? ==> text == old(text)
    {
      if !Persistable(e) || (noticed && MayHideNonFinite(e.facts.parameters)) {
        return Failure(Format);
      }
      var filed := FallbackEvent(e);
      FallbackIsFiled(formats, e);
      var line := Encode(formats, filed) + "\n";
      if busy {
        return Failure(Busy);
      }
      if Bytes(text) + Bytes(line) > maxBytes {
        return Failure(Full);
      }
      if !written {
        return Failure(Io);
      }
      Write(filed, line);
      r := Success(filed);
    }

    method Write(e: Event, line: string)
      requires Valid() && Filed(formats, e) && line == Encode(formats, e) + "\n"
        && Bytes(text) + Bytes(line) <= maxBytes
      modifies this
      ensures Valid() && appended == old(appended) + [e]
    {
      BytesJoin(text, line);
      LinesMore(formats, appended, e);
      JoinMore(Lines(formats, appended), Encode(formats, e));
      text := text + line;
      appended := appended + [e];
    }

    /** Every line is an event: as many as were appended, in their order, each in canonical form. */
    method LoadEvents(busy: bool) returns (r: Result<seq<Event>, FileError>)
      requires Valid()
      ensures if busy then r == Failure(Busy) else r.Success? && AllCanonical(r.value, appended)
    {
      if busy {
        return Failure(Busy);
      }
      if Bytes(text) > maxBytes {
        return Failure(Full);
      }
      SplitText(formats, appended);
      r := DecodeLines(SplitLines(text), appended);
    }

    method DecodeLines(lines: seq<string>, ghost es: seq<Event>) returns (r: Result<seq<Event>, FileError>)
      requires Lawful(formats) && AllFiled(formats, es) && lines == Lines(formats, es)
      ensures r.Success? && AllCanonical(r.value, es)
    {
      var events := [];
      for i := 0 to |lines|
        invariant AllCanonical(events, es[..i])
      {
        var e := DecodeLine(lines[i], es, i);
        if e.None? {
          return Failure(Format);
        }
        OneMoreCanonical(events, es, i, e.value);
        events := events + [e.value];
      }
      assert es[..|es|] == es;
      r := Success(events);
    }

    method DecodeLine(line: string, ghost es: seq<Event>, ghost i: nat) returns (r: Option<Event>)
      requires Lawful(formats) && AllFiled(formats, es) && i < |es| && line == Lines(formats, es)[i]
      ensures r.Some? && Success(r.value) == Canonicalize(es[i])
    {
      LineBack(formats, es, i);
      r := if line == "" then None else Decode(formats, line);
    }
  }

  /** One event for each, in canonical form. */
  ghost predicate AllCanonical(events: seq<Event>, es: seq<Event>) {
    |events| == |es| && forall i :: 0 <= i < |es| ==> Success(events[i]) == Canonicalize(es[i])
  }

  lemma OneMoreCanonical(events: seq<Event>, es: seq<Event>, i: nat, e: Event)
    requires i < |es| && AllCanonical(events, es[..i]) && Success(e) == Canonicalize(es[i])
    ensures AllCanonical(events + [e], es[..i + 1])
  {
    forall k | 0 <= k <= i ensures Success((events + [e])[k]) == Canonicalize(es[..i + 1][k]) {
      if k < i {
        assert es[..i][k] == es[k];
      }
    }
  }

  /** What is loaded can be imported as it is: the fallback loses no fact. */
  lemma LoadedIsPrepared(f: Formats, e: Event)
    requires Filed(f, e)
    ensures R.Prepare(Canonicalize(e).value) == Some(Canonicalize(e).value)
  {
    CanonicalizeTwice(e);
    R.PreparedIsCanonical(Canonicalize(e).value);
  }
}
