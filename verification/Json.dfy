/** JSON values of the kinds an audit line holds, printed compactly and read back. */
module Json {
  import opened Wrappers
  import opened JsonText

  datatype Json =
    | Null
    | Bool(b: bool)
    | Number(token: string)
    | String(s: string)
    | Object(members: seq<(string, Json)>)

  predicate NumberChar(c: char) { '0' <= c <= '9' || c in "+-.eE" }

  predicate StartsNumber(c: char) { '0' <= c <= '9' || c == '-' }

  predicate IsToken(t: string) { t != "" && StartsNumber(t[0]) && forall i :: 0 <= i < |t| ==> NumberChar(t[i]) }

  /** Strings are tame and numbers are single tokens. */
  predicate Printable(j: Json)
    decreases j
  {
    match j
    case Null => true
    case Bool(_) => true
    case Number(t) => IsToken(t)
    case String(s) => Tame(s)
    case Object(ms) => forall i :: 0 <= i < |ms| ==> Tame(ms[i].0) && Printable(ms[i].1)
  }

  function Print(j: Json): string
    decreases j, 0
  {
    match j
    case Null => "null"
    case Bool(b) => if b then "true" else "false"
    case Number(t) => t
    case String(s) => "\"" + s + "\""
    case Object(ms) => "{" + PrintMembers(ms) + "}"
  }

  function PrintMembers(ms: seq<(string, Json)>): string
    decreases ms, 1
  {
    if ms == [] then ""
    else PrintMember(ms[0]) + (if |ms| == 1 then "" else "," + PrintMembers(ms[1..]))
  }

  function PrintMember(m: (string, Json)): string
    decreases m, 1
  {
    "\"" + m.0 + "\":" + Print(m.1)
  }

  /** The longest start made of number characters. */
  function Token(s: string): (t: string)
    ensures |t| <= |s| && t == s[..|t|]
  {
    if s == "" || !NumberChar(s[0]) then "" else [s[0]] + Token(s[1..])
  }

  function ParseValue(s: string): (r: Option<(Json, string)>)
    ensures r.Some? ==> |r.value.1| < |s|
    decreases |s|, 1
  {
    var t := Skip(s);
    if t == "" then None
    else if t[0] == '"' then
      var q := ParseString(t);
      if q.None? then None else Some((String(q.value.0), q.value.1))
    else if t[0] == '{' then
      if Take(t[1..], '}').Some? then Some((Object([]), Take(t[1..], '}').value))
      else
        var ms := ParseMembers(t[1..]);
        if ms.None? then None else Some((Object(ms.value.0), ms.value.1))
    else if "null" <= t then Some((Null, t[4..]))
    else if "true" <= t then Some((Bool(true), t[4..]))
    else if "false" <= t then Some((Bool(false), t[5..]))
    else if StartsNumber(t[0]) then Some((Number(Token(t)), t[|Token(t)|..]))
    else None
  }

  function ParseMember(s: string): (r: Option<((string, Json), string)>)
    ensures r.Some? ==> |r.value.1| < |s|
    decreases |s|, 0
  {
    var key := ParseString(s);
    if key.None? then None else
    var colon := Take(key.value.1, ':');
    if colon.None? then None else
    var value := ParseValue(colon.value);
    if value.None? then None else Some(((key.value.0, value.value.0), value.value.1))
  }

  /** Members up to the closing brace. */
  function ParseMembers(s: string): (r: Option<(seq<(string, Json)>, string)>)
    ensures r.Some? ==> |r.value.1| < |s|
    decreases |s|, 1
  {
    var m := ParseMember(s);
    if m.None? then None else
    var close, comma := Take(m.value.1, '}'), Take(m.value.1, ',');
    if close.Some? then Some(([m.value.0], close.value))
    else if comma.None? then None
    else
      var rest := ParseMembers(comma.value);
      if rest.None? then None else Some(([m.value.0] + rest.value.0, rest.value.1))
  }

  /** One value and nothing after it. */
  function Parse(s: string): Option<Json> {
    var r := ParseValue(s);
    if r.Some? && Skip(r.value.1) == "" then Some(r.value.0) else None
  }

  predicate Ends(rest: string) { rest == "" || !NumberChar(rest[0]) }

  lemma {:induction false} TokenRead(t: string, rest: string)
    requires (forall i :: 0 <= i < |t| ==> NumberChar(t[i])) && Ends(rest)
    ensures Token(t + rest) == t
  {
    if t != "" {
      assert (t + rest)[1..] == t[1..] + rest;
      TokenRead(t[1..], rest);
    } else {
      assert t + rest == rest;
    }
  }

  lemma StringRead(body: string, rest: string)
    requires Tame(body)
    ensures ParseString("\"" + body + "\"" + rest) == Some((body, rest))
  {
    var s := "\"" + body + "\"" + rest;
    assert Skip(s) == s && s[1..] == body + "\"" + rest;
    assert AllPlain(body) by { assert forall i :: 0 <= i < |body| ==> body[i] in body; }
    QuotedPlain(body, rest);
  }

  lemma LiteralRead(rest: string)
    ensures ParseValue("null" + rest) == Some((Null, rest))
    ensures ParseValue("true" + rest) == Some((Bool(true), rest))
    ensures ParseValue("false" + rest) == Some((Bool(false), rest))
  {
    assert ("null" + rest)[..4] == "null" && ("null" + rest)[4..] == rest;
    assert ("true" + rest)[..4] == "true" && ("true" + rest)[4..] == rest;
    assert ("false" + rest)[..5] == "false" && ("false" + rest)[5..] == rest;
  }

  lemma NumberRead(t: string, rest: string)
    requires IsToken(t) && Ends(rest)
    ensures ParseValue(t + rest) == Some((Number(t), rest))
  {
    var s := t + rest;
    TokenRead(t, rest);
    assert s[0] == t[0] && Skip(s) == s && s[|t|..] == rest;
    assert !("null" <= s) by { assert "null"[0] == 'n'; }
    assert !("true" <= s) by { assert "true"[0] == 't'; }
    assert !("false" <= s) by { assert "false"[0] == 'f'; }
  }

  /** What is printed is read back, whatever follows it. */
  lemma {:induction false} ValueRead(j: Json, rest: string)
    requires Printable(j) && Ends(rest)
    ensures ParseValue(Print(j) + rest) == Some((j, rest))
    decreases j, 0
  {
    match j
    case Null => LiteralRead(rest);
    case Bool(_) => LiteralRead(rest);
    case Number(t) => NumberRead(t, rest);
    case String(s) => StringRead(s, rest);
    case Object(ms) =>
      if ms != [] {
        MembersRead(ms, rest);
      }
      ObjectRead(ms, rest);
  }

  lemma ObjectRead(ms: seq<(string, Json)>, rest: string)
    requires ms != [] ==> ParseMembers(PrintMembers(ms) + "}" + rest) == Some((ms, rest))
    requires ms != [] ==> Take(PrintMembers(ms) + "}" + rest, '}').None?
    ensures ParseValue(Print(Object(ms)) + rest) == Some((Object(ms), rest))
  {
    hide ParseValue, ParseMembers;
    var inside := PrintMembers(ms) + "}" + rest;
    assert Print(Object(ms)) + rest == "{" + inside;
    BraceRead(inside);
    if ms == [] {
      assert inside == "}" + rest && inside[1..] == rest;
      assert Skip(inside) == inside;
    }
  }

  lemma BraceRead(inside: string)
    ensures ParseValue("{" + inside) ==
      if Take(inside, '}').Some? then Some((Object([]), Take(inside, '}').value))
      else if ParseMembers(inside).None? then None
      else Some((Object(ParseMembers(inside).value.0), ParseMembers(inside).value.1))
  {
    var s := "{" + inside;
    assert s[0] == '{' && Skip(s) == s && s[1..] == inside;
  }

  lemma PrintedMembers(ms: seq<(string, Json)>, rest: string)
    requires ms != []
    ensures PrintMembers(ms) + "}" + rest ==
      PrintMember(ms[0]) + if |ms| == 1 then "}" + rest else "," + (PrintMembers(ms[1..]) + "}" + rest)
  {
    Regroup(PrintMember(ms[0]), if |ms| == 1 then "" else PrintMembers(ms[1..]), rest);
  }

  lemma Regroup(a: string, b: string, rest: string)
    ensures (a + ("," + b)) + "}" + rest == a + ("," + (b + "}" + rest))
    ensures (a + "") + "}" + rest == a + ("}" + rest)
  {
  }

  lemma LastMember(s: string, m: (string, Json), rest: string)
    requires ParseMember(s) == Some((m, "}" + rest))
    ensures ParseMembers(s) == Some(([m], rest))
  {
    assert ("}" + rest)[1..] == rest;
  }

  lemma OtherMember(s: string, m: (string, Json), more: string, ms: seq<(string, Json)>, rest: string)
    requires ParseMember(s) == Some((m, "," + more)) && ParseMembers(more) == Some((ms, rest))
    ensures ParseMembers(s) == Some(([m] + ms, rest))
  {
    assert ("," + more)[1..] == more;
  }

  lemma NoClose(s: string, rest: string)
    requires s != "" && s[0] == '"'
    ensures Take(s + rest, '}').None?
  {
  }

  lemma {:induction false} MemberRead(m: (string, Json), rest: string)
    requires Tame(m.0) && Printable(m.1) && Ends(rest)
    ensures ParseMember(PrintMember(m) + rest) == Some((m, rest))
    ensures PrintMember(m)[0] == '"'
    decreases m, 1
  {
    var s := PrintMember(m) + rest;
    var after := ":" + Print(m.1) + rest;
    assert s == "\"" + m.0 + "\"" + after;
    StringRead(m.0, after);
    assert Skip(after) == after && after[1..] == Print(m.1) + rest;
    ValueRead(m.1, rest);
  }

  lemma {:induction false} MembersRead(ms: seq<(string, Json)>, rest: string)
    requires ms != [] && forall i :: 0 <= i < |ms| ==> Tame(ms[i].0) && Printable(ms[i].1)
    ensures ParseMembers(PrintMembers(ms) + "}" + rest) == Some((ms, rest))
    ensures Take(PrintMembers(ms) + "}" + rest, '}').None?
    decreases ms, 1
  {
    hide ParseMembers, ParseMember, Take;
    var s := PrintMembers(ms) + "}" + rest;
    PrintedMembers(ms, rest);
    if |ms| == 1 {
      var after := "}" + rest;
      MemberRead(ms[0], after);
      NoClose(PrintMember(ms[0]), after);
      LastMember(s, ms[0], rest);
      assert ms == [ms[0]];
    } else {
      var more := PrintMembers(ms[1..]) + "}" + rest;
      var after := "," + more;
      MemberRead(ms[0], after);
      NoClose(PrintMember(ms[0]), after);
      MembersRead(ms[1..], rest);
      OtherMember(s, ms[0], more, ms[1..], rest);
      assert ms == [ms[0]] + ms[1..];
    }
  }

  lemma PrintRead(j: Json)
    requires Printable(j)
    ensures Parse(Print(j)) == Some(j)
  {
    ValueRead(j, "");
    assert Print(j) + "" == Print(j);
  }

  predicate Visible(c: char) { ' ' <= c < 127 as char }

  /** A printed value stays on one line and takes one byte a character. */
  lemma {:induction false} PrintIsVisible(j: Json)
    requires Printable(j)
    ensures forall c :: c in Print(j) ==> Visible(c)
    decreases j, 0
  {
    match j
    case Null =>
    case Bool(_) =>
    case Number(t) =>
    case String(s) =>
    case Object(ms) => MembersAreVisible(ms);
  }

  lemma {:induction false} MembersAreVisible(ms: seq<(string, Json)>)
    requires forall i :: 0 <= i < |ms| ==> Tame(ms[i].0) && Printable(ms[i].1)
    ensures forall c :: c in PrintMembers(ms) ==> Visible(c)
    decreases ms, 1
  {
    if ms != [] {
      MemberIsVisible(ms[0]);
      MembersAreVisible(ms[1..]);
    }
  }

  lemma {:induction false} MemberIsVisible(m: (string, Json))
    requires Tame(m.0) && Printable(m.1)
    ensures forall c :: c in PrintMember(m) ==> Visible(c)
    decreases m, 1
  {
    PrintIsVisible(m.1);
  }
}
