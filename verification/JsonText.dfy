/** Tokens of JSON text: spaces, signs and strings without escapes. */
module JsonText {
  import opened Wrappers

  predicate Space(c: char) { c == ' ' || c == '\t' || c == '\n' || c == '\r' }

  function Skip(s: string): (r: string)
    ensures |r| <= |s| && (r != "" ==> !Space(r[0]))
  {
    if s != "" && Space(s[0]) then Skip(s[1..]) else s
  }

  /** Takes one given character, after spaces. */
  function Take(s: string, c: char): (r: Option<string>)
    ensures r.Some? ==> |r.value| < |s|
  {
    var t := Skip(s);
    if t != "" && t[0] == c then Some(t[1..]) else None
  }

  predicate Plain(c: char) { ' ' <= c && c != '"' && c != '\\' }

  /** Visible ASCII that needs no escape. */
  predicate TameChar(c: char) { ' ' <= c < 127 as char && c != '"' && c != '\\' }

  predicate Tame(s: string) { forall c :: c in s ==> TameChar(c) }

  predicate AllPlain(s: string) { forall i :: 0 <= i < |s| ==> Plain(s[i]) }

  /** What stands before the closing quote, and what follows it. */
  function Quoted(s: string): (r: Option<(string, string)>)
    ensures r.Some? ==> |r.value.1| < |s|
  {
    if s == "" then None
    else if s[0] == '"' then Some(("", s[1..]))
    else if !Plain(s[0]) then None
    else
      var rest := Quoted(s[1..]);
      if rest.None? then None else Some(([s[0]] + rest.value.0, rest.value.1))
  }

  function ParseString(s: string): (r: Option<(string, string)>)
    ensures r.Some? ==> |r.value.1| < |s|
  {
    var t := Take(s, '"');
    if t.None? then None else Quoted(t.value)
  }

  lemma {:induction false} QuotedPlain(body: string, rest: string)
    requires AllPlain(body)
    ensures Quoted(body + "\"" + rest) == Some((body, rest))
  {
    var s := body + "\"" + rest;
    if body == "" {
      assert s[0] == '"' && s[1..] == rest;
    } else {
      assert s[1..] == body[1..] + "\"" + rest && [s[0]] + body[1..] == body;
      QuotedPlain(body[1..], rest);
    }
  }
}
