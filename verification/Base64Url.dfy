/** Unpadded base64 with the URL-safe alphabet (sections 3.2, 3.5 and 5 of RFC 4648). */
module Base64Url {
  import opened Wrappers

  type Byte = n: nat | n < 256
  type Six = n: nat | n < 64

  // ---- Bytes as groups of six bits ----

  /** Three bytes make four groups; one or two bytes at the end make two or three. */
  function Pack(b: seq<Byte>): (v: seq<Six>)
    ensures |v| == (4 * |b| + 2) / 3
  {
    if |b| == 0 then []
    else if |b| == 1 then [b[0] / 4, b[0] % 4 * 16]
    else if |b| == 2 then [b[0] / 4, b[0] % 4 * 16 + b[1] / 16, b[1] % 16 * 4]
    else [b[0] / 4, b[0] % 4 * 16 + b[1] / 16, b[1] % 16 * 4 + b[2] / 64, b[2] % 64] + Pack(b[3..])
  }

  function First(v0: Six, v1: Six): Byte {
    v0 * 4 + v1 / 16
  }

  function Second(v1: Six, v2: Six): Byte {
    v1 % 16 * 16 + v2 / 4
  }

  function Third(v2: Six, v3: Six): Byte {
    v2 % 4 * 64 + v3
  }

  /** Left-over bits at the end are dropped, whatever they are. */
  function Unpack(v: seq<Six>): seq<Byte>
    requires |v| % 4 != 1
  {
    hide First, Second, Third;
    if |v| == 0 then []
    else if |v| == 2 then [First(v[0], v[1])]
    else if |v| == 3 then [First(v[0], v[1]), Second(v[1], v[2])]
    else [First(v[0], v[1]), Second(v[1], v[2]), Third(v[2], v[3])] + Unpack(v[4..])
  }

  lemma Ungroup(x: Byte, y: Byte, z: Byte)
    ensures First(x / 4, x % 4 * 16 + y / 16) == x
    ensures Second(x % 4 * 16 + y / 16, y % 16 * 4 + z / 64) == y
    ensures Third(y % 16 * 4 + z / 64, z % 64) == z
  {
  }

  lemma {:induction false} UnpackPacked(b: seq<Byte>)
    ensures |Pack(b)| % 4 != 1 && Unpack(Pack(b)) == b
  {
    hide First, Second, Third;
    if |b| > 0 {
      Ungroup(b[0], if |b| > 1 then b[1] else 0, if |b| > 2 then b[2] else 0);
    }
    if |b| >= 3 {
      UnpackPacked(b[3..]);
      assert Pack(b)[4..] == Pack(b[3..]);
    }
  }

  /** The bits that belong to no byte are zero. */
  predicate ZeroTail(v: seq<Six>) {
    if |v| % 4 == 2 then v[|v| - 1] % 16 == 0
    else if |v| % 4 == 3 then v[|v| - 1] % 4 == 0
    else true
  }

  lemma {:induction false} PackUnpacked(v: seq<Six>)
    requires |v| % 4 != 1
    ensures Pack(Unpack(v)) == v <==> ZeroTail(v)
  {
    if |v| == 2 {
      PackTwo(v[0], v[1]);
      assert v == [v[0], v[1]];
    } else if |v| == 3 {
      PackThree(v[0], v[1], v[2]);
      assert v == [v[0], v[1], v[2]];
    } else if |v| > 0 {
      var rest := v[4..];
      PackUnpacked(rest);
      UnpackFour(v);
      PackFour(v[0], v[1], v[2], v[3], Unpack(rest));
      SameAfter(v[..4], Pack(Unpack(rest)), rest);
      assert v == v[..4] + rest;
      TailOfRest(v);
    }
  }

  lemma UnpackFour(v: seq<Six>)
    requires |v| >= 4 && |v| % 4 != 1
    ensures Unpack(v) == [First(v[0], v[1]), Second(v[1], v[2]), Third(v[2], v[3])] + Unpack(v[4..])
    ensures v[..4] == [v[0], v[1], v[2], v[3]]
  {
  }

  lemma SameAfter(front: seq<Six>, a: seq<Six>, b: seq<Six>)
    ensures front + a == front + b <==> a == b
  {
    assert (front + a)[|front|..] == a && (front + b)[|front|..] == b;
  }

  lemma TailOfRest(v: seq<Six>)
    requires |v| >= 4
    ensures ZeroTail(v) <==> ZeroTail(v[4..])
  {
    assert |v| > 4 ==> v[4..][|v| - 5] == v[|v| - 1];
  }

  lemma PackTwo(v0: Six, v1: Six)
    ensures Pack([First(v0, v1)]) == [v0, v1] <==> v1 % 16 == 0
  {
    hide First, Second, Third;
    Regroup(v0, v1, 0, 0);
  }

  lemma PackThree(v0: Six, v1: Six, v2: Six)
    ensures Pack([First(v0, v1), Second(v1, v2)]) == [v0, v1, v2] <==> v2 % 4 == 0
  {
    hide First, Second, Third;
    Regroup(v0, v1, v2, 0);
  }

  lemma PackFour(v0: Six, v1: Six, v2: Six, v3: Six, rest: seq<Byte>)
    ensures Pack([First(v0, v1), Second(v1, v2), Third(v2, v3)] + rest) == [v0, v1, v2, v3] + Pack(rest)
  {
    hide First, Second, Third;
    Regroup(v0, v1, v2, v3);
    PackGroup(First(v0, v1), Second(v1, v2), Third(v2, v3), rest);
  }

  lemma PackGroup(x: Byte, y: Byte, z: Byte, rest: seq<Byte>)
    ensures Pack([x, y, z] + rest) == [x / 4, x % 4 * 16 + y / 16, y % 16 * 4 + z / 64, z % 64] + Pack(rest)
  {
    assert ([x, y, z] + rest)[3..] == rest;
  }

  lemma Regroup(v0: Six, v1: Six, v2: Six, v3: Six)
    ensures First(v0, v1) / 4 == v0 && First(v0, v1) % 4 == v1 / 16
    ensures Second(v1, v2) / 16 == v1 % 16 && Second(v1, v2) % 16 == v2 / 4
    ensures Third(v2, v3) / 64 == v2 % 4 && Third(v2, v3) % 64 == v3
  {
  }

  // ---- Groups as letters ----

  function Letter(v: Six): (c: char)
    ensures Sextet(c) == Some(v)
  {
    if v < 26 then 'A' + v as char
    else if v < 52 then 'a' + (v - 26) as char
    else if v < 62 then '0' + (v - 52) as char
    else if v == 62 then '-' else '_'
  }

  function Sextet(c: char): (v: Option<Six>)
    ensures v.Some? ==> c < 128 as char
  {
    if 'A' <= c <= 'Z' then Some((c - 'A') as nat)
    else if 'a' <= c <= 'z' then Some((c - 'a') as nat + 26)
    else if '0' <= c <= '9' then Some((c - '0') as nat + 52)
    else if c == '-' then Some(62)
    else if c == '_' then Some(63)
    else None
  }

  lemma LetterOfSextet(c: char)
    requires Sextet(c).Some?
    ensures Letter(Sextet(c).value) == c
  {
  }

  predicate InAlphabet(s: string) { forall i :: 0 <= i < |s| ==> Sextet(s[i]).Some? }

  function Letters(v: seq<Six>): (s: string)
    ensures |s| == |v| && InAlphabet(s) && Sextets(s) == v
  {
    seq(|v|, i requires 0 <= i < |v| => Letter(v[i]))
  }

  function Sextets(s: string): (v: seq<Six>)
    requires InAlphabet(s)
    ensures |v| == |s|
  {
    seq(|s|, i requires 0 <= i < |s| => Sextet(s[i]).value)
  }

  lemma LettersOfSextets(s: string)
    requires InAlphabet(s)
    ensures Letters(Sextets(s)) == s
  {
    forall i | 0 <= i < |s| ensures Letter(Sextets(s)[i]) == s[i] {
      LetterOfSextet(s[i]);
    }
  }

  function Encode(b: seq<Byte>): (s: string)
    ensures InAlphabet(s) && |s| == (4 * |b| + 2) / 3
  {
    Letters(Pack(b))
  }

  function Decode(s: string): seq<Byte>
    requires InAlphabet(s) && |s| % 4 != 1
  {
    Unpack(Sextets(s))
  }

  lemma DecodeEncoded(b: seq<Byte>)
    ensures |Encode(b)| % 4 != 1 && Decode(Encode(b)) == b
  {
    UnpackPacked(b);
  }

  /** Among the spellings of some bytes, the encoding is the one whose left-over bits are zero. */
  lemma EncodeDecoded(s: string)
    requires InAlphabet(s) && |s| % 4 != 1
    ensures Encode(Decode(s)) == s <==> ZeroTail(Sextets(s))
  {
    PackUnpacked(Sextets(s));
    LettersOfSextets(s);
  }
}
