/** GraphQL global node ids: base64 (section 4 of RFC 4648, standard alphabet,
    with padding) of a type discriminator followed by the decimal database id. */
module NodeId {
  import opened Results

  type Byte = x: int | 0 <= x < 256

  // ---------------------------------------------------------------------
  // Decimal numerals

  function Digit(d: int): (c: char)
    requires 0 <= d < 10
    ensures '0' <= c <= '9' && c as int - '0' as int == d
  {
    ('0' as int + d) as char
  }

  /** The decimal numeral of `n`, without leading zeros. */
  function Decimal(n: nat): (s: string)
    ensures |s| > 0
    ensures forall i :: 0 <= i < |s| ==> '0' <= s[i] <= '9'
    decreases n
  {
    if n < 10 then [Digit(n)] else Decimal(n / 10) + [Digit(n % 10)]
  }

  /** The value of a non-empty string of decimal digits. */
  function DecimalValue(s: string): nat
    requires |s| > 0 && forall i :: 0 <= i < |s| ==> '0' <= s[i] <= '9'
    decreases |s|
  {
    var last := s[|s| - 1] as int - '0' as int;
    if |s| == 1 then last else DecimalValue(s[..|s| - 1]) * 10 + last
  }

  lemma {:induction false} DecimalRoundTrip(n: nat)
    ensures DecimalValue(Decimal(n)) == n
    decreases n
  {
    if n >= 10 {
      var s := Decimal(n);
      assert s[..|s| - 1] == Decimal(n / 10);
      DecimalRoundTrip(n / 10);
    }
  }

  /** Distinct numbers have distinct numerals. */
  lemma DecimalInjective(m: nat, n: nat)
    requires Decimal(m) == Decimal(n)
    ensures m == n
  {
    DecimalRoundTrip(m);
    DecimalRoundTrip(n);
  }

  // ---------------------------------------------------------------------
  // Base64

  /** The character of a 6-bit value in the standard alphabet. */
  function Sextet(v: int): (c: char)
    requires 0 <= v < 64
  {
    if v < 26 then ('A' as int + v) as char
    else if v < 52 then ('a' as int + (v - 26)) as char
    else if v < 62 then ('0' as int + (v - 52)) as char
    else if v == 62 then '+'
    else '/'
  }

  /** The 6-bit value of an alphabet character; `None` for any other character. */
  function SextetValue(c: char): (r: Option<int>)
    ensures r.Some? ==> 0 <= r.value < 64 && Sextet(r.value) == c
  {
    if 'A' <= c <= 'Z' then Some(c as int - 'A' as int)
    else if 'a' <= c <= 'z' then Some(c as int - 'a' as int + 26)
    else if '0' <= c <= '9' then Some(c as int - '0' as int + 52)
    else if c == '+' then Some(62)
    else if c == '/' then Some(63)
    else None
  }

  lemma SextetRoundTrip(v: int)
    requires 0 <= v < 64
    ensures SextetValue(Sextet(v)) == Some(v)
  {
  }

  /** Four characters for three bytes. */
  function EncodeTriple(b0: Byte, b1: Byte, b2: Byte): string {
    [Sextet(b0 / 4), Sextet((b0 % 4) * 16 + b1 / 16), Sextet((b1 % 16) * 4 + b2 / 64), Sextet(b2 % 64)]
  }

  /** Base64 with padding: every three bytes become four characters, and a
      final group of one or two bytes is padded with `=` to four. */
  function Encode(b: seq<Byte>): (s: string)
    ensures |s| == (|b| + 2) / 3 * 4
    decreases |b|
  {
    if |b| == 0 then []
    else if |b| == 1 then [Sextet(b[0] / 4), Sextet((b[0] % 4) * 16), '=', '=']
    else if |b| == 2 then [Sextet(b[0] / 4), Sextet((b[0] % 4) * 16 + b[1] / 16), Sextet((b[1] % 16) * 4), '=']
    else EncodeTriple(b[0], b[1], b[2]) + Encode(b[3..])
  }

  /** One group of four characters; padding is accepted only in the last group,
      and the bits that padding leaves over must be zero. */
  function DecodeQuad(q: string, last: bool): Option<seq<Byte>>
    requires |q| == 4
  {
    var v0, v1, v2, v3 := SextetValue(q[0]), SextetValue(q[1]), SextetValue(q[2]), SextetValue(q[3]);
    if v0.None? || v1.None? then None
    else if last && q[2] == '=' && q[3] == '=' then
      if v1.value % 16 == 0 then Some([v0.value * 4 + v1.value / 16]) else None
    else if v2.None? then None
    else if last && q[3] == '=' then
      if v2.value % 4 == 0 then Some([v0.value * 4 + v1.value / 16, (v1.value % 16) * 16 + v2.value / 4]) else None
    else if v3.None? then None
    else Some([v0.value * 4 + v1.value / 16, (v1.value % 16) * 16 + v2.value / 4, (v2.value % 4) * 64 + v3.value])
  }

  /** Base64 decoding; `None` for text that is not a padded encoding. */
  function Decode(s: string): Option<seq<Byte>>
    decreases |s|
  {
    if |s| == 0 then Some([])
    else if |s| < 4 then None
    else
      match DecodeQuad(s[..4], |s| == 4)
      case None => None
      case Some(head) =>
        match Decode(s[4..])
        case None => None
        case Some(tail) => Some(head + tail)
  }

  lemma TripleRoundTrip(b0: Byte, b1: Byte, b2: Byte, last: bool)
    ensures DecodeQuad(EncodeTriple(b0, b1, b2), last) == Some([b0, b1, b2])
  {
    var x0, x1, x2, x3 := b0 / 4, (b0 % 4) * 16 + b1 / 16, (b1 % 16) * 4 + b2 / 64, b2 % 64;
    SextetRoundTrip(x0);
    SextetRoundTrip(x1);
    SextetRoundTrip(x2);
    SextetRoundTrip(x3);
    assert x1 / 16 == b0 % 4 && x1 % 16 == b1 / 16;
    assert x2 / 4 == b1 % 16 && x2 % 4 == b2 / 64;
  }

  lemma SingleRoundTrip(b0: Byte)
    ensures DecodeQuad(Encode([b0]), true) == Some([b0])
  {
    var x0, x1 := b0 / 4, (b0 % 4) * 16;
    SextetRoundTrip(x0);
    SextetRoundTrip(x1);
  }

  lemma PairRoundTrip(b0: Byte, b1: Byte)
    ensures DecodeQuad(Encode([b0, b1]), true) == Some([b0, b1])
  {
    var x0, x1, x2 := b0 / 4, (b0 % 4) * 16 + b1 / 16, (b1 % 16) * 4;
    SextetRoundTrip(x0);
    SextetRoundTrip(x1);
    SextetRoundTrip(x2);
    assert x1 / 16 == b0 % 4 && x1 % 16 == b1 / 16;
  }

  /** Decoding a group of four characters followed by more text. */
  lemma DecodeGroup(head: string, rest: string, x: seq<Byte>, y: seq<Byte>)
    requires |head| == 4
    requires DecodeQuad(head, |rest| == 0) == Some(x) && Decode(rest) == Some(y)
    ensures Decode(head + rest) == Some(x + y)
  {
    var s := head + rest;
    assert s[..4] == head && s[4..] == rest;
  }

  lemma ShortRoundTrip(b: seq<Byte>)
    requires 1 <= |b| <= 2
    ensures Decode(Encode(b)) == Some(b)
  {
    var s := Encode(b);
    if |b| == 1 {
      assert b == [b[0]];
      SingleRoundTrip(b[0]);
    } else {
      assert b == [b[0], b[1]];
      PairRoundTrip(b[0], b[1]);
    }
    DecodeGroup(s, [], b, []);
    assert s + [] == s && b + [] == b;
  }

  /** Decoding undoes encoding. */
  lemma {:induction false} DecodeEncode(b: seq<Byte>)
    ensures Decode(Encode(b)) == Some(b)
    decreases |b|
  {
    if 1 <= |b| <= 2 {
      ShortRoundTrip(b);
    } else if |b| >= 3 {
      var rest := Encode(b[3..]);
      assert Encode(b) == EncodeTriple(b[0], b[1], b[2]) + rest;
      TripleRoundTrip(b[0], b[1], b[2], |rest| == 0);
      DecodeEncode(b[3..]);
      DecodeGroup(EncodeTriple(b[0], b[1], b[2]), rest, [b[0], b[1], b[2]], b[3..]);
      assert [b[0], b[1], b[2]] + b[3..] == b;
    }
  }

  /** Encoding is injective, since it has a left inverse. */
  lemma EncodeInjective(a: seq<Byte>, b: seq<Byte>)
    requires Encode(a) == Encode(b)
    ensures a == b
  {
    DecodeEncode(a);
    DecodeEncode(b);
  }

  // ---------------------------------------------------------------------
  // Node ids

  /** The bytes of an ASCII string (its UTF-8 encoding). */
  function AsciiBytes(s: string): (b: seq<Byte>)
    requires forall i :: 0 <= i < |s| ==> s[i] as int < 128
    ensures |b| == |s| && forall i :: 0 <= i < |s| ==> b[i] == s[i] as int
  {
    seq(|s|, i requires 0 <= i < |s| => s[i] as int)
  }

  function Tagged(tag: string, id: nat): (s: string)
    requires forall i :: 0 <= i < |tag| ==> tag[i] as int < 128
    ensures forall i :: 0 <= i < |s| ==> s[i] as int < 128
  {
    tag + Decimal(id)
  }

  const UserTag: string := "04:User"
  const TeamTag: string := "04:Team"

  /** The node id of the user with database id `id`. */
  function UserNodeId(id: nat): (s: string)
    ensures Decode(s) == Some(AsciiBytes(UserTag + Decimal(id)))
  {
    DecodeEncode(AsciiBytes(Tagged(UserTag, id)));
    Encode(AsciiBytes(Tagged(UserTag, id)))
  }

  /** The node id of the team with database id `id`. */
  function TeamNodeId(id: nat): (s: string)
    ensures Decode(s) == Some(AsciiBytes(TeamTag + Decimal(id)))
  {
    DecodeEncode(AsciiBytes(Tagged(TeamTag, id)));
    Encode(AsciiBytes(Tagged(TeamTag, id)))
  }

  lemma TaggedInjective(tag: string, m: nat, n: nat)
    requires forall i :: 0 <= i < |tag| ==> tag[i] as int < 128
    requires AsciiBytes(Tagged(tag, m)) == AsciiBytes(Tagged(tag, n))
    ensures m == n
  {
    var s, t := Tagged(tag, m), Tagged(tag, n);
    assert s == t by {
      assert |s| == |t|;
      forall i | 0 <= i < |s| ensures s[i] == t[i] {
        assert AsciiBytes(s)[i] == AsciiBytes(t)[i];
      }
    }
    assert Decimal(m) == s[|tag|..] == t[|tag|..] == Decimal(n);
    DecimalInjective(m, n);
  }

  /** Distinct users get distinct node ids. */
  lemma UserNodeIdInjective(m: nat, n: nat)
    requires UserNodeId(m) == UserNodeId(n)
    ensures m == n
  {
    EncodeInjective(AsciiBytes(Tagged(UserTag, m)), AsciiBytes(Tagged(UserTag, n)));
    TaggedInjective(UserTag, m, n);
  }

  /** Distinct teams get distinct node ids. */
  lemma TeamNodeIdInjective(m: nat, n: nat)
    requires TeamNodeId(m) == TeamNodeId(n)
    ensures m == n
  {
    EncodeInjective(AsciiBytes(Tagged(TeamTag, m)), AsciiBytes(Tagged(TeamTag, n)));
    TaggedInjective(TeamTag, m, n);
  }

  /** A user's node id is never a team's: the discriminators differ. */
  lemma UserAndTeamNodeIdsDiffer(m: nat, n: nat)
    ensures UserNodeId(m) != TeamNodeId(n)
  {
    var u, t := AsciiBytes(Tagged(UserTag, m)), AsciiBytes(Tagged(TeamTag, n));
    assert u[3] != t[3];
    assert Decode(UserNodeId(m)) != Decode(TeamNodeId(n));
  }

  /** The node ids of user 42 and team 7 spelt out. */
  lemma NodeIdExamples()
    ensures UserNodeId(42) == "MDQ6VXNlcjQy"
    ensures TeamNodeId(7) == "MDQ6VGVhbTc="
  {
    UserExample();
    TeamExample();
  }

  lemma UserExample()
    ensures UserNodeId(42) == "MDQ6VXNlcjQy"
  {
    assert Decimal(42) == "42";
    var u := AsciiBytes(Tagged(UserTag, 42));
    assert u == [48, 52, 58, 85, 115, 101, 114, 52, 50];
    var u1, u2 := u[3..], u[3..][3..];
    assert u1 == [85, 115, 101, 114, 52, 50] && u2 == [114, 52, 50];
    assert Encode(u2) == "cjQy" by {
      assert u2[3..] == [];
      assert EncodeTriple(114, 52, 50) == "cjQy";
    }
    assert Encode(u1) == "VXNlcjQy" by {
      assert EncodeTriple(85, 115, 101) == "VXNl";
    }
    assert Encode(u) == "MDQ6VXNlcjQy" by {
      assert EncodeTriple(48, 52, 58) == "MDQ6";
    }
  }

  lemma TeamExample()
    ensures TeamNodeId(7) == "MDQ6VGVhbTc="
  {
    assert Decimal(7) == "7";
    var t := AsciiBytes(Tagged(TeamTag, 7));
    assert t == [48, 52, 58, 84, 101, 97, 109, 55];
    var t1, t2 := t[3..], t[3..][3..];
    assert t1 == [84, 101, 97, 109, 55] && t2 == [109, 55];
    assert Encode(t2) == "bTc=";
    assert Encode(t1) == "VGVhbTc=" by {
      assert EncodeTriple(84, 101, 97) == "VGVh";
    }
    assert Encode(t) == "MDQ6VGVhbTc=" by {
      assert EncodeTriple(48, 52, 58) == "MDQ6";
    }
  }
}
