/**
 * The URL-safe Base64 alphabet without padding (section 5 of RFC 4648), the
 * encoding `generate_refresh_token_and_expiry` applies to its random bytes
 * (backend/src/services/auth.rs).  The decoder is the reference inverse the
 * encoder is checked against.
 */
module Base64Url {
  import opened Wrappers
  import opened Text
  type Sextet = x: int | 0 <= x < 64

  /** The character for a 6-bit value: A-Z, a-z, 0-9, '-', '_'. */
  function CharOf(v: Sextet): (c: char)
    ensures IsUrlSafe(c)
  {
    if v < 26 then (('A' as int) + v) as char
    else if v < 52 then (('a' as int) + (v - 26)) as char
    else if v < 62 then (('0' as int) + (v - 52)) as char
    else if v == 62 then '-'
    else '_'
  }

  predicate IsUrlSafe(c: char) {
    ('A' <= c <= 'Z') || ('a' <= c <= 'z') || ('0' <= c <= '9') || c == '-' || c == '_'
  }

  /** The 6-bit value of an alphabet character, `None` off the alphabet. */
  function ValueOf(c: char): (r: Option<Sextet>)
    ensures r.Some? <==> IsUrlSafe(c)
    ensures r.Some? ==> CharOf(r.value) == c
  {
    if 'A' <= c <= 'Z' then Some(c as int - 'A' as int)
    else if 'a' <= c <= 'z' then Some(c as int - 'a' as int + 26)
    else if '0' <= c <= '9' then Some(c as int - '0' as int + 52)
    else if c == '-' then Some(62)
    else if c == '_' then Some(63)
    else None
  }

  lemma ValueOfCharOf(v: Sextet)
    ensures ValueOf(CharOf(v)) == Some(v)
  {
  }

  predicate AllUrlSafe(s: string) {
    forall i :: 0 <= i < |s| ==> IsUrlSafe(s[i])
  }

  /** Length of the unpadded encoding of `n` bytes: four characters per
      three bytes, and two or three for a final group of one or two. */
  function EncodedLength(n: nat): nat {
    (4 * n + 2) / 3
  }

  /** Three bytes as four 6-bit groups, most significant bits first. */
  function Split(x: Byte, y: Byte, z: Byte): (v: seq<Sextet>)
    ensures |v| == 4
  {
    [x / 4, (x % 4) * 16 + y / 16, (y % 16) * 4 + z / 64, z % 64]
  }

  /** Four 6-bit groups as three bytes. */
  function Join(a: Sextet, b: Sextet, c: Sextet, d: Sextet): (r: seq<Byte>)
    ensures |r| == 3
  {
    [a * 4 + b / 16, (b % 16) * 16 + c / 4, (c % 4) * 64 + d]
  }

  lemma JoinSplit(x: Byte, y: Byte, z: Byte)
    ensures var v := Split(x, y, z); Join(v[0], v[1], v[2], v[3]) == [x, y, z]
  {
  }

  /** The 6-bit groups of the encoding of `b`; a final group of one or two
      bytes is completed with zero bits and cut to two or three groups. */
  function EncodeGroups(b: seq<Byte>): (v: seq<Sextet>)
    ensures |v| == EncodedLength(|b|)
    decreases |b|
  {
    if |b| >= 3 then Split(b[0], b[1], b[2]) + EncodeGroups(b[3..])
    else if |b| == 2 then Split(b[0], b[1], 0)[..3]
    else if |b| == 1 then Split(b[0], 0, 0)[..2]
    else []
  }

  /** Inverse of `EncodeGroups`, refusing a dangling single group and
      non-zero trailing bits. */
  function DecodeGroups(v: seq<Sextet>): (r: Option<seq<Byte>>)
    decreases |v|
  {
    if |v| >= 4 then
      match DecodeGroups(v[4..])
      case None => None
      case Some(rest) => Some(Join(v[0], v[1], v[2], v[3]) + rest)
    else if |v| == 3 then
      if v[2] % 4 != 0 then None else Some(Join(v[0], v[1], v[2], 0)[..2])
    else if |v| == 2 then
      if v[1] % 16 != 0 then None else Some(Join(v[0], v[1], 0, 0)[..1])
    else if |v| == 1 then None
    else Some([])
  }

  lemma {:induction false} DecodeEncodeGroups(b: seq<Byte>)
    ensures DecodeGroups(EncodeGroups(b)) == Some(b)
    decreases |b|
  {
    if |b| >= 3 {
      var v := EncodeGroups(b);
      assert v[..4] == Split(b[0], b[1], b[2]) && v[4..] == EncodeGroups(b[3..]);
      DecodeEncodeGroups(b[3..]);
      JoinSplit(b[0], b[1], b[2]);
      assert b == [b[0], b[1], b[2]] + b[3..];
    } else if |b| == 2 {
      var v := Split(b[0], b[1], 0);
      JoinSplit(b[0], b[1], 0);
      assert v[3] == 0 && v[2] % 4 == 0;
      assert b == Join(v[0], v[1], v[2], 0)[..2];
    } else if |b| == 1 {
      var v := Split(b[0], 0, 0);
      JoinSplit(b[0], 0, 0);
      assert v[2] == 0 && v[3] == 0 && v[1] % 16 == 0;
      assert b == Join(v[0], v[1], 0, 0)[..1];
    }
  }

  function Chars(v: seq<Sextet>): (s: string)
    ensures |s| == |v|
    ensures forall i :: 0 <= i < |v| ==> s[i] == CharOf(v[i])
  {
    if v == [] then [] else [CharOf(v[0])] + Chars(v[1..])
  }

  function Values(s: string): (r: Option<seq<Sextet>>)
    ensures r.Some? <==> AllUrlSafe(s)
    ensures r.Some? ==> |r.value| == |s|
  {
    if s == [] then Some([])
    else match (ValueOf(s[0]), Values(s[1..]))
      case (Some(x), Some(rest)) => Some([x] + rest)
      case _ => None
  }

  lemma {:induction false} ValuesChars(v: seq<Sextet>)
    ensures Values(Chars(v)) == Some(v)
  {
    if v != [] {
      ValueOfCharOf(v[0]);
      assert Chars(v)[1..] == Chars(v[1..]);
      ValuesChars(v[1..]);
      assert v == [v[0]] + v[1..];
    }
  }

  /** `URL_SAFE_NO_PAD.encode`. */
  function Encode(b: seq<Byte>): (s: string)
    ensures |s| == EncodedLength(|b|)
    ensures AllUrlSafe(s)
  {
    Chars(EncodeGroups(b))
  }

  /** Decoding of unpadded URL-safe Base64, refusing characters off the
      alphabet, a dangling single character and non-zero trailing bits. */
  function Decode(s: string): (r: Option<seq<Byte>>)
  {
    match Values(s)
    case None => None
    case Some(v) => DecodeGroups(v)
  }

  /** Decoding inverts encoding. */
  lemma DecodeEncode(b: seq<Byte>)
    ensures Decode(Encode(b)) == Some(b)
  {
    ValuesChars(EncodeGroups(b));
    DecodeEncodeGroups(b);
  }

  /** Distinct byte strings never share an encoding. */
  lemma EncodeInjective(a: seq<Byte>, b: seq<Byte>)
    requires Encode(a) == Encode(b)
    ensures a == b
  {
    DecodeEncode(a);
    DecodeEncode(b);
  }
}
