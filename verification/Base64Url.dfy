/**
 The unpadded URL-safe base64 codec that turns public keys into fingerprints.
 As in Go's RawURLEncoding, decoding skips line breaks and ignores the unused
 low bits of a final partial group, so several texts decode to one key.
 */
module Base64Url {
  import opened Sequences

  type byte = x: int | 0 <= x < 256
  type sextet = x: int | 0 <= x < 64

  function Digit(x: sextet): char {
    if x < 26 then 'A' + x as char
    else if x < 52 then 'a' + (x - 26) as char
    else if x < 62 then '0' + (x - 52) as char
    else if x == 62 then '-'
    else '_'
  }

  function Value(c: char): Option<sextet> {
    if 'A' <= c <= 'Z' then Some(c as int - 'A' as int)
    else if 'a' <= c <= 'z' then Some(c as int - 'a' as int + 26)
    else if '0' <= c <= '9' then Some(c as int - '0' as int + 52)
    else if c == '-' then Some(62)
    else if c == '_' then Some(63)
    else None
  }

  lemma ValueOfDigit(x: sextet)
    ensures Value(Digit(x)) == Some(x)
    ensures Digit(x) != ' ' && Digit(x) != '\n' && Digit(x) != '\r'
  {}

  /** The bits of bs in groups of six, high bits first, the last group filled with zeros. */
  function Pack(bs: seq<byte>): seq<sextet> {
    if |bs| == 0 then []
    else if |bs| == 1 then [bs[0] / 4, bs[0] % 4 * 16]
    else if |bs| == 2 then [bs[0] / 4, bs[0] % 4 * 16 + bs[1] / 16, bs[1] % 16 * 4]
    else
      [bs[0] / 4, bs[0] % 4 * 16 + bs[1] / 16, bs[1] % 16 * 4 + bs[2] / 64, bs[2] % 64] + Pack(bs[3..])
  }

  function First(x0: int, x1: int): int { x0 * 4 + x1 / 16 }

  function Second(x1: int, x2: int): int { x1 % 16 * 16 + x2 / 4 }

  function Third(x2: int, x3: int): int { x2 % 4 * 64 + x3 }

  function Unpack(xs: seq<sextet>): Option<seq<byte>> {
    if |xs| == 0 then Some([])
    else if |xs| == 1 then None
    else if |xs| == 2 then Some([First(xs[0], xs[1])])
    else if |xs| == 3 then Some([First(xs[0], xs[1]), Second(xs[1], xs[2])])
    else
      match Unpack(xs[4..])
      case None => None
      case Some(rest) =>
        Some([First(xs[0], xs[1]), Second(xs[1], xs[2]), Third(xs[2], xs[3])] + rest)
  }

  function Digits(xs: seq<sextet>): string {
    seq(|xs|, i requires 0 <= i < |xs| => Digit(xs[i]))
  }

  function Values(s: string): Option<seq<sextet>> {
    if forall i :: 0 <= i < |s| ==> Value(s[i]).Some?
    then Some(seq(|s|, i requires 0 <= i < |s| && Value(s[i]).Some? => Value(s[i]).value))
    else None
  }

  predicate NotLineBreak(c: char) { c != '\n' && c != '\r' }

  function Encode(bs: seq<byte>): string {
    Digits(Pack(bs))
  }

  function Decode(s: string): Option<seq<byte>> {
    match Values(Filter(NotLineBreak, s))
    case None => None
    case Some(xs) => Unpack(xs)
  }

  lemma EncodeAlphabet(bs: seq<byte>)
    ensures ' ' !in Encode(bs)
    ensures forall i :: 0 <= i < |Encode(bs)| ==> NotLineBreak(Encode(bs)[i])
  {
    forall i | 0 <= i < |Pack(bs)|
      ensures Encode(bs)[i] != ' ' && NotLineBreak(Encode(bs)[i])
    {
      ValueOfDigit(Pack(bs)[i]);
    }
  }

  lemma ValuesDigits(xs: seq<sextet>)
    ensures Values(Digits(xs)) == Some(xs)
  {
    forall i | 0 <= i < |xs| ensures Value(Digits(xs)[i]) == Some(xs[i]) {
      ValueOfDigit(xs[i]);
    }
    assert Values(Digits(xs)).value == xs;
  }

  /** The sextets carry the bits of three neighbouring bytes. */
  lemma SextetsCarryBytes(a: byte, b: byte, c: byte)
    ensures var x0, x1, x2, x3 := a / 4, a % 4 * 16 + b / 16, b % 16 * 4 + c / 64, c % 64;
            First(x0, x1) == a && Second(x1, x2) == b && Third(x2, x3) == c
  {
    assert (a % 4 * 16 + b / 16) / 16 == a % 4;
    assert (b % 16 * 4 + c / 64) / 4 == b % 16;
  }

  lemma {:induction false} UnpackPack(bs: seq<byte>)
    ensures Unpack(Pack(bs)) == Some(bs)
  {
    if |bs| == 1 {
      assert [bs[0]] == bs;
    } else if |bs| == 2 {
      SextetsCarryBytes(bs[0], bs[1], 0);
      assert [bs[0], bs[1]] == bs;
    } else if |bs| >= 3 {
      SextetsCarryBytes(bs[0], bs[1], bs[2]);
      UnpackPack(bs[3..]);
      assert Pack(bs)[4..] == Pack(bs[3..]);
      assert [bs[0], bs[1], bs[2]] + bs[3..] == bs;
    }
  }

  /** Decoding inverts encoding, for keys of every length. */
  lemma DecodeEncode(bs: seq<byte>)
    ensures Decode(Encode(bs)) == Some(bs)
  {
    EncodeAlphabet(bs);
    FilterAll(NotLineBreak, Encode(bs));
    ValuesDigits(Pack(bs));
    UnpackPack(bs);
  }

  /** The fingerprint that is stored for a peer named by s: the re-encoding of the decoded key. */
  function Canonical(s: string): Option<string> {
    match Decode(s)
    case None => None
    case Some(key) => Some(Encode(key))
  }

  lemma CanonicalIsStable(s: string)
    requires Canonical(s).Some?
    ensures Canonical(Canonical(s).value) == Canonical(s)
  {
    DecodeEncode(Decode(s).value);
  }
}
