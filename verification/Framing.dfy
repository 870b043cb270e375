/**
 Length-prefixed frames over a byte stream that arrives in pieces. A piece is
 what one read of the underlying connection supplied; a buffered read returns
 bytes of one piece only. The payload is read in a loop, but the length and the
 compression flag are read once each.
 */
module Framing {
  import opened Sequences
  import opened Base64Url

  const MAX_MSG_SIZE := 0x10_0000
  const COMP_THRESHOLD := 128
  const BUFFER_SIZE := 4096
  const WORD := 0x1_0000_0000

  /** The compressor is an assumed pair. */
  datatype Codec = Codec(compress: seq<byte> -> seq<byte>, decompress: seq<byte> -> Option<seq<byte>>)

  ghost predicate Lossless(c: Codec) {
    forall data :: c.decompress(c.compress(data)) == Some(data)
  }

  // ---- Little-endian words ----

  function IntToBytes(i: int): seq<byte> {
    var u := i % WORD;
    [u % 256, u / 256 % 256, u / 0x1_0000 % 256, u / 0x100_0000]
  }

  function BytesToInt(d: seq<byte>): int
    requires |d| >= 4
  {
    d[0] as int + 256 * (d[1] as int) + 0x1_0000 * (d[2] as int) + 0x100_0000 * (d[3] as int)
  }

  /** Only the low 32 bits of an integer survive. */
  lemma WordRoundTrip(i: int)
    ensures BytesToInt(IntToBytes(i)) == i % WORD
  {
    var u := i % WORD;
    assert u == u % 256 + 256 * (u / 256);
    assert u / 256 == u / 256 % 256 + 256 * (u / 0x1_0000);
    assert u / 0x1_0000 == u / 0x1_0000 % 256 + 256 * (u / 0x100_0000);
  }

  // ---- Writing ----

  function Payload(c: Codec, msg: seq<byte>): (seq<byte>, bool) {
    if |msg| >= COMP_THRESHOLD && |c.compress(msg)| < |msg| then (c.compress(msg), true) else (msg, false)
  }

  /** The bytes put on the stream for a message, unless it is too large. */
  function Frame(c: Codec, msg: seq<byte>): Option<seq<byte>> {
    var (payload, compressed) := Payload(c, msg);
    if |payload| > MAX_MSG_SIZE then None
    else Some(IntToBytes(|payload|) + [if compressed then 1 else 0] + payload)
  }

  // ---- Reading pieces ----

  ghost predicate Pieces(segs: seq<seq<byte>>) {
    forall i :: 0 <= i < |segs| ==> segs[i] != []
  }

  function Bytes(segs: seq<seq<byte>>): seq<byte> {
    if |segs| == 0 then [] else segs[0] + Bytes(segs[1..])
  }

  datatype Got = Got(bytes: seq<byte>, rest: seq<seq<byte>>) | EOF

  /** One buffered read of at most want bytes. */
  function TakeSome(segs: seq<seq<byte>>, want: nat): Got {
    if |segs| == 0 then EOF
    else if |segs[0]| <= want then Got(segs[0], segs[1..])
    else Got(segs[0][..want], [segs[0][want..]] + segs[1..])
  }

  /** Reads repeated until want bytes are there. */
  function TakeAll(segs: seq<seq<byte>>, want: nat): Got
    decreases want, |segs|
  {
    if want == 0 then Got([], segs)
    else
      match TakeSome(segs, want)
      case EOF => EOF
      case Got(first, rest) =>
        match TakeAll(rest, want - |first|)
        case EOF => EOF
        case Got(more, rest') => Got(first + more, rest')
  }

  datatype Outcome = Message(msg: seq<byte>, rest: seq<seq<byte>>) | Error(rest: seq<seq<byte>>)

  /** A short read of the length leaves the remaining bytes of the word zero. */
  function Padded(l: seq<byte>): seq<byte>
    requires |l| <= 4
  {
    l + seq(4 - |l|, _ => 0)
  }

  function Unpacked(c: Codec, payload: seq<byte>, flag: byte): Option<seq<byte>> {
    if flag == 1 then c.decompress(payload) else Some(payload)
  }

  /**
   What follows the length: the compression flag, then a payload of the size read.
   At the end of the stream nothing is left.
   */
  function ReadBody(c: Codec, size: nat, segs: seq<seq<byte>>): Outcome {
    match TakeSome(segs, 1)
    case EOF => Error([])
    case Got(flag, afterFlag) =>
      match TakeAll(afterFlag, size)
      case EOF => Error([])
      case Got(payload, rest) =>
        match Unpacked(c, payload, if flag == [] then 0 else flag[0])
        case None => Error(rest)
        case Some(msg) => Message(msg, rest)
  }

  function ReadFrame(c: Codec, segs: seq<seq<byte>>): Outcome {
    match TakeSome(segs, 4)
    case EOF => Error([])
    case Got(l, rest) =>
      var size := BytesToInt(Padded(l));
      if size > MAX_MSG_SIZE then Error(rest) else ReadBody(c, size, rest)
  }

  /** What a read took and what it left make up the stream. */
  ghost predicate Splits(got: Got, segs: seq<seq<byte>>) {
    && got.Got? && Pieces(got.rest) && |got.bytes| <= |Bytes(segs)|
    && got.bytes == Bytes(segs)[..|got.bytes|] && Bytes(got.rest) == Bytes(segs)[|got.bytes|..]
  }

  lemma TakeSomeSplits(segs: seq<seq<byte>>, want: nat)
    requires Pieces(segs) && want > 0 && segs != []
    ensures var got := TakeSome(segs, want);
            Splits(got, segs) && |got.bytes| == if |segs[0]| <= want then |segs[0]| else want
  {
    var head, tail := segs[0], segs[1..];
    assert Bytes(segs) == head + Bytes(tail);
    if |head| > want {
      assert ([head[want..]] + tail)[1..] == tail;
      assert Bytes([head[want..]] + tail) == head[want..] + Bytes(tail);
    }
  }

  lemma {:induction false} TakeAllSplits(segs: seq<seq<byte>>, want: nat)
    requires Pieces(segs)
    ensures var got := TakeAll(segs, want);
            if want > |Bytes(segs)| then got.EOF? else Splits(got, segs) && |got.bytes| == want
    decreases want
  {
    if want > 0 && segs != [] {
      TakeSomeSplits(segs, want);
      var first := TakeSome(segs, want);
      TakeAllSplits(first.rest, want - |first.bytes|);
    }
  }

  // ---- Where the stream is cut ----

  /** A piece of the stream ends after exactly p bytes. */
  predicate CutAt(segs: seq<seq<byte>>, p: int) {
    |segs| > 0 && (|segs[0]| == p || CutAt(segs[1..], p - |segs[0]|))
  }

  lemma {:induction false} NoCutBehind(segs: seq<seq<byte>>, p: int)
    requires Pieces(segs) && p <= 0
    ensures !CutAt(segs, p)
  {
    if segs != [] {
      NoCutBehind(segs[1..], p - |segs[0]|);
    }
  }

  lemma CutsAfterTakeSome(segs: seq<seq<byte>>, want: nat, p: int)
    requires Pieces(segs) && want > 0 && segs != [] && p > 0
    ensures var got := TakeSome(segs, want); got.Got? && (CutAt(got.rest, p) <==> CutAt(segs, |got.bytes| + p))
  {
    if |segs[0]| > want {
      assert ([segs[0][want..]] + segs[1..])[1..] == segs[1..];
    }
  }

  lemma {:induction false} CutsAfterTakeAll(segs: seq<seq<byte>>, want: nat, p: int)
    requires Pieces(segs) && TakeAll(segs, want).Got? && p > 0
    ensures CutAt(TakeAll(segs, want).rest, p) <==> CutAt(segs, want + p)
    decreases want
  {
    if want > 0 {
      TakeSomeSplits(segs, want);
      var first := TakeSome(segs, want);
      CutsAfterTakeAll(first.rest, want - |first.bytes|, p);
      CutsAfterTakeSome(segs, want, want - |first.bytes| + p);
    }
  }

  /** The four bytes of the length starting at p are not cut. */
  predicate HeaderWhole(segs: seq<seq<byte>>, p: int) {
    !CutAt(segs, p + 1) && !CutAt(segs, p + 2) && !CutAt(segs, p + 3)
  }

  lemma HeaderWholeIff(segs: seq<seq<byte>>)
    requires Pieces(segs) && segs != []
    ensures HeaderWhole(segs, 0) <==> |segs[0]| >= 4
  {
    if |segs[0]| >= 4 {
      NoCutBehind(segs[1..], 1 - |segs[0]|);
      NoCutBehind(segs[1..], 2 - |segs[0]|);
      NoCutBehind(segs[1..], 3 - |segs[0]|);
    }
  }

  // ---- One frame ----

  /** A stream that begins with the frame of msg. */
  ghost predicate StartsWithFrame(c: Codec, msg: seq<byte>, segs: seq<seq<byte>>) {
    && Pieces(segs) && Frame(c, msg).Some?
    && |Frame(c, msg).value| <= |Bytes(segs)| && Frame(c, msg).value == Bytes(segs)[..|Frame(c, msg).value|]
  }

  /** The reader returns the message and stands exactly at the end of its frame. */
  ghost predicate InStep(c: Codec, msg: seq<byte>, segs: seq<seq<byte>>) {
    match ReadFrame(c, segs)
    case Error(_) => false
    case Message(m, rest) =>
      && m == msg && Frame(c, msg).Some? && Pieces(rest)
      && |Bytes(segs)| == |Frame(c, msg).value| + |Bytes(rest)|
  }

  lemma LengthComesFirst(c: Codec, msg: seq<byte>)
    requires Frame(c, msg).Some?
    ensures |Frame(c, msg).value| >= 4
    ensures BytesToInt(Frame(c, msg).value[..4]) == |Payload(c, msg).0|
  {
    assert Frame(c, msg).value[..4] == IntToBytes(|Payload(c, msg).0|);
    WordRoundTrip(|Payload(c, msg).0|);
  }

  lemma WholeIsUnpadded(bytes: seq<byte>)
    requires |bytes| == 4
    ensures Padded(bytes) == bytes
  {}

  /** With the length in one piece, the reader takes the length whole. */
  lemma WholeHeaderTaken(c: Codec, msg: seq<byte>, segs: seq<seq<byte>>)
    requires StartsWithFrame(c, msg, segs) && |segs[0]| >= 4
    ensures var l := TakeSome(segs, 4);
            && Splits(l, segs) && |l.bytes| == 4
            && BytesToInt(Padded(l.bytes)) == |Payload(c, msg).0|
            && ReadFrame(c, segs) == ReadBody(c, |Payload(c, msg).0|, l.rest)
  {
    TakeSomeSplits(segs, 4);
    LengthComesFirst(c, msg);
    var l := TakeSome(segs, 4);
    assert l.bytes == Frame(c, msg).value[..4];
    WholeIsUnpadded(l.bytes);
  }

  /** What a frame holds after its length. */
  function Body(c: Codec, msg: seq<byte>): seq<byte> {
    var (payload, compressed) := Payload(c, msg);
    [if compressed then 1 else 0] + payload
  }

  lemma BodyParts(c: Codec, msg: seq<byte>)
    ensures var (payload, compressed) := Payload(c, msg);
            && |Body(c, msg)| == 1 + |payload| && Body(c, msg)[1..] == payload
            && Body(c, msg)[0] == if compressed then 1 else 0
  {}

  lemma BehindFirst<T>(s: seq<T>, n: nat)
    requires 1 + n <= |s|
    ensures s[1..][..n] == s[..1 + n][1..] && s[1..][n..] == s[1 + n..]
  {}

  lemma BodyTaken(c: Codec, msg: seq<byte>, segs: seq<seq<byte>>)
    requires Pieces(segs) && |Body(c, msg)| <= |Bytes(segs)| && Bytes(segs)[..|Body(c, msg)|] == Body(c, msg)
    ensures var (payload, compressed) := Payload(c, msg);
            var flag := TakeSome(segs, 1);
            && Splits(flag, segs) && flag.bytes == [if compressed then 1 else 0]
            && var body := TakeAll(flag.rest, |payload|);
            && Splits(body, flag.rest) && body.bytes == payload
            && Bytes(body.rest) == Bytes(segs)[|Body(c, msg)|..]
  {
    var payload, stream := Payload(c, msg).0, Bytes(segs);
    BodyParts(c, msg);
    TakeSomeSplits(segs, 1);
    var flag := TakeSome(segs, 1);
    assert flag.bytes == [Body(c, msg)[0]];
    TakeAllSplits(flag.rest, |payload|);
    BehindFirst(stream, |payload|);
  }

  lemma BodyReads(c: Codec, msg: seq<byte>, segs: seq<seq<byte>>)
    requires Lossless(c) && Pieces(segs)
    requires |Body(c, msg)| <= |Bytes(segs)| && Bytes(segs)[..|Body(c, msg)|] == Body(c, msg)
    ensures var size := |Payload(c, msg).0|;
            && TakeSome(segs, 1).Got? && |TakeSome(segs, 1).bytes| == 1 && TakeAll(TakeSome(segs, 1).rest, size).Got?
            && ReadBody(c, size, segs) == Message(msg, TakeAll(TakeSome(segs, 1).rest, size).rest)
            && Pieces(ReadBody(c, size, segs).rest) && Pieces(TakeSome(segs, 1).rest)
            && Bytes(ReadBody(c, size, segs).rest) == Bytes(segs)[|Body(c, msg)|..]
  {
    BodyTaken(c, msg, segs);
  }

  lemma AfterLength(c: Codec, msg: seq<byte>, segs: seq<seq<byte>>)
    requires StartsWithFrame(c, msg, segs) && |segs[0]| >= 4
    ensures var rest, f := TakeSome(segs, 4).rest, Frame(c, msg).value;
            && TakeSome(segs, 4).Got? && Pieces(rest) && |Body(c, msg)| <= |Bytes(rest)|
            && Bytes(rest)[..|Body(c, msg)|] == Body(c, msg)
            && Bytes(rest)[|Body(c, msg)|..] == Bytes(segs)[|f|..]
            && |f| == 4 + |Body(c, msg)|
  {
    WholeHeaderTaken(c, msg, segs);
    var f, stream := Frame(c, msg).value, Bytes(segs);
    assert f == IntToBytes(|Payload(c, msg).0|) + Body(c, msg);
    assert stream[4..][..|f| - 4] == stream[..|f|][4..] == Body(c, msg);
    assert stream[4..][|f| - 4..] == stream[|f|..];
  }

  lemma WholeHeaderReads(c: Codec, msg: seq<byte>, segs: seq<seq<byte>>)
    requires Lossless(c) && StartsWithFrame(c, msg, segs) && |segs[0]| >= 4
    ensures InStep(c, msg, segs)
    ensures Bytes(ReadFrame(c, segs).rest) == Bytes(segs)[|Frame(c, msg).value|..]
  {
    WholeHeaderTaken(c, msg, segs);
    AfterLength(c, msg, segs);
    BodyReads(c, msg, TakeSome(segs, 4).rest);
  }

  lemma CutsAfterFrame(c: Codec, msg: seq<byte>, segs: seq<seq<byte>>, p: int)
    requires Lossless(c) && StartsWithFrame(c, msg, segs) && |segs[0]| >= 4 && p > 0
    ensures InStep(c, msg, segs)
    ensures CutAt(ReadFrame(c, segs).rest, p) <==> CutAt(segs, |Frame(c, msg).value| + p)
  {
    WholeHeaderReads(c, msg, segs);
    WholeHeaderTaken(c, msg, segs);
    AfterLength(c, msg, segs);
    var size, rest := |Payload(c, msg).0|, TakeSome(segs, 4).rest;
    BodyReads(c, msg, rest);
    CutsAfterTakeAll(TakeSome(rest, 1).rest, size, p);
    CutsAfterTakeSome(rest, 1, size + p);
    CutsAfterTakeSome(segs, 4, 1 + size + p);
  }

  lemma SmallerBytes(a: seq<byte>, b: seq<byte>)
    requires |a| == |b| == 4 && forall i :: 0 <= i < 4 ==> a[i] <= b[i]
    ensures 0 <= BytesToInt(a) <= BytesToInt(b)
  {}

  /** A part of a length, filled up with zeros, is at most the length. */
  lemma PartOfLength(size: nat, k: nat)
    requires size < WORD && k <= 4
    ensures 0 <= BytesToInt(Padded(IntToBytes(size)[..k])) <= size
  {
    WordRoundTrip(size);
    var word, part := IntToBytes(size), Padded(IntToBytes(size)[..k]);
    assert forall i :: 0 <= i < 4 ==> part[i] == if i < k then word[i] else 0;
    SmallerBytes(part, word);
  }

  lemma BodyConsumes(c: Codec, size: nat, segs: seq<seq<byte>>)
    requires Pieces(segs) && ReadBody(c, size, segs).Message?
    ensures |Bytes(segs)| == 1 + size + |Bytes(ReadBody(c, size, segs).rest)|
  {
    TakeSomeSplits(segs, 1);
    TakeAllSplits(TakeSome(segs, 1).rest, size);
  }

  /** A length read short is too small, so the reader stops before the frame's end. */
  lemma SplitHeaderReadsShort(c: Codec, msg: seq<byte>, segs: seq<seq<byte>>)
    requires StartsWithFrame(c, msg, segs) && |segs[0]| < 4
    ensures !InStep(c, msg, segs)
  {
    var size := |Payload(c, msg).0|;
    TakeSomeSplits(segs, 4);
    var l := TakeSome(segs, 4);
    assert l.bytes == Frame(c, msg).value[..|l.bytes|] == IntToBytes(size)[..|l.bytes|];
    PartOfLength(size, |l.bytes|);
    var short := BytesToInt(Padded(l.bytes));
    if ReadBody(c, short, l.rest).Message? {
      BodyConsumes(c, short, l.rest);
    }
  }

  /**
   Reading a frame returns its message and stands at its end exactly when no
   piece of the stream ends inside the four bytes of the length. How the
   rest is cut does not matter.
   */
  lemma FrameReadIff(c: Codec, msg: seq<byte>, segs: seq<seq<byte>>)
    requires Lossless(c) && StartsWithFrame(c, msg, segs)
    ensures InStep(c, msg, segs) <==> HeaderWhole(segs, 0)
  {
    HeaderWholeIff(segs);
    if |segs[0]| >= 4 {
      WholeHeaderReads(c, msg, segs);
    } else {
      SplitHeaderReadsShort(c, msg, segs);
    }
  }

  // ---- A stream of frames ----

  predicate AllFit(c: Codec, msgs: seq<seq<byte>>) {
    forall i :: 0 <= i < |msgs| ==> Frame(c, msgs[i]).Some?
  }

  function Stream(c: Codec, msgs: seq<seq<byte>>): seq<byte>
    requires AllFit(c, msgs)
  {
    if |msgs| == 0 then [] else Frame(c, msgs[0]).value + Stream(c, msgs[1..])
  }

  /** No length, of any of the frames that follow each other from p on, is cut. */
  predicate HeadersWhole(c: Codec, segs: seq<seq<byte>>, msgs: seq<seq<byte>>, p: int)
    requires AllFit(c, msgs)
  {
    |msgs| == 0 || (HeaderWhole(segs, p) && HeadersWhole(c, segs, msgs[1..], p + |Frame(c, msgs[0]).value|))
  }

  datatype AllRead = AllRead(msgs: seq<seq<byte>>, rest: seq<seq<byte>>) | Failed

  function ReadMany(c: Codec, segs: seq<seq<byte>>, n: nat): AllRead
    decreases n
  {
    if n == 0 then AllRead([], segs)
    else
      match ReadFrame(c, segs)
      case Error(_) => Failed
      case Message(m, rest) =>
        match ReadMany(c, rest, n - 1)
        case Failed => Failed
        case AllRead(ms, rest') => AllRead([m] + ms, rest')
  }

  /** Every message is read with the reader at the beginning of its frame and left at its end. */
  ghost predicate AllInStep(c: Codec, segs: seq<seq<byte>>, msgs: seq<seq<byte>>)
    decreases |msgs|
  {
    |msgs| == 0 || (InStep(c, msgs[0], segs) && AllInStep(c, ReadFrame(c, segs).rest, msgs[1..]))
  }

  lemma FirstInStep(c: Codec, segs: seq<seq<byte>>, msgs: seq<seq<byte>>)
    requires AllFit(c, msgs) && |msgs| > 0 && InStep(c, msgs[0], segs) && |Bytes(segs)| == |Stream(c, msgs)|
    ensures var rest := ReadFrame(c, segs).rest;
            ReadFrame(c, segs) == Message(msgs[0], rest) && |Bytes(rest)| == |Stream(c, msgs[1..])|
  {}

  lemma OneReadMore(c: Codec, segs: seq<seq<byte>>, m: seq<byte>, rest: seq<seq<byte>>, n: nat)
    requires ReadFrame(c, segs) == Message(m, rest) && ReadMany(c, rest, n).AllRead?
    ensures ReadMany(c, segs, n + 1) == AllRead([m] + ReadMany(c, rest, n).msgs, ReadMany(c, rest, n).rest)
  {}

  lemma {:induction false} InStepReadsAll(c: Codec, segs: seq<seq<byte>>, msgs: seq<seq<byte>>)
    requires AllFit(c, msgs) && AllInStep(c, segs, msgs) && |Bytes(segs)| == |Stream(c, msgs)|
    ensures var r := ReadMany(c, segs, |msgs|); r.AllRead? && r.msgs == msgs && Bytes(r.rest) == []
    decreases |msgs|
  {
    if |msgs| == 0 {
      assert Bytes(segs) == [];
    } else {
      var first, more, rest := msgs[0], msgs[1..], ReadFrame(c, segs).rest;
      FirstInStep(c, segs, msgs);
      assert AllInStep(c, rest, more) && AllFit(c, more);
      InStepReadsAll(c, rest, more);
      OneReadMore(c, segs, first, rest, |more|);
      assert [first] + more == msgs;
    }
  }

  /** rest, which begins n bytes into segs, is cut where segs is. */
  ghost predicate SameCuts(segs: seq<seq<byte>>, rest: seq<seq<byte>>, n: nat) {
    forall q :: q > 0 ==> (CutAt(rest, q) <==> CutAt(segs, n + q))
  }

  lemma {:induction false} HeadersAfterTake(c: Codec, segs: seq<seq<byte>>, rest: seq<seq<byte>>,
                                            msgs: seq<seq<byte>>, n: nat, p: nat)
    requires AllFit(c, msgs) && SameCuts(segs, rest, n)
    ensures HeadersWhole(c, rest, msgs, p) <==> HeadersWhole(c, segs, msgs, n + p)
    decreases |msgs|
  {
    if |msgs| != 0 {
      assert CutAt(rest, p + 1) <==> CutAt(segs, n + (p + 1));
      assert CutAt(rest, p + 2) <==> CutAt(segs, n + (p + 2));
      assert CutAt(rest, p + 3) <==> CutAt(segs, n + (p + 3));
      HeadersAfterTake(c, segs, rest, msgs[1..], n, p + |Frame(c, msgs[0]).value|);
    }
  }

  lemma StartsStream(c: Codec, segs: seq<seq<byte>>, msgs: seq<seq<byte>>)
    requires AllFit(c, msgs) && Pieces(segs) && Bytes(segs) == Stream(c, msgs) && |msgs| > 0
    ensures StartsWithFrame(c, msgs[0], segs)
  {
    assert Bytes(segs)[..|Frame(c, msgs[0]).value|] == Frame(c, msgs[0]).value;
  }

  lemma RestOfStream(c: Codec, segs: seq<seq<byte>>, msgs: seq<seq<byte>>)
    requires Lossless(c) && AllFit(c, msgs) && Pieces(segs) && Bytes(segs) == Stream(c, msgs) && |msgs| > 0
    requires |segs| > 0 && |segs[0]| >= 4
    ensures InStep(c, msgs[0], segs)
    ensures Pieces(ReadFrame(c, segs).rest) && Bytes(ReadFrame(c, segs).rest) == Stream(c, msgs[1..])
  {
    var f := Frame(c, msgs[0]).value;
    assert Bytes(segs)[..|f|] == f && Bytes(segs)[|f|..] == Stream(c, msgs[1..]);
    WholeHeaderReads(c, msgs[0], segs);
  }

  lemma AllCutsAfterFrame(c: Codec, msg: seq<byte>, segs: seq<seq<byte>>)
    requires Lossless(c) && StartsWithFrame(c, msg, segs) && |segs[0]| >= 4
    ensures SameCuts(segs, ReadFrame(c, segs).rest, |Frame(c, msg).value|)
  {
    forall q | q > 0 ensures CutAt(ReadFrame(c, segs).rest, q) <==> CutAt(segs, |Frame(c, msg).value| + q) {
      CutsAfterFrame(c, msg, segs, q);
    }
  }

  /** Once the first frame is read, the other lengths are cut where they were. */
  lemma LaterHeaders(c: Codec, segs: seq<seq<byte>>, msg: seq<byte>, more: seq<seq<byte>>)
    requires Lossless(c) && StartsWithFrame(c, msg, segs) && |segs[0]| >= 4 && AllFit(c, more)
    ensures HeadersWhole(c, ReadFrame(c, segs).rest, more, 0) <==> HeadersWhole(c, segs, more, |Frame(c, msg).value|)
  {
    var rest := ReadFrame(c, segs).rest;
    AllCutsAfterFrame(c, msg, segs);
    HeadersAfterTake(c, segs, rest, more, |Frame(c, msg).value|, 0);
  }

  /**
   Frames written one after another and cut into any pieces are all read in step
   exactly when no length is cut.
   */
  lemma {:induction false} StreamInStepIff(c: Codec, segs: seq<seq<byte>>, msgs: seq<seq<byte>>)
    requires Lossless(c) && AllFit(c, msgs) && Pieces(segs) && Bytes(segs) == Stream(c, msgs)
    ensures AllInStep(c, segs, msgs) <==> HeadersWhole(c, segs, msgs, 0)
    decreases |msgs|
  {
    if |msgs| != 0 {
      StartsStream(c, segs, msgs);
      FrameReadIff(c, msgs[0], segs);
      if HeaderWhole(segs, 0) {
        HeaderWholeIff(segs);
        RestOfStream(c, segs, msgs);
        LaterHeaders(c, segs, msgs[0], msgs[1..]);
        StreamInStepIff(c, ReadFrame(c, segs).rest, msgs[1..]);
      }
    }
  }

  /** When no length is cut, exactly the messages come out and the stream is used up. */
  lemma StreamRoundTrip(c: Codec, segs: seq<seq<byte>>, msgs: seq<seq<byte>>)
    requires Lossless(c) && AllFit(c, msgs) && Pieces(segs) && Bytes(segs) == Stream(c, msgs)
    requires HeadersWhole(c, segs, msgs, 0)
    ensures var r := ReadMany(c, segs, |msgs|); r.AllRead? && r.msgs == msgs && Bytes(r.rest) == []
  {
    StreamInStepIff(c, segs, msgs);
    InStepReadsAll(c, segs, msgs);
  }
}
