/** The connection object: a buffered writer that is flushed by hand, and a reader over the pieces that arrive. */
module DataConns {
  import opened Sequences
  import opened Base64Url
  import opened Framing

  lemma Regroup(wire: seq<byte>, buffered: seq<byte>, p: seq<byte>, n: nat)
    requires n <= |p|
    ensures (wire + (buffered + p[..n])) + [] + p[n..] == wire + buffered + p
  {
    assert p == p[..n] + p[n..];
  }

  class DataConn {
    const codec: Codec
    /** What the connection delivers, piece by piece; when it runs out the connection is closed. */
    var input: seq<seq<byte>>
    /** Written but not yet sent. */
    var buffered: seq<byte>
    /** Sent. */
    var wire: seq<byte>

    ghost predicate Valid()
      reads this
    {
      Pieces(input) && |buffered| <= BUFFER_SIZE
    }

    constructor (codec: Codec, input: seq<seq<byte>>)
      requires Pieces(input)
      ensures Valid() && this.codec == codec && this.input == input && buffered == [] && wire == []
    {
      this.codec, this.input := codec, input;
      buffered, wire := [], [];
    }

    method Flush()
      requires Valid()
      modifies this`buffered, this`wire
      ensures Valid() && buffered == [] && wire == old(wire + buffered)
    {
      wire := wire + buffered;
      buffered := [];
    }

    /** Sends what does not fit the buffer, and keeps the rest in it. */
    method Write(message: seq<byte>)
      requires Valid()
      modifies this`buffered, this`wire
      ensures Valid() && wire + buffered == old(wire + buffered) + message
      ensures |message| <= BUFFER_SIZE - |old(buffered)| ==> wire == old(wire)
    {
      var p := message;
      while |p| > BUFFER_SIZE - |buffered|
        invariant Valid() && |p| <= |message|
        invariant wire + buffered + p == old(wire + buffered) + message
        invariant |message| <= BUFFER_SIZE - |old(buffered)| ==>
                    wire == old(wire) && buffered == old(buffered) && p == message
        decreases |p|, |buffered|
      {
        if buffered == [] {
          wire := wire + p;
          p := [];
        } else {
          var n := BUFFER_SIZE - |buffered|;
          Regroup(wire, buffered, p, n);
          wire := wire + (buffered + p[..n]);
          buffered := [];
          p := p[n..];
        }
      }
      buffered := buffered + p;
    }

    /** A message that is too large is refused before anything is written. */
    method WriteBytes(msg: seq<byte>) returns (ok: bool)
      requires Valid()
      modifies this`buffered, this`wire
      ensures Valid() && (ok <==> Frame(codec, msg).Some?)
      ensures if ok then wire + buffered == old(wire + buffered) + Frame(codec, msg).value
              else wire == old(wire) && buffered == old(buffered)
    {
      var data, compressed := msg, false;
      if |msg| >= COMP_THRESHOLD {
        var comp := codec.compress(msg);
        if |comp| < |msg| {
          data, compressed := comp, true;
        }
      }
      if |data| > MAX_MSG_SIZE {
        return false;
      }
      var message := IntToBytes(|data|) + [if compressed then 1 else 0] + data;
      Write(message);
      return true;
    }

    /** One buffered read of at most want bytes, if the connection is not at its end. */
    method Read(want: nat) returns (got: Option<seq<byte>>)
      requires Valid() && want > 0
      modifies this`input
      ensures Valid()
      ensures match TakeSome(old(input), want)
              case EOF => got == None && input == old(input)
              case Got(bytes, rest) => got == Some(bytes) && 0 < |bytes| <= want && input == rest
    {
      if |input| == 0 {
        return None;
      }
      var piece := input[0];
      if |piece| <= want {
        input := input[1..];
        return Some(piece);
      }
      input := [piece[want..]] + input[1..];
      return Some(piece[..want]);
    }

    method ReadBytes() returns (msg: Option<seq<byte>>)
      requires Valid()
      modifies this`input
      ensures Valid()
      ensures match ReadFrame(codec, old(input))
              case Error(rest) => msg == None && input == rest
              case Message(m, rest) => msg == Some(m) && input == rest
    {
      var l := Read(4);
      if l.None? {
        return None;
      }
      var bufSize := BytesToInt(Padded(l.value));
      if bufSize > MAX_MSG_SIZE {
        return None;
      }
      var flag := Read(1);
      if flag.None? {
        return None;
      }
      var payload := ReadPayload(bufSize);
      if payload.None? {
        return None;
      }
      msg := Unpacked(codec, payload.value, flag.value[0]);
    }

    /** Reads until size bytes are there, however few come at a time. */
    method ReadPayload(size: nat) returns (total: Option<seq<byte>>)
      requires Valid()
      modifies this`input
      ensures Valid()
      ensures match TakeAll(old(input), size)
              case EOF => total == None && input == []
              case Got(bytes, rest) => total == Some(bytes) && input == rest
    {
      var received: seq<byte> := [];
      while |received| < size
        invariant Valid() && |received| <= size
        invariant TakeAll(old(input), size) == Prepend(received, TakeAll(input, size - |received|))
        decreases size - |received|
      {
        var tmp := Read(size - |received|);
        if tmp.None? {
          return None;
        }
        PrependTwice(received, tmp.value, TakeAll(input, size - |received| - |tmp.value|));
        received := received + tmp.value;
      }
      assert received + [] == received;
      return Some(received);
    }

    method WriteInt(i: int) returns (ok: bool)
      requires Valid()
      modifies this`buffered, this`wire
      ensures Valid() && ok && wire + buffered == old(wire + buffered) + Frame(codec, IntToBytes(i)).value
    {
      ok := WriteBytes(IntToBytes(i));
    }
  }

  function Prepend(bytes: seq<byte>, got: Got): Got {
    match got case EOF => EOF case Got(more, rest) => Got(bytes + more, rest)
  }

  lemma PrependTwice(a: seq<byte>, b: seq<byte>, got: Got)
    ensures Prepend(a, Prepend(b, got)) == Prepend(a + b, got)
  {
    if got.Got? {
      assert a + (b + got.bytes) == (a + b) + got.bytes;
    }
  }

  /** An integer written and read over the stream arrives modulo 2^32. */
  lemma IntRoundTrip(c: Codec, i: int, segs: seq<seq<byte>>)
    requires Lossless(c) && StartsWithFrame(c, IntToBytes(i), segs) && HeaderWhole(segs, 0)
    ensures ReadFrame(c, segs).Message? && ReadFrame(c, segs).msg == IntToBytes(i)
    ensures BytesToInt(ReadFrame(c, segs).msg) == i % WORD
  {
    FrameReadIff(c, IntToBytes(i), segs);
    WordRoundTrip(i);
  }
}
