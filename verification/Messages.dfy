/** Signed room messages, and the check a receiver makes of their signatures. */
module Messages {
  import opened Sequences
  import opened Base64Url

  datatype ContentType = Text | Cmd | File | Sticker | Other(name: string)

  datatype Content = Content(ctype: ContentType, replyTo: Option<Message>, blob: Option<string>, data: string)

  datatype Message = Message(sender: string, time: int, content: Content, sig: seq<byte>)

  /** What a signature covers: everything but the signature itself. */
  datatype SignedPart = SignedPart(sender: string, time: int, content: Content)

  /** Ed25519 verification is a parameter: key, signed data, signature. */
  type Verifier = (seq<byte>, SignedPart, seq<byte>) -> bool

  const KEY_SIZE := 32

  function SignData(m: Message): SignedPart {
    SignedPart(m.sender, m.time, m.content)
  }

  predicate SigIsValid(verify: Verifier, m: Message)
    decreases m
  {
    var rawKey := Decode(m.sender);
    && rawKey.Some?
    && |rawKey.value| == KEY_SIZE
    && (m.content.replyTo.Some? ==> SigIsValid(verify, m.content.replyTo.value))
    && verify(rawKey.value, SignData(m), m.sig)
  }

  /** The message, the message it replies to, and so on. */
  function ReplyChain(m: Message): seq<Message>
    decreases m
  {
    [m] + if m.content.replyTo.Some? then ReplyChain(m.content.replyTo.value) else []
  }

  /** A message whose own signature verifies under its own well-sized sender key. */
  ghost predicate SignedBySender(verify: Verifier, m: Message) {
    exists key :: Decode(m.sender) == Some(key) && |key| == KEY_SIZE && verify(key, SignData(m), m.sig)
  }

  /** A valid message is exactly one signed by its sender at every level of its reply chain. */
  lemma {:induction false} SigIsValidAtEveryLevel(verify: Verifier, m: Message)
    ensures SigIsValid(verify, m) <==> forall r :: r in ReplyChain(m) ==> SignedBySender(verify, r)
    decreases m
  {
    if m.content.replyTo.Some? {
      var reply := m.content.replyTo.value;
      SigIsValidAtEveryLevel(verify, reply);
      assert ReplyChain(m) == [m] + ReplyChain(reply);
    } else {
      assert ReplyChain(m) == [m];
    }
    assert m in ReplyChain(m);
  }

  /** The identifiers of the blobs that msgs refer to, in order, as the sender announces them. */
  function BlobIDs(msgs: seq<Message>): seq<string> {
    if |msgs| == 0 then []
    else
      var last := msgs[|msgs| - 1];
      BlobIDs(msgs[..|msgs| - 1]) + if last.content.blob.Some? then [last.content.blob.value] else []
  }

  method BlobIDsFromMessages(msgs: seq<Message>) returns (ids: seq<string>)
    ensures ids == BlobIDs(msgs)
  {
    ids := [];
    for i := 0 to |msgs|
      invariant ids == BlobIDs(msgs[..i])
    {
      assert msgs[..i + 1][..i] == msgs[..i];
      if msgs[i].content.blob.Some? {
        ids := ids + [msgs[i].content.blob.value];
      }
    }
    assert msgs[..|msgs|] == msgs;
  }

  lemma {:induction false} BlobIDsAreThoseOfMessages(msgs: seq<Message>, id: string)
    ensures id in BlobIDs(msgs) <==> exists m :: m in msgs && m.content.blob == Some(id)
  {
    if |msgs| != 0 {
      var front, last := msgs[..|msgs| - 1], msgs[|msgs| - 1];
      BlobIDsAreThoseOfMessages(front, id);
      assert msgs == front + [last];
    }
  }
}
