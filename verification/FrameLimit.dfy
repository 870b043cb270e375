/** How a session ends, in bytes: its frames are those of Framing, so what decides is the size after compression. */
module FrameLimit {
  import opened Sequences
  import opened Base64Url
  import opened Messages
  import opened SyncState
  import opened Sessions
  import opened SessionScript
  import opened SessionProgress
  import opened SessionEnd
  import Framing

  /** An empty list, as JSON has it. */
  const EMPTY_LIST: seq<byte> := [0x5B, 0x5D]

  /** A frame is written exactly when the framing takes the bytes that encode it. */
  ghost predicate Framed(setup: Setup, codec: Framing.Codec) {
    && (forall f :: setup.fits(f) <==> Framing.Frame(codec, setup.encode(f)).Some?)
    && setup.encode(IDs([])) == EMPTY_LIST
  }

  /** What a frame takes on the stream, besides its length and flag. */
  function SizeOf(setup: Setup, codec: Framing.Codec, f: Frame): nat {
    |Framing.Payload(codec, setup.encode(f)).0|
  }

  predicate WithinLimit(setup: Setup, codec: Framing.Codec, f: Frame) {
    SizeOf(setup, codec, f) <= Framing.MAX_MSG_SIZE
  }

  /** Compression never makes a frame larger. */
  lemma FitsIffWithinLimit(setup: Setup, codec: Framing.Codec, f: Frame)
    requires Framed(setup, codec)
    ensures setup.fits(f) <==> WithinLimit(setup, codec, f)
    ensures |setup.encode(f)| <= Framing.MAX_MSG_SIZE ==> WithinLimit(setup, codec, f)
  {
    assert setup.fits(f) <==> Framing.Frame(codec, setup.encode(f)).Some?;
  }

  /**
   An uncut session of a trusted client, once it is at rest: it has succeeded if
   and only if the marks, the batch that they ask for and the list of its blobs
   are within the limit after compression; and if it is the marks or the batch
   that are not, both sides wait for each other and nothing is pushed.
   */
  lemma UncutSessionWithinLimitIff(setup: Setup, codec: Framing.Codec, sts: seq<Session>, steps: seq<Step>, k: nat)
    requires Framed(setup, codec) && Trusted(setup)
    requires Uncut(setup, sts, steps) && k < |sts| && AtRest(setup, sts[k])
    ensures sts[k].marks.Some?
    ensures var st, batch := sts[k], Newer(sts[k].marks.value, setup.log);
            var passes := WithinLimit(setup, codec, Marks(st.marks.value)) && WithinLimit(setup, codec, Batch(batch));
            && (st.client.CDone? <==> passes && WithinLimit(setup, codec, IDs(BlobIDs(batch))))
            && (st.client.CDone? ==> st.server.SClosed? && st.pushes == [batch])
            && (!passes ==>
                  ClientAct(setup, st.client).Read? && ServerAct(st.server, st.room.sync).Read?
                  && st.up == Chan([], []) && st.down == Chan([], []) && st.pushes == [])
  {
    FitsIffWithinLimit(setup, codec, IDs([]));
    assert WithinLimit(setup, codec, IDs([]));
    UncutSessionSucceedsIff(setup, sts, steps, k);
    var marks := sts[k].marks.value;
    FitsIffWithinLimit(setup, codec, Marks(marks));
    FitsIffWithinLimit(setup, codec, Batch(Newer(marks, setup.log)));
    FitsIffWithinLimit(setup, codec, IDs(BlobIDs(Newer(marks, setup.log))));
    if !BothFit(setup, marks) {
      OversizeFrameStallsBoth(setup, sts, steps, k);
    }
  }
}
