/**
 The server's blobs in every run of a session: what the server has read of the
 transfer is a beginning of what the client sends, so its files are those that
 the receiver of Blobs makes of such a beginning.
 */
module SessionBlobs {
  import opened Sequences
  import opened Base64Url
  import opened Messages
  import opened SyncState
  import opened RoomModel
  import opened Sessions
  import opened SessionSafety
  import opened SessionProgress
  import Blobs

  // ---- What the client sends once its batch is confirmed ----

  function BlockFrames(blocks: seq<seq<byte>>): seq<Frame> {
    seq(|blocks|, i requires 0 <= i < |blocks| => Block(blocks[i]))
  }

  /** The counts and blocks of the listed blobs, up to the first that the client does not have. */
  function BlobFrames(setup: Setup, ids: seq<string>): seq<Frame>
    decreases |ids|
  {
    if |ids| == 0 || ids[0] !in setup.source then []
    else
      [CountFrame(setup.source[ids[0]])]
      + (BlockFrames(Blobs.Blocks(setup.source[ids[0]])) + BlobFrames(setup, ids[1..]))
  }

  /** A list of blobs that does not fit a frame is not sent, but its blobs are. */
  function Pending(setup: Setup, batch: seq<Message>): seq<Frame> {
    (if setup.fits(IDs(BlobIDs(batch))) then [IDs(BlobIDs(batch))] else []) + BlobFrames(setup, BlobIDs(batch))
  }

  function LaterBlobs(setup: Setup, ids: seq<string>): seq<Frame> {
    if ids == [] then [] else BlobFrames(setup, ids[1..])
  }

  function ButFirst(frames: seq<Frame>): seq<Frame> {
    if frames == [] then [] else frames[1..]
  }

  /** What a client with a confirmed batch has still to write. */
  function ClientLeft(setup: Setup, c: Client): seq<Frame> {
    match c
    case CBatch(batch, k) => if k <= 3 then Pending(setup, batch) else BlobFrames(setup, BlobIDs(batch))
    case CCount(_, ids, k) => if k == 0 then BlobFrames(setup, ids) else ButFirst(BlobFrames(setup, ids))
    case CBlock(_, ids, blocks, k) =>
      BlockFrames(if k == 0 || blocks == [] then blocks else blocks[1..]) + LaterBlobs(setup, ids)
    case CBlobOK(_, ids) => LaterBlobs(setup, ids)
    case _ => []
  }

  /** The client has sent its batch. */
  predicate BatchSent(c: Client) {
    !c.CGreet? && !c.CFailed? && (c.CBatch? ==> c.k >= 1)
  }

  lemma ClientWritesLeft(setup: Setup, c: Client)
    requires BatchSent(c) && ClientAct(setup, c).Write?
    ensures var act := ClientAct(setup, c);
            && BatchSent(act.next)
            && ClientLeft(setup, c) == (if Written(setup, act.f) then [act.f] else []) + ClientLeft(setup, act.next)
  {
    match c
    case CBlock(_, ids, blocks, k) =>
      assert BlockFrames(blocks) == [Block(blocks[0])] + BlockFrames(blocks[1..]);
    case _ =>
  }

  lemma ClientFlushKeepsLeft(setup: Setup, c: Client)
    requires BatchSent(c) && ClientAct(setup, c).Flush?
    ensures BatchSent(ClientAct(setup, c).next)
    ensures ClientLeft(setup, ClientAct(setup, c).next) == ClientLeft(setup, c)
  {
    match c
    case CCount(_, ids, k) =>
      assert BlobFrames(setup, ids)[1..]
          == BlockFrames(Blobs.Blocks(setup.source[ids[0]])) + BlobFrames(setup, ids[1..]);
    case _ =>
  }

  lemma ClientReadKeepsLeft(setup: Setup, c: Client, f: Frame)
    requires BatchSent(c) && ClientAct(setup, c).Read?
    ensures var next := ClientOn(setup, c, f);
            next.CFailed? || (BatchSent(next) && ClientLeft(setup, next) == ClientLeft(setup, c))
  {}

  // ---- What the server has still to read ----

  /** All that a client sends until its batch is confirmed. */
  function GreetFrames(setup: Setup, marks: Option<SyncMap>): seq<Frame> {
    [Fingerprint, Signature, RoomID]
    + if marks.Some? && setup.fits(Marks(marks.value)) && setup.fits(Batch(Newer(marks.value, setup.log)))
      then [Batch(Newer(marks.value, setup.log))] else []
  }

  predicate InBlobStage(s: Server) {
    s.SCount? || s.SBlock? || s.SBlobOK?
  }

  /** What can still arrive at the server, if it has read n frames of the transfer. */
  function ServerLeft(setup: Setup, st: Session, n: nat): seq<Frame> {
    if st.server.SGreet? then
      var all := GreetFrames(setup, st.marks); if ReadBy(st.server) <= |all| then all[ReadBy(st.server)..] else []
    else if st.newMsgs.None? then []
    else if st.server.SConfirm? then Pending(setup, st.newMsgs.value)
    else
      var all := BlobFrames(setup, BlobIDs(st.newMsgs.value)); if n <= |all| then all[n..] else []
  }

  predicate Reading(s: Server) {
    s.SGreet? || s.SConfirm? || InBlobStage(s)
  }

  /**
   Nothing but a beginning of that is under way, and all of it will be sent unless
   the client has failed or the line is cut.
   */
  predicate UpInv(setup: Setup, st: Session, n: nat) {
    && (Reading(st.server) ==> Out(st.up) <= ServerLeft(setup, st, n))
    && (st.server.SConfirm? || InBlobStage(st.server) ==>
          && st.newMsgs.Some?
          && (InBlobStage(st.server) ==> n <= |BlobFrames(setup, BlobIDs(st.newMsgs.value))|)
          && (!st.cut && !st.client.CFailed? ==>
                BatchSent(st.client) && Out(st.up) + ClientLeft(setup, st.client) == ServerLeft(setup, st, n)))
  }

  lemma SentIsGreet(setup: Setup, st: Session)
    requires MarksInv(setup, st) && SafetyInv(setup, st) && st.server.SGreet? && !st.client.CFailed?
    ensures SentUp(setup, st.client) <= GreetFrames(setup, st.marks)
  {}

  /** While the client is in play, what is under way in the greeting is known from SessionSafety. */
  lemma GreetingUp(setup: Setup, st: Session, n: nat)
    requires MarksInv(setup, st) && SafetyInv(setup, st) && st.server.SGreet? && !st.client.CFailed?
    ensures UpInv(setup, st, n)
  {
    SentIsGreet(setup, st);
    var sent, all, r := SentUp(setup, st.client), GreetFrames(setup, st.marks), ReadBy(st.server);
    assert sent[r..] <= all[r..];
  }

  lemma PrefixGrows(a: seq<Frame>, b: seq<Frame>, f: Frame, tail: seq<Frame>)
    requires a + ([f] + tail) == b
    ensures (a + [f]) + tail == b && a + [f] <= b
  {
    assert (a + [f]) + tail == a + ([f] + tail);
  }

  lemma OutOfPlayKeepsUp(setup: Setup, st: Session)
    requires ClientCanMove(setup, st) && (st.cut ==> st.up.buf == [])
    requires st.cut || ClientMove(setup, st).client.CFailed?
    ensures ClientMove(setup, st).up == st.up
  {}

  lemma SameUp(setup: Setup, st: Session, w: Session, n: nat)
    requires UpInv(setup, st, n) && Out(w.up) == Out(st.up) && w.cut == st.cut
    requires w.server == st.server && w.newMsgs == st.newMsgs && w.marks == st.marks
    requires w.cut || w.client.CFailed? || w.client == st.client
    ensures UpInv(setup, w, n)
  {}

  lemma ClientMoveKeepsUp(setup: Setup, st: Session, n: nat)
    requires UpInv(setup, st, n) && MarksInv(setup, st) && SafetyInv(setup, st) && ClientCanMove(setup, st)
    requires MarksInv(setup, ClientMove(setup, st)) && SafetyInv(setup, ClientMove(setup, st))
    ensures UpInv(setup, ClientMove(setup, st), n)
  {
    var w := ClientMove(setup, st);
    if w.server.SGreet? && !w.client.CFailed? {
      GreetingUp(setup, w, n);
    } else if (w.server.SConfirm? || InBlobStage(w.server)) && !w.cut && !w.client.CFailed? {
      LaterClientMoveKeepsUp(setup, st, n);
    } else if w.cut || w.client.CFailed? {
      OutOfPlayKeepsUp(setup, st);
      SameUp(setup, st, w, n);
    }
  }

  /** The two sides still add up to the transfer. */
  lemma UpFrom(setup: Setup, st: Session, w: Session, n: nat)
    requires UpInv(setup, st, n) && w.server == st.server && w.newMsgs == st.newMsgs && w.marks == st.marks
    requires BatchSent(w.client) && Out(w.up) + ClientLeft(setup, w.client) == ServerLeft(setup, st, n)
    ensures UpInv(setup, w, n)
  {
    assert Out(w.up) <= Out(w.up) + ClientLeft(setup, w.client);
  }

  lemma LaterWriteKeepsUp(setup: Setup, st: Session, n: nat)
    requires UpInv(setup, st, n) && !st.cut && !st.client.CFailed? && ClientAct(setup, st.client).Write?
    requires st.server.SConfirm? || InBlobStage(st.server)
    ensures UpInv(setup, ClientMove(setup, st), n)
  {
    var w, act := ClientMove(setup, st), ClientAct(setup, st.client);
    ClientWritesLeft(setup, st.client);
    if Written(setup, act.f) {
      PrefixGrows(Out(st.up), ServerLeft(setup, st, n), act.f, ClientLeft(setup, act.next));
      assert Out(w.up) == Out(st.up) + [act.f];
    } else {
      assert [] + ClientLeft(setup, act.next) == ClientLeft(setup, act.next);
    }
    UpFrom(setup, st, w, n);
  }

  lemma LaterClientMoveKeepsUp(setup: Setup, st: Session, n: nat)
    requires UpInv(setup, st, n) && ClientCanMove(setup, st) && !st.cut
    requires st.server.SConfirm? || InBlobStage(st.server)
    requires !ClientMove(setup, st).client.CFailed?
    ensures UpInv(setup, ClientMove(setup, st), n)
  {
    var w := ClientMove(setup, st);
    match ClientAct(setup, st.client)
    case Write(_, _) => LaterWriteKeepsUp(setup, st, n);
    case Flush(_) =>
      ClientFlushKeepsLeft(setup, st.client);
      assert Out(w.up) == Out(st.up);
      UpFrom(setup, st, w, n);
    case Read =>
      ClientReadKeepsLeft(setup, st.client, st.down.wire[0]);
      UpFrom(setup, st, w, n);
    case _ =>
  }

  // ---- What the server makes of it ----

  /** What becomes of the files if these items arrive and then no more, from where the server stands in the transfer. */
  function Resume(s: Server, files: Blobs.Files, items: seq<Blobs.Item>): Blobs.Received {
    match s
    case SCount(ids) => Blobs.ReceiveAll(files, ids, items)
    case SBlock(ids, left, k) =>
      if ids == [] || ids[0] !in files || left == 0 then Blobs.Received(files, false, items)
      else
        var r := Blobs.ReceiveBlocks(files, ids[0], if k == 0 then left else left - 1, items);
        if r.ok then Blobs.ReceiveAll(r.files, ids[1..], r.rest) else r
    case SBlobOK(ids, _) => Blobs.ReceiveAll(files, if ids == [] then [] else ids[1..], items)
    case _ => Blobs.Received(files, true, items)
  }

  function RawAll(setup: Setup, frames: seq<Frame>): seq<Blobs.Item> {
    seq(|frames|, i requires 0 <= i < |frames| => Raw(setup, frames[i]))
  }

  predicate InTransfer(s: Server, files: Blobs.Files) {
    match s
    case SCount(ids) => ids != []
    case SBlock(ids, left, _) => ids != [] && left > 0 && ids[0] in files
    case SBlobOK(ids, _) => ids != []
    case _ => false
  }

  /** The server has come from files0 to where it stands by reading just these items of a transfer of all. */
  ghost predicate Tracks(files0: Blobs.Files, all: seq<string>, read: seq<Blobs.Item>, s: Server, files: Blobs.Files) {
    forall more :: Blobs.ReceiveAll(files0, all, read + more) == Resume(s, files, more)
  }

  lemma ReadMore(setup: Setup, s: Server, files: Blobs.Files, f: Frame, more: seq<Blobs.Item>)
    requires InTransfer(s, files) && ((s.SCount? && |Raw(setup, f)| >= 4) || (s.SBlock? && s.k == 0))
    ensures var next, held := ServerOn(setup, s, f), FilesOn(setup, s, files, f);
            InTransfer(next, held) && Resume(s, files, [Raw(setup, f)] + more) == Resume(next, held, more)
  {
    var items := [Raw(setup, f)] + more;
    assert items[0] == Raw(setup, f) && items[1..] == more;
  }

  lemma TracksRead(setup: Setup, files0: Blobs.Files, all: seq<string>, read: seq<Blobs.Item>, s: Server,
                   files: Blobs.Files, f: Frame)
    requires Tracks(files0, all, read, s, files)
    requires InTransfer(s, files) && ((s.SCount? && |Raw(setup, f)| >= 4) || (s.SBlock? && s.k == 0))
    ensures var next, held := ServerOn(setup, s, f), FilesOn(setup, s, files, f);
            InTransfer(next, held) && Tracks(files0, all, read + [Raw(setup, f)], next, held)
  {
    var next, held := ServerOn(setup, s, f), FilesOn(setup, s, files, f);
    ReadMore(setup, s, files, f, []);
    forall more ensures Blobs.ReceiveAll(files0, all, read + [Raw(setup, f)] + more) == Resume(next, held, more) {
      ReadMore(setup, s, files, f, more);
      assert read + [Raw(setup, f)] + more == read + ([Raw(setup, f)] + more);
      assert Blobs.ReceiveAll(files0, all, read + ([Raw(setup, f)] + more)) == Resume(s, files, [Raw(setup, f)] + more);
    }
  }

  /** The server's writes and flushes go on in the transfer, or leave it at its end. */
  lemma TracksAct(files0: Blobs.Files, all: seq<string>, read: seq<Blobs.Item>, s: Server, files: Blobs.Files,
                  sync: SyncMap)
    requires Tracks(files0, all, read, s, files) && InTransfer(s, files) && Owes(ServerAct(s, sync))
    ensures var next := ServerAct(s, sync).next;
            && (next.SFinish? <==> s.SBlobOK? && s.k != 0 && |s.ids| == 1)
            && (!next.SFinish? ==> InTransfer(next, files) && Tracks(files0, all, read, next, files))
  {
    var next := ServerAct(s, sync).next;
    if !next.SFinish? {
      forall more ensures Resume(s, files, more) == Resume(next, files, more) {}
      forall more ensures Blobs.ReceiveAll(files0, all, read + more) == Resume(next, files, more) {
        assert Blobs.ReceiveAll(files0, all, read + more) == Resume(s, files, more);
      }
    }
  }

  // ---- Both together, in every run ----

  ghost predicate FilesInv(setup: Setup, files0: Blobs.Files, st: Session, n: nat) {
    && (st.server.SGreet? || st.server.SReject? || st.server.SConfirm? ==> st.files == files0)
    && (InBlobStage(st.server) ==>
          && st.newMsgs.Some? && n <= |BlobFrames(setup, BlobIDs(st.newMsgs.value))|
          && InTransfer(st.server, st.files)
          && Tracks(files0, BlobIDs(st.newMsgs.value),
                    RawAll(setup, BlobFrames(setup, BlobIDs(st.newMsgs.value))[..n]), st.server, st.files))
  }

  ghost predicate TransferInv(setup: Setup, files0: Blobs.Files, st: Session, n: nat) {
    UpInv(setup, st, n) && FilesInv(setup, files0, st, n)
  }

  /** The invariants of the modules before this one. */
  ghost predicate KnownInv(setup: Setup, st: Session) {
    SafetyInv(setup, st) && MarksInv(setup, st) && BufferInv(setup, st)
  }

  /** When the server's read fails, the client is out of play and nothing is under way. */
  lemma FailedReadIsEnd(setup: Setup, st: Session)
    requires KnownInv(setup, st) && ServerCanMove(st) && ServerAct(st.server, st.room.sync).Read? && st.up.wire == []
    ensures (st.cut || st.client.CFailed?) && Out(st.up) == []
  {}

  lemma GreetingReadKeepsUp(setup: Setup, st: Session, n: nat)
    requires UpInv(setup, st, n) && st.server.SGreet? && st.server.k <= 8 && ServerCanMove(st)
    requires ServerAct(st.server, st.room.sync).Read? && ServerMove(setup, st).server.SGreet?
    ensures UpInv(setup, ServerMove(setup, st), n)
  {
    OneFrameLess(st.up, GreetFrames(setup, st.marks), ReadBy(st.server));
    assert ReadBy(ServerMove(setup, st).server) == ReadBy(st.server) + 1;
  }

  lemma GreetingActKeepsUp(setup: Setup, st: Session, n: nat)
    requires UpInv(setup, st, n) && st.server.SGreet? && st.server.k <= 8 && ServerCanMove(st)
    requires st.marks.Some? ==> st.server.k > 6
    requires Owes(ServerAct(st.server, st.room.sync))
    ensures UpInv(setup, ServerMove(setup, st), n)
  {
    ReadByAfter(st.server, st.room.sync);
    var w := ServerMove(setup, st);
    var all, more, r := GreetFrames(setup, st.marks), GreetFrames(setup, w.marks), ReadBy(st.server);
    assert Out(w.up) == Out(st.up) && r <= 3;
    assert all <= more && all[r..] <= more[r..];
  }

  /** The batch has arrived: nothing is under way, and what the client sends next begins with the list of its blobs. */
  lemma BatchReadKeepsUp(setup: Setup, st: Session, n: nat)
    requires UpInv(setup, st, n) && ServerCanMove(st)
    requires KnownInv(setup, st) && KnownInv(setup, ServerMove(setup, st))
    requires st.server == SGreet(8) && ServerMove(setup, st).server.SConfirm?
    ensures UpInv(setup, ServerMove(setup, st), n)
  {
    var w, all := ServerMove(setup, st), GreetFrames(setup, st.marks);
    if st.up.wire == [] {
      FailedReadIsEnd(setup, st);
    } else {
      OneFrameLess(st.up, all, 3);
      assert Out(w.up) == [];
      assert st.up.wire[0] == Out(st.up)[0] == all[3..][0] == all[3];
      if !w.cut && !w.client.CFailed? {
        assert |SentUp(setup, st.client)| >= 4;
        assert [] + ClientLeft(setup, w.client) == ClientLeft(setup, w.client);
      }
    }
  }

  lemma FirstUnderWay(ch: Chan, left: seq<Frame>)
    requires ch.wire != [] && Out(ch) <= left
    ensures left != [] && ch.wire[0] == left[0] && Out(ch.(wire := ch.wire[1..])) == Out(ch)[1..] <= left[1..]
  {}

  lemma RestUnderWay(out: seq<Frame>, more: seq<Frame>, left: seq<Frame>)
    requires out != [] && out + more == left
    ensures out[1..] + more == left[1..]
  {
    assert (out + more)[1..] == out[1..] + more;
  }

  lemma ConfirmReadKeepsTransfer(setup: Setup, files0: Blobs.Files, st: Session)
    requires TransferInv(setup, files0, st, 0) && KnownInv(setup, st) && ServerCanMove(st)
    requires st.server.SConfirm? && ServerAct(st.server, st.room.sync).Read?
    requires InBlobStage(ServerMove(setup, st).server)
    ensures TransferInv(setup, files0, ServerMove(setup, st), 0)
  {
    var w, left := ServerMove(setup, st), ServerLeft(setup, st, 0);
    var all := BlobIDs(st.newMsgs.value);
    FirstUnderWay(st.up, left);
    assert st.up.wire[0] == IDs(all) && left[1..] == BlobFrames(setup, all);
    assert BlobFrames(setup, all)[0..] == BlobFrames(setup, all);
    if !w.cut && !w.client.CFailed? {
      RestUnderWay(Out(st.up), ClientLeft(setup, st.client), left);
    }
    assert RawAll(setup, BlobFrames(setup, all)[..0]) == [];
    forall more ensures Blobs.ReceiveAll(files0, all, [] + more) == Resume(w.server, w.files, more) {
      assert [] + more == more;
    }
  }

  lemma RawAllMore(setup: Setup, frames: seq<Frame>, n: nat)
    requires n < |frames|
    ensures RawAll(setup, frames[..n + 1]) == RawAll(setup, frames[..n]) + [Raw(setup, frames[n])]
  {}

  lemma TransferReadKeepsTransfer(setup: Setup, files0: Blobs.Files, st: Session, n: nat)
    requires TransferInv(setup, files0, st, n) && KnownInv(setup, st) && ServerCanMove(st)
    requires InBlobStage(st.server) && ServerAct(st.server, st.room.sync).Read?
    requires st.up.wire != [] && InBlobStage(ServerMove(setup, st).server)
    ensures TransferInv(setup, files0, ServerMove(setup, st), n + 1)
  {
    var w, left, f := ServerMove(setup, st), ServerLeft(setup, st, n), st.up.wire[0];
    var all := BlobIDs(st.newMsgs.value);
    var frames := BlobFrames(setup, all);
    FirstUnderWay(st.up, left);
    assert left[1..] == frames[n + 1..] && f == frames[n];
    if !w.cut && !w.client.CFailed? {
      RestUnderWay(Out(st.up), ClientLeft(setup, st.client), left);
    }
    RawAllMore(setup, frames, n);
    TracksRead(setup, files0, all, RawAll(setup, frames[..n]), st.server, st.files, f);
  }

  lemma StillTransferring(setup: Setup, files0: Blobs.Files, st: Session, next: Server, down: Chan, n: nat)
    requires TransferInv(setup, files0, st, n) && InBlobStage(st.server) && InBlobStage(next)
    requires InTransfer(next, st.files)
    requires Tracks(files0, BlobIDs(st.newMsgs.value), RawAll(setup, BlobFrames(setup, BlobIDs(st.newMsgs.value))[..n]),
                    next, st.files)
    ensures TransferInv(setup, files0, st.(server := next, down := down), n)
  {}

  lemma TransferActKeepsTransfer(setup: Setup, files0: Blobs.Files, st: Session, n: nat)
    requires TransferInv(setup, files0, st, n) && ServerCanMove(st)
    requires InBlobStage(st.server) && Owes(ServerAct(st.server, st.room.sync))
    ensures TransferInv(setup, files0, ServerMove(setup, st), n)
  {
    var all, w := BlobIDs(st.newMsgs.value), ServerMove(setup, st);
    TracksAct(files0, all, RawAll(setup, BlobFrames(setup, all)[..n]), st.server, st.files, st.room.sync);
    assert w == st.(server := w.server, down := w.down);
    if w.server.SFinish? {
      LeftKeepsTransfer(setup, files0, w, n);
    } else {
      StillTransferring(setup, files0, st, w.server, w.down, n);
    }
  }

  lemma ConfirmActKeepsTransfer(setup: Setup, files0: Blobs.Files, st: Session, n: nat)
    requires TransferInv(setup, files0, st, n) && ServerCanMove(st)
    requires st.server.SConfirm? && Owes(ServerAct(st.server, st.room.sync))
    ensures TransferInv(setup, files0, ServerMove(setup, st), n)
  {
    var w := ServerMove(setup, st);
    assert w == st.(server := w.server, down := w.down) && w.server.SConfirm?;
    StillConfirming(setup, files0, st, w.server, w.down, n);
  }

  lemma StillConfirming(setup: Setup, files0: Blobs.Files, st: Session, next: Server, down: Chan, n: nat)
    requires TransferInv(setup, files0, st, n) && st.server.SConfirm? && next.SConfirm?
    ensures TransferInv(setup, files0, st.(server := next, down := down), n)
  {}

  /** Nothing is claimed of a server that no longer reads. */
  lemma LeftKeepsTransfer(setup: Setup, files0: Blobs.Files, st: Session, n: nat)
    requires st.server.SFinish? || st.server.SClosed? || (st.server.SReject? && st.files == files0)
    ensures TransferInv(setup, files0, st, n)
  {}

  lemma GreetingKeepsTransfer(setup: Setup, files0: Blobs.Files, st: Session, n: nat)
    requires TransferInv(setup, files0, st, n) && ServerCanMove(st) && st.server.SGreet?
    requires KnownInv(setup, st) && KnownInv(setup, ServerMove(setup, st))
    ensures TransferInv(setup, files0, ServerMove(setup, st), n)
  {
    var w := ServerMove(setup, st);
    assert w.files == files0;
    if w.server.SGreet? && ServerAct(st.server, st.room.sync).Read? {
      GreetingReadKeepsUp(setup, st, n);
    } else if w.server.SGreet? {
      GreetingActKeepsUp(setup, st, n);
    } else if w.server.SConfirm? {
      BatchReadKeepsUp(setup, st, n);
    } else {
      LeftKeepsTransfer(setup, files0, w, n);
    }
  }

  lemma ConfirmKeepsTransfer(setup: Setup, files0: Blobs.Files, st: Session, n: nat) returns (n': nat)
    requires TransferInv(setup, files0, st, n) && ServerCanMove(st) && st.server.SConfirm? && KnownInv(setup, st)
    ensures TransferInv(setup, files0, ServerMove(setup, st), n')
  {
    n' := n;
    if Owes(ServerAct(st.server, st.room.sync)) {
      ConfirmActKeepsTransfer(setup, files0, st, n);
    } else if InBlobStage(ServerMove(setup, st).server) {
      n' := 0;
      StillConfirming(setup, files0, st, st.server, st.down, 0);
      ConfirmReadKeepsTransfer(setup, files0, st);
    } else {
      LeftKeepsTransfer(setup, files0, ServerMove(setup, st), n);
    }
  }

  lemma BlobStageKeepsTransfer(setup: Setup, files0: Blobs.Files, st: Session, n: nat) returns (n': nat)
    requires TransferInv(setup, files0, st, n) && ServerCanMove(st) && InBlobStage(st.server) && KnownInv(setup, st)
    ensures TransferInv(setup, files0, ServerMove(setup, st), n')
  {
    n' := n;
    if Owes(ServerAct(st.server, st.room.sync)) {
      TransferActKeepsTransfer(setup, files0, st, n);
    } else if InBlobStage(ServerMove(setup, st).server) {
      n' := n + 1;
      TransferReadKeepsTransfer(setup, files0, st, n);
    } else {
      LeftKeepsTransfer(setup, files0, ServerMove(setup, st), n);
    }
  }

  lemma ServerMoveKeepsTransfer(setup: Setup, files0: Blobs.Files, st: Session, n: nat) returns (n': nat)
    requires TransferInv(setup, files0, st, n) && ServerCanMove(st)
    requires KnownInv(setup, st) && KnownInv(setup, ServerMove(setup, st))
    ensures TransferInv(setup, files0, ServerMove(setup, st), n')
  {
    n' := n;
    match st.server
    case SGreet(_) => GreetingKeepsTransfer(setup, files0, st, n);
    case SConfirm(_) => n' := ConfirmKeepsTransfer(setup, files0, st, n);
    case SReject(_) => LeftKeepsTransfer(setup, files0, ServerMove(setup, st), n);
    case SFinish(_) => LeftKeepsTransfer(setup, files0, ServerMove(setup, st), n);
    case SClosed =>
    case _ => n' := BlobStageKeepsTransfer(setup, files0, st, n);
  }

  lemma CutKeepsUp(setup: Setup, st: Session, w: Session, u: nat, n: nat)
    requires UpInv(setup, st, n) && u <= |st.up.wire| && w.up == Chan([], st.up.wire[..u]) && w.cut
    requires w.server == st.server && w.newMsgs == st.newMsgs && w.marks == st.marks
    ensures UpInv(setup, w, n)
  {
    assert Out(w.up) <= Out(st.up);
  }

  lemma QuietStepKeepsUp(setup: Setup, st: Session, step: Step, n: nat)
    requires UpInv(setup, st, n) && Enabled(setup, st, step) && !step.ClientMoves? && !step.ServerMoves?
    ensures UpInv(setup, After(setup, st, step), n)
  {
    var w := After(setup, st, step);
    if step.Cut? {
      CutKeepsUp(setup, st, w, step.u, n);
    } else {
      assert Out(w.up) == Out(st.up);
      SameUp(setup, st, w, n);
    }
  }

  lemma StepKeepsTransfer(setup: Setup, files0: Blobs.Files, st: Session, step: Step, n: nat) returns (n': nat)
    requires TransferInv(setup, files0, st, n) && Enabled(setup, st, step)
    requires KnownInv(setup, st) && KnownInv(setup, After(setup, st, step))
    ensures TransferInv(setup, files0, After(setup, st, step), n')
  {
    n' := n;
    match step
    case ClientMoves => ClientMoveKeepsUp(setup, st, n);
    case ServerMoves => n' := ServerMoveKeepsTransfer(setup, files0, st, n);
    case _ => QuietStepKeepsUp(setup, st, step, n);
  }

  lemma RunIsKnown(setup: Setup, sts: seq<Session>, steps: seq<Step>, k: nat)
    requires Run(setup, sts, steps) && k < |sts|
    ensures KnownInv(setup, sts[k]) && BlobsInv(setup, sts[k])
  {
    RunKeepsSafety(setup, sts, steps, k);
    RunKeepsSizes(setup, sts, steps, k);
    RunKeepsBuffer(setup, sts, steps, k);
  }

  lemma KnownAfter(setup: Setup, st: Session, step: Step)
    requires KnownInv(setup, st) && BlobsInv(setup, st) && Enabled(setup, st, step)
    ensures KnownInv(setup, After(setup, st, step))
  {
    StepKeepsSafety(setup, st, step);
    StepKeepsSizes(setup, st, step);
    StepKeepsBuffer(setup, st, step);
  }

  lemma {:induction false} RunKeepsTransfer(setup: Setup, sts: seq<Session>, steps: seq<Step>, k: nat) returns (n: nat)
    requires Run(setup, sts, steps) && k < |sts|
    ensures TransferInv(setup, sts[0].files, sts[k], n)
  {
    if k == 0 {
      n := 0;
    } else {
      var m := RunKeepsTransfer(setup, sts, steps, k - 1);
      RunIsKnown(setup, sts, steps, k - 1);
      KnownAfter(setup, sts[k - 1], steps[k - 1]);
      n := StepKeepsTransfer(setup, sts[0].files, sts[k - 1], steps[k - 1], m);
    }
  }
}
