/**
 The script of a session: the frames that the two sides exchange, in order, for
 a client whose key and membership are in order. Each side's next move is the
 next event of what is left of the script for it.
 */
module SessionScript {
  import opened Sequences
  import opened Base64Url
  import opened Messages
  import opened SyncState
  import opened RoomModel
  import opened Sessions
  import opened SessionSafety
  import Blobs
  import Framing

  /** A frame that one side writes and the other reads. */
  datatype Event = Event(fromClient: bool, frame: Frame)

  // ---- Two processes and one script ----

  function Frames(events: seq<Event>): seq<Frame> {
    seq(|events|, i requires 0 <= i < |events| => events[i].frame)
  }

  predicate AllFrom(events: seq<Event>, side: bool) {
    forall i :: 0 <= i < |events| ==> events[i].fromClient == side
  }

  /**
   a is ahead of b: the rest of b's script starts with events of a's side, which
   are just what a has sent and b not read.
   */
  predicate AheadOf(restA: seq<Event>, restB: seq<Event>, outA: seq<Frame>, outB: seq<Frame>, a: bool) {
    && |restA| <= |restB| && restB[|restB| - |restA|..] == restA
    && AllFrom(restB[..|restB| - |restA|], a) && Frames(restB[..|restB| - |restA|]) == outA
    && outB == []
  }

  /** Dual: one side is ahead of the other (or neither is). */
  predicate Dual(restA: seq<Event>, restB: seq<Event>, outA: seq<Frame>, outB: seq<Frame>, a: bool) {
    AheadOf(restA, restB, outA, outB, a) || AheadOf(restB, restA, outB, outA, !a)
  }

  lemma AheadStarts(restA: seq<Event>, restB: seq<Event>, outA: seq<Frame>, outB: seq<Frame>, a: bool)
    requires AheadOf(restA, restB, outA, outB, a) && |restA| < |restB|
    ensures restB[0].fromClient == a && outA != [] && outA[0] == restB[0].frame
  {
    assert restB[..|restB| - |restA|][0] == restB[0];
  }

  /** Whoever is about to write is ahead, or both are at the same point. */
  lemma WriterIsAhead(restA: seq<Event>, restB: seq<Event>, outA: seq<Frame>, outB: seq<Frame>, a: bool)
    requires restA != [] && restA[0].fromClient == a && Dual(restA, restB, outA, outB, a)
    ensures AheadOf(restA, restB, outA, outB, a)
  {
    if AheadOf(restB, restA, outB, outA, !a) && |restB| < |restA| {
      AheadStarts(restB, restA, outB, outA, !a);
    }
  }

  lemma WriteKeepsDual(restA: seq<Event>, restB: seq<Event>, outA: seq<Frame>, outB: seq<Frame>, a: bool, f: Frame)
    requires restA != [] && restA[0] == Event(a, f) && Dual(restA, restB, outA, outB, a)
    ensures Dual(restA[1..], restB, outA + [f], outB, a)
  {
    WriterIsAhead(restA, restB, outA, outB, a);
    var n := |restB| - |restA|;
    assert restB[n] == restA[0];
    assert restB[..n + 1] == restB[..n] + [restA[0]];
    assert restB[n + 1..] == restB[n..][1..];
    assert Frames(restB[..n + 1]) == Frames(restB[..n]) + [f];
    assert AheadOf(restA[1..], restB, outA + [f], outB, a);
  }

  lemma ReadKeepsDual(restA: seq<Event>, restB: seq<Event>, outA: seq<Frame>, outB: seq<Frame>, a: bool)
    requires restA != [] && restA[0].fromClient != a && outB != [] && Dual(restA, restB, outA, outB, a)
    ensures outB[0] == restA[0].frame
    ensures Dual(restA[1..], restB, outA, outB[1..], a)
  {
    var n := |restA| - |restB|;
    assert AheadOf(restB, restA, outB, outA, !a);
    assert restA[..n][0] == restA[0];
    assert restA[1..][..n - 1] == restA[..n][1..];
    assert restA[1..][n - 1..] == restA[n..];
    assert Frames(restA[..n][1..]) == Frames(restA[..n])[1..];
    assert AheadOf(restB, restA[1..], outB[1..], outA, !a);
  }

  /** When nothing is under way, both are at the same point of the script. */
  lemma NothingUnderWay(restA: seq<Event>, restB: seq<Event>, a: bool)
    requires Dual(restA, restB, [], [], a)
    ensures restA == restB
  {
    if AheadOf(restA, restB, [], [], a) {
      assert |Frames(restB[..|restB| - |restA|])| == 0;
    } else {
      assert |Frames(restA[..|restA| - |restB|])| == 0;
    }
  }

  // ---- The script of a session ----

  const GREETING := [Event(false, Challenge), Event(true, Fingerprint), Event(true, Signature), Event(true, RoomID),
                     Event(false, AUTH_OK)]

  function BlockEvents(blocks: seq<seq<byte>>): seq<Event> {
    if |blocks| == 0 then []
    else [Event(true, Block(blocks[0])), Event(false, BLOCK_OK)] + BlockEvents(blocks[1..])
  }

  function BlocksOf(setup: Setup, id: string): seq<seq<byte>> {
    if id in setup.source then Blobs.Blocks(setup.source[id]) else []
  }

  function CountOf(setup: Setup, id: string): Frame {
    if id in setup.source then CountFrame(setup.source[id]) else Count([])
  }

  function BlobEvents(setup: Setup, ids: seq<string>): seq<Event>
    decreases |ids|
  {
    if |ids| == 0 then [Event(false, SYNC_OK)]
    else [Event(true, CountOf(setup, ids[0]))]
         + (BlockEvents(BlocksOf(setup, ids[0])) + ([Event(false, BLOB_OK)] + BlobEvents(setup, ids[1..])))
  }

  /** The rest of a blob, and then the other blobs. */
  function BlockTail(setup: Setup, blocks: seq<seq<byte>>, ids: seq<string>): seq<Event>
    requires ids != []
  {
    BlockEvents(blocks) + ([Event(false, BLOB_OK)] + BlobEvents(setup, ids[1..]))
  }

  function Confirmed(setup: Setup, batch: seq<Message>): seq<Event> {
    [Event(true, IDs(BlobIDs(batch)))] + BlobEvents(setup, BlobIDs(batch))
  }

  /** From the batch on; nothing can follow a batch that does not fit. */
  function FromBatch(setup: Setup, batch: seq<Message>): seq<Event> {
    if setup.fits(Batch(batch))
    then [Event(true, Batch(batch)), Event(false, MESSAGES_OK)] + Confirmed(setup, batch)
    else []
  }

  function AfterMarks(setup: Setup, marks: SyncMap): seq<Event> {
    if setup.fits(Marks(marks)) then FromBatch(setup, Newer(marks, setup.log)) else []
  }

  function FromMarks(setup: Setup, marks: SyncMap): seq<Event> {
    if setup.fits(Marks(marks)) then [Event(false, Marks(marks))] + AfterMarks(setup, marks) else []
  }

  function FromGreeting(position: nat, tail: seq<Event>): seq<Event> {
    if position < |GREETING| then GREETING[position..] + tail else tail
  }

  lemma GreetingSplit(position: nat, tail: seq<Event>)
    requires position < |GREETING|
    ensures FromGreeting(position, tail)[0] == GREETING[position]
    ensures FromGreeting(position, tail)[1..] == FromGreeting(position + 1, tail)
  {}

  function DropFirst(events: seq<Event>): seq<Event> {
    if events == [] then [] else events[1..]
  }

  function ClientPosition(k: nat): nat {
    if k < 3 then k else if k < 5 then 3 else if k < 7 then 4 else 5
  }

  /** What is left of the script for the client. */
  function ClientRest(setup: Setup, c: Client, marks: SyncMap): seq<Event> {
    match c
    case CGreet(k) => FromGreeting(ClientPosition(k), FromMarks(setup, marks))
    case CBatch(batch, k) =>
      if k == 0 then FromBatch(setup, batch)
      else if k < 3 then DropFirst(FromBatch(setup, batch))
      else if k == 3 then Confirmed(setup, batch)
      else BlobEvents(setup, BlobIDs(batch))
    case CCount(_, ids, k) => if k == 0 then BlobEvents(setup, ids) else DropFirst(BlobEvents(setup, ids))
    case CBlock(_, ids, blocks, k) =>
      if ids == [] then []
      else if k == 0 then BlockTail(setup, blocks, ids) else DropFirst(BlockTail(setup, blocks, ids))
    case CBlobOK(_, ids) => if ids == [] then [] else BlockTail(setup, [], ids)
    case CSync(_) => [Event(false, SYNC_OK)]
    case CDone(_) => []
    case CFailed => []
  }

  function ServerPosition(k: nat): nat {
    if k == 0 then 0 else if k < 3 then 1 else if k < 6 then k - 1 else 5
  }

  function LastBlocks(setup: Setup, id: string, left: nat): seq<seq<byte>> {
    var blocks := BlocksOf(setup, id);
    if left <= |blocks| then blocks[|blocks| - left..] else []
  }

  /** What is left of the script for the server. */
  function ServerRest(setup: Setup, s: Server, marks: SyncMap, newMsgs: Option<seq<Message>>): seq<Event> {
    match s
    case SGreet(k) =>
      if k < 7 then FromGreeting(ServerPosition(k), FromMarks(setup, marks)) else AfterMarks(setup, marks)
    case SConfirm(k) =>
      if newMsgs.None? then []
      else if k == 0 then [Event(false, MESSAGES_OK)] + Confirmed(setup, newMsgs.value)
      else Confirmed(setup, newMsgs.value)
    case SCount(ids) => BlobEvents(setup, ids)
    case SBlock(ids, left, k) =>
      if ids == [] || left == 0 then []
      else if k == 0 then BlockTail(setup, LastBlocks(setup, ids[0], left), ids)
      else if k == 1 then DropFirst(BlockTail(setup, LastBlocks(setup, ids[0], left), ids))
      else BlockTail(setup, LastBlocks(setup, ids[0], left - 1), ids)
    case SBlobOK(ids, k) =>
      if ids == [] then [] else if k == 0 then BlockTail(setup, [], ids) else BlobEvents(setup, ids[1..])
    case SFinish(k) => if k < 2 then [Event(false, SYNC_OK)] else []
    case _ => []
  }

  // ---- Honest sessions ----

  predicate IDsOK(setup: Setup, ids: seq<string>) {
    forall i :: 0 <= i < |ids| ==> ids[i] in setup.source && Blobs.Countable(setup.source[ids[i]])
  }

  predicate BatchOK(setup: Setup, batch: seq<Message>) {
    AllValid(setup, batch) && IDsOK(setup, BlobIDs(batch)) && setup.fits(IDs(BlobIDs(batch)))
  }

  /** The client has the right key and is a member, its log is properly signed, and it has the blobs of its messages. */
  ghost predicate Trusted(setup: Setup) {
    && setup.provesKey && setup.admitted
    && AllValid(setup, setup.log)
    && forall m :: m in setup.log && m.content.blob.Some? ==>
         m.content.blob.value in setup.source && Blobs.Countable(setup.source[m.content.blob.value])
  }

  /** The blobs that these marks ask for can be listed in one frame. */
  predicate IDsFit(setup: Setup, marks: SyncMap) {
    setup.fits(IDs(BlobIDs(Newer(marks, setup.log))))
  }

  /** The server lets the client in, and the batch that these marks ask for, if they lead to one, gives no offence. */
  predicate Honest(setup: Setup, marks: SyncMap) {
    var batch := Newer(marks, setup.log);
    && setup.provesKey && setup.admitted
    && (setup.fits(Marks(marks)) && setup.fits(Batch(batch)) ==> BatchOK(setup, batch))
  }

  lemma TrustedIsHonest(setup: Setup, marks: SyncMap)
    requires Trusted(setup) && IDsFit(setup, marks)
    ensures Honest(setup, marks)
  {
    var batch := Newer(marks, setup.log);
    NewerMembers(marks, setup.log);
    forall i | 0 <= i < |BlobIDs(batch)|
      ensures BlobIDs(batch)[i] in setup.source && Blobs.Countable(setup.source[BlobIDs(batch)[i]])
    {
      BlobIDsAreThoseOfMessages(batch, BlobIDs(batch)[i]);
      assert BlobIDs(batch)[i] in BlobIDs(batch);
      var m :| m in batch && m.content.blob == Some(BlobIDs(batch)[i]);
      assert m in setup.log;
    }
  }

  predicate ClientOK(setup: Setup, c: Client) {
    match c
    case CGreet(k) => k <= 7
    case CBatch(batch, k) => k <= 4 && (k >= 3 || setup.fits(Batch(batch)) ==> BatchOK(setup, batch))
    case CCount(_, ids, k) => k <= 1 && ids != [] && IDsOK(setup, ids)
    case CBlock(_, ids, blocks, k) => k <= 2 && ids != [] && IDsOK(setup, ids) && blocks != []
    case CBlobOK(_, ids) => ids != [] && IDsOK(setup, ids)
    case CSync(_) => true
    case CDone(_) => true
    case CFailed => false
  }

  predicate ServerOK(setup: Setup, s: Server, newMsgs: Option<seq<Message>>) {
    match s
    case SGreet(k) => k <= 8
    case SReject(_) => false
    case SConfirm(k) => k <= 2 && newMsgs.Some? && BatchOK(setup, newMsgs.value)
    case SCount(ids) => ids != [] && IDsOK(setup, ids)
    case SBlock(ids, left, k) => k <= 2 && ids != [] && IDsOK(setup, ids) && 0 < left <= |BlocksOf(setup, ids[0])|
    case SBlobOK(ids, k) => k <= 1 && ids != [] && IDsOK(setup, ids)
    case SFinish(k) => k <= 3
    case SClosed => true
  }

  // ---- Each side follows the script ----

  lemma ConfirmedSplit(setup: Setup, batch: seq<Message>)
    ensures var all := Confirmed(setup, batch);
            all != [] && all[0] == Event(true, IDs(BlobIDs(batch))) && all[1..] == BlobEvents(setup, BlobIDs(batch))
  {}

  lemma BlobEventsSplit(setup: Setup, ids: seq<string>)
    requires ids != []
    ensures BlobEvents(setup, ids)[0] == Event(true, CountOf(setup, ids[0]))
    ensures BlobEvents(setup, ids)[1..] == BlockTail(setup, BlocksOf(setup, ids[0]), ids)
  {}

  lemma BlockTailSplit(setup: Setup, blocks: seq<seq<byte>>, ids: seq<string>)
    requires ids != []
    ensures blocks == [] ==>
              BlockTail(setup, blocks, ids)[0] == Event(false, BLOB_OK)
              && BlockTail(setup, blocks, ids)[1..] == BlobEvents(setup, ids[1..])
    ensures blocks != [] ==>
              var t := BlockTail(setup, blocks, ids);
              && |t| >= 2 && t[0] == Event(true, Block(blocks[0])) && t[1] == Event(false, BLOCK_OK)
              && t[1..][1..] == t[2..] == BlockTail(setup, blocks[1..], ids)
  {
    if blocks != [] {
      var t := BlockTail(setup, blocks, ids);
      assert t == [Event(true, Block(blocks[0])), Event(false, BLOCK_OK)] + BlockTail(setup, blocks[1..], ids);
    }
  }

  /** The next thing the client does is the next thing in its script. */
  predicate ClientFollows(setup: Setup, c: Client, marks: SyncMap) {
    var rest := ClientRest(setup, c, marks);
    match ClientAct(setup, c)
    case Write(f, next) =>
      && ClientOK(setup, next)
      && if Written(setup, f)
         then rest != [] && rest[0] == Event(true, f) && ClientRest(setup, next, marks) == rest[1..]
         else rest == [] && ClientRest(setup, next, marks) == []
    case Flush(next) => ClientOK(setup, next) && ClientRest(setup, next, marks) == rest
    case Work(_) => false
    case Read =>
      rest == [] || (!rest[0].fromClient
                     && var next := ClientOn(setup, c, rest[0].frame);
                        ClientOK(setup, next) && ClientRest(setup, next, marks) == rest[1..])
    case Halt => rest == []
  }

  lemma GreetingClientFollows(setup: Setup, c: Client, marks: SyncMap)
    requires c.CGreet? && c.k < 7
    ensures ClientFollows(setup, c, marks)
  {
    GreetingSplit(ClientPosition(c.k), FromMarks(setup, marks));
  }

  lemma MarksClientFollows(setup: Setup, marks: SyncMap)
    requires Honest(setup, marks)
    ensures ClientFollows(setup, CGreet(7), marks)
  {
    assert FromMarks(setup, marks) != [] ==> FromMarks(setup, marks)[1..] == AfterMarks(setup, marks);
  }

  lemma BatchClientFollows(setup: Setup, c: Client, marks: SyncMap)
    requires c.CBatch? && c.k <= 2 && ClientOK(setup, c)
    ensures ClientFollows(setup, c, marks)
  {
    if setup.fits(Batch(c.batch)) {
      assert FromBatch(setup, c.batch)[1..] == [Event(false, MESSAGES_OK)] + Confirmed(setup, c.batch);
    }
  }

  lemma ListClientFollows(setup: Setup, c: Client, marks: SyncMap)
    requires c.CBatch? && c.k > 2 && ClientOK(setup, c)
    ensures ClientFollows(setup, c, marks)
  {
    ConfirmedSplit(setup, c.batch);
  }

  lemma CountClientFollows(setup: Setup, c: Client, marks: SyncMap)
    requires c.CCount? && ClientOK(setup, c)
    ensures ClientFollows(setup, c, marks)
  {
    BlobEventsSplit(setup, c.ids);
  }

  lemma BlockClientFollows(setup: Setup, c: Client, marks: SyncMap)
    requires c.CBlock? && ClientOK(setup, c)
    ensures ClientFollows(setup, c, marks)
  {
    BlockTailSplit(setup, c.blocks, c.ids);
  }

  lemma BlobOKClientFollows(setup: Setup, c: Client, marks: SyncMap)
    requires c.CBlobOK? && ClientOK(setup, c)
    ensures ClientFollows(setup, c, marks)
  {
    BlockTailSplit(setup, [], c.ids);
  }

  lemma ClientFollowsScript(setup: Setup, c: Client, marks: SyncMap)
    requires Honest(setup, marks) && ClientOK(setup, c)
    ensures ClientFollows(setup, c, marks)
  {
    match c
    case CGreet(k) =>
      if k == 7 {
        MarksClientFollows(setup, marks);
      } else {
        GreetingClientFollows(setup, c, marks);
      }
    case CBatch(_, k) =>
      if k <= 2 {
        BatchClientFollows(setup, c, marks);
      } else {
        ListClientFollows(setup, c, marks);
      }
    case CCount(_, _, _) => CountClientFollows(setup, c, marks);
    case CBlock(_, _, _, _) => BlockClientFollows(setup, c, marks);
    case CBlobOK(_, _) => BlobOKClientFollows(setup, c, marks);
    case _ =>
  }

  /** What the server has of the batch after reading f. */
  function MsgsAfter(s: Server, newMsgs: Option<seq<Message>>, f: Frame): Option<seq<Message>> {
    if s == SGreet(8) then Some(if f.Batch? then f.msgs else []) else newMsgs
  }

  /** The next thing the server does is the next thing in its script. */
  predicate ServerFollows(setup: Setup, s: Server, marks: SyncMap, newMsgs: Option<seq<Message>>) {
    var rest := ServerRest(setup, s, marks, newMsgs);
    match ServerAct(s, marks)
    case Write(f, next) =>
      && ServerOK(setup, next, newMsgs)
      && if Written(setup, f)
         then rest != [] && rest[0] == Event(false, f) && ServerRest(setup, next, marks, newMsgs) == rest[1..]
         else rest == [] && ServerRest(setup, next, marks, newMsgs) == []
    case Flush(next) => ServerOK(setup, next, newMsgs) && ServerRest(setup, next, marks, newMsgs) == rest
    case Work(next) => ServerOK(setup, next, newMsgs) && ServerRest(setup, next, marks, newMsgs) == rest
    case Read =>
      rest == [] || (rest[0].fromClient
                     && var next, msgs := ServerOn(setup, s, rest[0].frame), MsgsAfter(s, newMsgs, rest[0].frame);
                        ServerOK(setup, next, msgs) && ServerRest(setup, next, marks, msgs) == rest[1..])
    case Halt => rest == []
  }

  lemma GreetingServerFollows(setup: Setup, s: Server, marks: SyncMap, newMsgs: Option<seq<Message>>)
    requires setup.provesKey && setup.admitted
    requires s.SGreet? && s.k < 6
    ensures ServerFollows(setup, s, marks, newMsgs)
  {
    GreetingSplit(ServerPosition(s.k), FromMarks(setup, marks));
  }

  lemma MarksServerFollows(setup: Setup, s: Server, marks: SyncMap, newMsgs: Option<seq<Message>>)
    requires s == SGreet(6) || s == SGreet(7)
    ensures ServerFollows(setup, s, marks, newMsgs)
  {
    assert FromMarks(setup, marks) != [] ==> FromMarks(setup, marks)[1..] == AfterMarks(setup, marks);
  }

  lemma BatchServerFollows(setup: Setup, marks: SyncMap, newMsgs: Option<seq<Message>>)
    requires Honest(setup, marks)
    ensures ServerFollows(setup, SGreet(8), marks, newMsgs)
  {
    var batch := Newer(marks, setup.log);
    if setup.fits(Batch(batch)) {
      assert FromBatch(setup, batch)[1..] == [Event(false, MESSAGES_OK)] + Confirmed(setup, batch);
    }
  }

  lemma CountIsRead(setup: Setup, id: string)
    requires id in setup.source && Blobs.Countable(setup.source[id])
    ensures var word := Raw(setup, CountOf(setup, id));
            |word| == 4 && Framing.BytesToInt(word) == |BlocksOf(setup, id)|
  {
    Blobs.CountHeadsBlob(setup.source[id]);
  }

  lemma CountServerFollows(setup: Setup, s: Server, marks: SyncMap, newMsgs: Option<seq<Message>>)
    requires s.SCount? && ServerOK(setup, s, newMsgs)
    ensures ServerFollows(setup, s, marks, newMsgs)
  {
    BlobEventsSplit(setup, s.ids);
    CountIsRead(setup, s.ids[0]);
    var blocks := BlocksOf(setup, s.ids[0]);
    assert blocks[|blocks| - |blocks|..] == blocks;
  }

  lemma BlobServerFollows(setup: Setup, s: Server, marks: SyncMap, newMsgs: Option<seq<Message>>)
    requires s.SBlobOK? && ServerOK(setup, s, newMsgs)
    ensures ServerFollows(setup, s, marks, newMsgs)
  {
    BlockTailSplit(setup, [], s.ids);
  }

  lemma BlockReadFollows(setup: Setup, s: Server, marks: SyncMap, newMsgs: Option<seq<Message>>)
    requires s.SBlock? && s.k == 0 && ServerOK(setup, s, newMsgs)
    ensures ServerFollows(setup, s, marks, newMsgs)
  {
    BlockTailSplit(setup, LastBlocks(setup, s.ids[0], s.left), s.ids);
  }

  lemma BlockServerFollows(setup: Setup, s: Server, marks: SyncMap, newMsgs: Option<seq<Message>>)
    requires s.SBlock? && s.k != 0 && ServerOK(setup, s, newMsgs)
    ensures ServerFollows(setup, s, marks, newMsgs)
  {
    var blocks := LastBlocks(setup, s.ids[0], s.left);
    BlockTailSplit(setup, blocks, s.ids);
    assert blocks[1..] == LastBlocks(setup, s.ids[0], s.left - 1);
  }

  lemma ConfirmServerFollows(setup: Setup, s: Server, marks: SyncMap, newMsgs: Option<seq<Message>>)
    requires s.SConfirm? && s.k < 2 && ServerOK(setup, s, newMsgs)
    ensures ServerFollows(setup, s, marks, newMsgs)
  {}

  lemma FirstBlobNext(setup: Setup, ids: seq<string>, marks: SyncMap, newMsgs: Option<seq<Message>>)
    requires IDsOK(setup, ids)
    ensures ServerOK(setup, NextIDs(ids), newMsgs)
    ensures ServerRest(setup, NextIDs(ids), marks, newMsgs) == BlobEvents(setup, ids)
  {}

  lemma ListServerFollows(setup: Setup, s: Server, marks: SyncMap, newMsgs: Option<seq<Message>>)
    requires s.SConfirm? && s.k >= 2 && ServerOK(setup, s, newMsgs)
    ensures ServerFollows(setup, s, marks, newMsgs)
  {
    ConfirmedSplit(setup, newMsgs.value);
    FirstBlobNext(setup, BlobIDs(newMsgs.value), marks, newMsgs);
    assert ServerOn(setup, s, IDs(BlobIDs(newMsgs.value))) == NextIDs(BlobIDs(newMsgs.value));
    assert ServerRest(setup, s, marks, newMsgs) == Confirmed(setup, newMsgs.value);
  }

  lemma LastServerFollows(setup: Setup, s: Server, marks: SyncMap, newMsgs: Option<seq<Message>>)
    requires (s.SFinish? || s.SClosed?) && ServerOK(setup, s, newMsgs)
    ensures ServerFollows(setup, s, marks, newMsgs)
  {}

  lemma ServerFollowsScript(setup: Setup, s: Server, marks: SyncMap, newMsgs: Option<seq<Message>>)
    requires Honest(setup, marks) && ServerOK(setup, s, newMsgs)
    ensures ServerFollows(setup, s, marks, newMsgs)
  {
    match s
    case SGreet(k) =>
      if k < 6 {
        GreetingServerFollows(setup, s, marks, newMsgs);
      } else if k < 8 {
        MarksServerFollows(setup, s, marks, newMsgs);
      } else {
        BatchServerFollows(setup, marks, newMsgs);
      }
    case SCount(_) => CountServerFollows(setup, s, marks, newMsgs);
    case SBlock(_, _, k) =>
      if k == 0 {
        BlockReadFollows(setup, s, marks, newMsgs);
      } else {
        BlockServerFollows(setup, s, marks, newMsgs);
      }
    case SConfirm(k) =>
      if k < 2 {
        ConfirmServerFollows(setup, s, marks, newMsgs);
      } else {
        ListServerFollows(setup, s, marks, newMsgs);
      }
    case SBlobOK(_, _) => BlobServerFollows(setup, s, marks, newMsgs);
    case _ => LastServerFollows(setup, s, marks, newMsgs);
  }
}
