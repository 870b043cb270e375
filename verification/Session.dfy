/**
 One sync session: the client and the server as two processes over a pair of
 channels, each with a write buffer that is flushed by hand. The connection may
 be cut at any moment, a full buffer may spill early, and other pushes may reach
 the server's room at any time.
 */
module Sessions {
  import opened Sequences
  import opened Base64Url
  import opened Messages
  import opened SyncState
  import opened RoomModel
  import Blobs
  import Framing
  import C = Commands

  datatype Frame =
    | Challenge | Fingerprint | Signature | RoomID
    | Reply(text: string)
    | Marks(sync: SyncMap)
    | Batch(msgs: seq<Message>)
    | IDs(ids: seq<string>)
    | Count(word: seq<byte>)
    | Block(data: seq<byte>)

  const AUTH_OK := Reply("auth_ok")
  const MESSAGES_OK := Reply("messages_ok")
  const BLOCK_OK := Reply("block_ok")
  const BLOB_OK := Reply("blob_ok")
  const SYNC_OK := Reply("sync_ok")
  const REJECTION := Reply("rejected")

  /**
   What does not change during a session: the client's log and blobs, whether the
   server accepts its key and lets it into the room, which frames are small
   enough to be written at all, and how a frame is encoded.
   */
  datatype Setup = Setup(
    log: seq<Message>, source: Blobs.Files, verify: Verifier,
    provesKey: bool, admitted: bool, fits: Frame -> bool, encode: Frame -> seq<byte>)

  /** The bytes that a frame carries. */
  function Raw(setup: Setup, f: Frame): seq<byte> {
    match f
    case Count(word) => word
    case Block(data) => data
    case _ => setup.encode(f)
  }

  /** Only marks, batches and identifier lists can grow too large; writing one that is too large does nothing. */
  predicate Written(setup: Setup, f: Frame) {
    f.Marks? || f.Batch? || f.IDs? ==> setup.fits(f)
  }

  /** The block counts of the client's files fit a word. */
  predicate CountableSource(setup: Setup) {
    forall id :: id in setup.source ==> Blobs.Countable(setup.source[id])
  }

  // ---- The client ----

  /** Where the client is; k counts the writes, flushes and reads of the stage. */
  datatype Client =
    | CGreet(k: nat)
    | CBatch(batch: seq<Message>, k: nat)
    | CCount(batch: seq<Message>, ids: seq<string>, k: nat)
    | CBlock(batch: seq<Message>, ids: seq<string>, blocks: seq<seq<byte>>, k: nat)
    | CBlobOK(batch: seq<Message>, ids: seq<string>)
    | CSync(batch: seq<Message>)
    | CDone(batch: seq<Message>)
    | CFailed

  datatype Act<P> = Write(f: Frame, next: P) | Flush(next: P) | Read | Work(next: P) | Halt

  function CountFrame(content: seq<byte>): Frame {
    Count(Framing.IntToBytes(Blobs.BlockCount(|content|)))
  }

  /** A side that has something to send, before it reads. */
  predicate Owes<P(!new)>(act: Act<P>) {
    act.Write? || act.Flush?
  }

  function NextBlob(batch: seq<Message>, ids: seq<string>): Client {
    if ids == [] then CSync(batch) else CCount(batch, ids, 0)
  }

  function NextBlock(batch: seq<Message>, ids: seq<string>, blocks: seq<seq<byte>>): Client {
    if blocks == [] then CBlobOK(batch, ids) else CBlock(batch, ids, blocks, 0)
  }

  function ClientAct(setup: Setup, c: Client): Act<Client> {
    match c
    case CGreet(k) =>
      if k == 1 then Write(Fingerprint, CGreet(2))
      else if k == 2 then Write(Signature, CGreet(3))
      else if k == 3 then Flush(CGreet(4))
      else if k == 4 then Write(RoomID, CGreet(5))
      else if k == 5 then Flush(CGreet(6))
      else Read
    case CBatch(batch, k) =>
      if k == 0 then Write(Batch(batch), CBatch(batch, 1))
      else if k == 1 then Flush(CBatch(batch, 2))
      else if k == 2 then Read
      else if k == 3 then Write(IDs(BlobIDs(batch)), CBatch(batch, 4))
      else Flush(NextBlob(batch, BlobIDs(batch)))
    case CCount(batch, ids, k) =>
      if ids == [] || ids[0] !in setup.source then Work(CFailed)
      else if k == 0 then Write(CountFrame(setup.source[ids[0]]), CCount(batch, ids, 1))
      else Flush(NextBlock(batch, ids, Blobs.Blocks(setup.source[ids[0]])))
    case CBlock(batch, ids, blocks, k) =>
      if k == 0 && blocks != [] then Write(Block(blocks[0]), CBlock(batch, ids, blocks, 1))
      else if k == 1 then Flush(CBlock(batch, ids, blocks, 2))
      else Read
    case CBlobOK(_, _) => Read
    case CSync(_) => Read
    case CDone(_) => Halt
    case CFailed => Halt
  }

  /** The client has read f. */
  function ClientOn(setup: Setup, c: Client, f: Frame): Client {
    match c
    case CGreet(k) =>
      if k == 0 then CGreet(1)
      else if k == 6 && f == AUTH_OK then CGreet(7)
      else if k == 7 && f.Marks? then CBatch(Newer(f.sync, setup.log), 0)
      else CFailed
    case CBatch(batch, k) => if f == MESSAGES_OK then CBatch(batch, 3) else CFailed
    case CBlock(batch, ids, blocks, k) =>
      if f == BLOCK_OK && blocks != [] then NextBlock(batch, ids, blocks[1..]) else CFailed
    case CBlobOK(batch, ids) => if f == BLOB_OK && ids != [] then NextBlob(batch, ids[1..]) else CFailed
    case CSync(batch) => if f == SYNC_OK then CDone(batch) else CFailed
    case _ => CFailed
  }

  // ---- The server ----

  datatype Server =
    | SGreet(k: nat)
    | SReject(k: nat)
    | SConfirm(k: nat)
    | SCount(ids: seq<string>)
    | SBlock(ids: seq<string>, left: nat, k: nat)
    | SBlobOK(ids: seq<string>, k: nat)
    | SFinish(k: nat)
    | SClosed

  function NextIDs(ids: seq<string>): Server {
    if ids == [] then SFinish(0) else SCount(ids)
  }

  function NextBlocks(ids: seq<string>, left: nat): Server {
    if left == 0 then SBlobOK(ids, 0) else SBlock(ids, left, 0)
  }

  function ServerAct(s: Server, sync: SyncMap): Act<Server> {
    match s
    case SGreet(k) =>
      if k == 0 then Write(Challenge, SGreet(1))
      else if k == 1 then Flush(SGreet(2))
      else if k == 5 then Write(AUTH_OK, SGreet(6))
      else if k == 6 then Write(Marks(sync), SGreet(7))
      else if k == 7 then Flush(SGreet(8))
      else Read
    case SReject(k) => if k == 0 then Write(REJECTION, SReject(1)) else Work(SClosed)
    case SConfirm(k) =>
      if k == 0 then Write(MESSAGES_OK, SConfirm(1))
      else if k == 1 then Flush(SConfirm(2))
      else Read
    case SCount(ids) => Read
    case SBlock(ids, left, k) =>
      if k == 0 then Read
      else if k == 1 then Write(BLOCK_OK, SBlock(ids, left, 2))
      else Flush(NextBlocks(ids, if left == 0 then 0 else left - 1))
    case SBlobOK(ids, k) =>
      if k == 0 then Write(BLOB_OK, SBlobOK(ids, 1))
      else Flush(if ids == [] then SFinish(0) else NextIDs(ids[1..]))
    case SFinish(k) =>
      if k == 0 then Work(SFinish(1))
      else if k == 1 then Write(SYNC_OK, SFinish(2))
      else if k == 2 then Flush(SFinish(3))
      else Work(SClosed)
    case SClosed => Halt
  }

  predicate AllValid(setup: Setup, msgs: seq<Message>) {
    forall m :: m in msgs ==> SigIsValid(setup.verify, m)
  }

  /** The batch has arrived, or something that does not decode as one, which leaves the list empty. */
  function AfterBatch(setup: Setup, msgs: seq<Message>): Server {
    if AllValid(setup, msgs) then SConfirm(0) else SReject(0)
  }

  /** The server has read f. */
  function ServerOn(setup: Setup, s: Server, f: Frame): Server {
    match s
    case SGreet(k) =>
      if k == 2 then SGreet(3)
      else if k == 3 then (if setup.provesKey then SGreet(4) else SReject(0))
      else if k == 4 then (if setup.admitted then SGreet(5) else SReject(0))
      else AfterBatch(setup, if f.Batch? then f.msgs else [])
    case SConfirm(k) => NextIDs(if f.IDs? then f.ids else [])
    case SCount(ids) =>
      if |Raw(setup, f)| >= 4 then NextBlocks(ids, Framing.BytesToInt(Raw(setup, f))) else SFinish(0)
    case SBlock(ids, left, k) => SBlock(ids, left, 1)
    case _ => SClosed
  }

  /** The server's read has failed: a failure among the blobs does not stop the push. */
  function ServerOnEOF(setup: Setup, s: Server): Server {
    match s
    case SGreet(k) =>
      if k == 2 || k == 3 then SReject(0)
      else if k == 4 then SClosed
      else AfterBatch(setup, [])
    case SConfirm(_) => SFinish(0)
    case SCount(_) => SFinish(0)
    case SBlock(_, _, _) => SFinish(0)
    case _ => SClosed
  }

  /**
   The blobs of the server once it has read f: a count creates the blob, and
   anything read where a block is due is appended.
   */
  function FilesOn(setup: Setup, s: Server, files: Blobs.Files, f: Frame): Blobs.Files {
    match s
    case SCount(ids) =>
      if ids != [] && |Raw(setup, f)| >= 4 then files[ids[0] := Blobs.Held(files, ids[0])] else files
    case SBlock(ids, _, _) =>
      if ids != [] then files[ids[0] := Blobs.Held(files, ids[0]) + Raw(setup, f)] else files
    case _ => files
  }

  /** The server's read has failed: the blob that it was writing is removed. */
  function FilesOnEOF(s: Server, files: Blobs.Files): Blobs.Files {
    if s.SBlock? && s.ids != [] then files - {s.ids[0]} else files
  }

  // ---- Both together ----

  datatype Chan = Chan(buf: seq<Frame>, wire: seq<Frame>)

  /** All that has been written to a channel and not read. */
  function Out(ch: Chan): seq<Frame> {
    ch.wire + ch.buf
  }

  datatype Session = Session(
    client: Client, server: Server, room: RoomState, files: Blobs.Files,
    marks: Option<SyncMap>, newMsgs: Option<seq<Message>>, pushes: seq<seq<Message>>,
    up: Chan, down: Chan, cut: bool)

  datatype Step =
    | ClientMoves | ServerMoves | SpillUp | SpillDown | Cut(u: nat, d: nat)
    | OtherPush(batch: seq<Message>) | OtherJoin(peer: C.Member)

  /** What others do to the server's room meanwhile. */
  predicate Outside(step: Step) {
    step.OtherPush? || step.OtherJoin?
  }

  function RoomAfterOutside(room: RoomState, step: Step): RoomState {
    match step
    case OtherPush(batch) => Push(room, batch)
    case OtherJoin(peer) => WithPeer(room, peer)
    case _ => room
  }

  predicate ClientHalted(c: Client) { c.CDone? || c.CFailed? }

  function Put(setup: Setup, ch: Chan, f: Frame, cut: bool): Chan {
    if cut || !Written(setup, f) then ch else ch.(buf := ch.buf + [f])
  }

  function Flushed(ch: Chan, cut: bool): Chan {
    if cut then ch.(buf := []) else Chan([], ch.wire + ch.buf)
  }

  predicate Spills(ch: Chan, cut: bool) {
    !cut && ch.buf != []
  }

  function Spilled(ch: Chan): Chan
    requires ch.buf != []
  {
    Chan(ch.buf[1..], ch.wire + [ch.buf[0]])
  }

  predicate ClientCanMove(setup: Setup, st: Session) {
    match ClientAct(setup, st.client)
    case Halt => false
    case Read => st.down.wire != [] || st.cut || st.server.SClosed?
    case _ => true
  }

  predicate ServerCanMove(st: Session) {
    match ServerAct(st.server, st.room.sync)
    case Halt => false
    case Read => st.up.wire != [] || st.cut || ClientHalted(st.client)
    case _ => true
  }

  predicate Enabled(setup: Setup, st: Session, step: Step) {
    match step
    case ClientMoves => ClientCanMove(setup, st)
    case ServerMoves => ServerCanMove(st)
    case SpillUp => Spills(st.up, st.cut) && !ClientHalted(st.client)
    case SpillDown => Spills(st.down, st.cut) && !st.server.SClosed?
    case Cut(u, d) => !st.cut && u <= |st.up.wire| && d <= |st.down.wire|
    case _ => true
  }

  function ClientMove(setup: Setup, st: Session): Session
    requires ClientCanMove(setup, st)
  {
    match ClientAct(setup, st.client)
    case Write(f, next) => st.(client := next, up := Put(setup, st.up, f, st.cut))
    case Flush(next) => st.(client := next, up := Flushed(st.up, st.cut))
    case Work(next) => st.(client := next)
    case Read =>
      if st.down.wire == [] then st.(client := CFailed)
      else st.(client := ClientOn(setup, st.client, st.down.wire[0]), down := st.down.(wire := st.down.wire[1..]))
    case Halt => st
  }

  function ServerMove(setup: Setup, st: Session): Session
    requires ServerCanMove(st)
  {
    match ServerAct(st.server, st.room.sync)
    case Write(f, next) =>
      st.(server := next, down := Put(setup, st.down, f, st.cut), marks := if f.Marks? then Some(f.sync) else st.marks)
    case Flush(next) => st.(server := next, down := Flushed(st.down, st.cut))
    case Work(next) =>
      if next == SFinish(1) && st.newMsgs.Some?
      then st.(server := next, room := Push(st.room, st.newMsgs.value), pushes := st.pushes + [st.newMsgs.value])
      else st.(server := next)
    case Read =>
      if st.up.wire == [] then
        st.(server := ServerOnEOF(setup, st.server), files := FilesOnEOF(st.server, st.files),
            newMsgs := if st.server == SGreet(8) then Some([]) else st.newMsgs)
      else
        var f := st.up.wire[0];
        st.(server := ServerOn(setup, st.server, f), up := st.up.(wire := st.up.wire[1..]),
            files := FilesOn(setup, st.server, st.files, f),
            newMsgs := if st.server == SGreet(8) then Some(if f.Batch? then f.msgs else []) else st.newMsgs)
    case Halt => st
  }

  function After(setup: Setup, st: Session, step: Step): Session
    requires Enabled(setup, st, step)
  {
    match step
    case ClientMoves => ClientMove(setup, st)
    case ServerMoves => ServerMove(setup, st)
    case SpillUp => st.(up := Spilled(st.up))
    case SpillDown => st.(down := Spilled(st.down))
    case Cut(u, d) => st.(cut := true, up := Chan([], st.up.wire[..u]), down := Chan([], st.down.wire[..d]))
    case _ => st.(room := RoomAfterOutside(st.room, step))
  }

  function Start(room: RoomState, files: Blobs.Files): Session {
    Session(CGreet(0), SGreet(0), room, files, None, None, [], Chan([], []), Chan([], []), false)
  }

  ghost predicate Run(setup: Setup, sts: seq<Session>, steps: seq<Step>) {
    && |sts| == |steps| + 1
    && sts[0] == Start(sts[0].room, sts[0].files)
    && forall k :: 0 <= k < |steps| ==> Enabled(setup, sts[k], steps[k]) && sts[k + 1] == After(setup, sts[k], steps[k])
  }
}
