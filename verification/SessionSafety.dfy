/** What holds in every run of a session, however it is disturbed: a client that succeeds has been heard. */
module SessionSafety {
  import opened Sequences
  import opened Messages
  import opened SyncState
  import opened RoomModel
  import opened Sessions

  predicate InChan(ch: Chan, f: Frame) {
    f in ch.buf || f in ch.wire
  }

  function BatchOf(c: Client): Option<seq<Message>> {
    if c.CGreet? || c.CFailed? then None else Some(c.batch)
  }

  /** The client has read the confirmation of its batch. */
  predicate PastConfirm(c: Client) {
    !c.CGreet? && !c.CFailed? && (c.CBatch? ==> c.k > 2)
  }

  // ---- The server pushes at most once, and only what it checked ----

  predicate Checked(setup: Setup, st: Session) {
    st.newMsgs.Some? && AllValid(setup, st.newMsgs.value)
  }

  predicate ServerInv(setup: Setup, st: Session) {
    && (match st.server
        case SGreet(k) => k <= 8 && st.newMsgs == None && st.pushes == []
        case SReject(_) => st.pushes == []
        case SFinish(k) => Checked(setup, st) && st.pushes == if k == 0 then [] else [st.newMsgs.value]
        case SClosed => st.pushes == [] || (Checked(setup, st) && st.pushes == [st.newMsgs.value])
        case _ => Checked(setup, st) && st.pushes == [])
    && (InChan(st.down, SYNC_OK) ==> st.pushes != [])
    && (InChan(st.down, MESSAGES_OK) ==> st.newMsgs.Some?)
  }

  // ---- What is under way to the server before it has the batch ----

  /** All that the client has written until it waits for the confirmation of its batch. */
  function SentUp(setup: Setup, c: Client): seq<Frame> {
    match c
    case CGreet(k) =>
      if k < 2 then [] else if k == 2 then [Fingerprint] else if k < 5 then [Fingerprint, Signature]
      else [Fingerprint, Signature, RoomID]
    case CBatch(batch, k) =>
      [Fingerprint, Signature, RoomID] + if k > 0 && Written(setup, Batch(batch)) then [Batch(batch)] else []
    case _ => []
  }

  /** How many frames the server has read. */
  function ReadBy(s: Server): nat {
    if !s.SGreet? || s.k < 3 then 0 else if s.k == 3 then 1 else if s.k == 4 then 2 else 3
  }

  predicate UpstreamInv(setup: Setup, st: Session) {
    st.server.SGreet? && !st.client.CFailed? ==>
      var sent, n := SentUp(setup, st.client), ReadBy(st.server);
      && n <= |sent|
      && Out(st.up) <= sent[n..]
      && (!st.cut ==> Out(st.up) == sent[n..])
  }

  // ---- Both sides mean the same batch ----

  /** The server's messages are the client's batch, unless the client cannot learn that they were confirmed. */
  predicate AgreedInv(setup: Setup, st: Session) {
    st.newMsgs.Some? ==>
      || st.client.CFailed?
      || (BatchOf(st.client) == st.newMsgs && Written(setup, Batch(st.newMsgs.value)))
      || (st.cut && MESSAGES_OK !in st.down.wire && !PastConfirm(st.client))
  }

  predicate SafetyInv(setup: Setup, st: Session) {
    && ServerInv(setup, st)
    && UpstreamInv(setup, st)
    && AgreedInv(setup, st)
    && (PastConfirm(st.client) ==> st.newMsgs.Some?)
    && (st.client.CDone? ==> st.pushes != [])
    && (st.cut ==> st.up.buf == [] && st.down.buf == [])
  }

  /** What one move of the client adds to what it has sent. */
  lemma SentAfterWrite(setup: Setup, c: Client)
    requires ClientAct(setup, c).Write? && !c.CFailed? && !PastConfirm(c)
    ensures var act := ClientAct(setup, c);
            SentUp(setup, act.next) == SentUp(setup, c) + if Written(setup, act.f) then [act.f] else []
  {}

  lemma SentAfterRead(setup: Setup, c: Client, f: Frame)
    requires ClientAct(setup, c).Read? && !PastConfirm(c) && f != MESSAGES_OK
    ensures var next := ClientOn(setup, c, f);
            next.CFailed? || (!PastConfirm(next) && SentUp(setup, next) == SentUp(setup, c))
  {}

  lemma SentAfterFlush(setup: Setup, c: Client)
    requires ClientAct(setup, c).Flush? && !PastConfirm(c) && !c.CFailed?
    ensures !PastConfirm(ClientAct(setup, c).next) && SentUp(setup, ClientAct(setup, c).next) == SentUp(setup, c)
  {}

  lemma ClientReadKeepsAgreed(setup: Setup, st: Session)
    requires SafetyInv(setup, st) && ClientCanMove(setup, st) && ClientAct(setup, st.client).Read?
    ensures var w := ClientMove(setup, st);
            && AgreedInv(setup, w)
            && (PastConfirm(w.client) ==> w.newMsgs.Some?) && (w.client.CDone? ==> w.pushes != [])
  {}

  lemma ClientMoveKeepsSafety(setup: Setup, st: Session)
    requires SafetyInv(setup, st) && ClientCanMove(setup, st)
    ensures SafetyInv(setup, ClientMove(setup, st))
  {
    if ClientAct(setup, st.client).Read? {
      ClientReadKeepsAgreed(setup, st);
    }
    if st.server.SGreet? && !st.client.CFailed? {
      ClientMoveUpstream(setup, st);
    }
  }

  lemma ClientMoveUpstream(setup: Setup, st: Session)
    requires UpstreamInv(setup, st) && ClientCanMove(setup, st)
    requires st.server.SGreet? && !st.client.CFailed? && !PastConfirm(st.client) && !InChan(st.down, MESSAGES_OK)
    requires st.cut ==> st.up.buf == []
    ensures UpstreamInv(setup, ClientMove(setup, st))
  {
    match ClientAct(setup, st.client)
    case Write(f, next) =>
      SentAfterWrite(setup, st.client);
      OneFrameMore(st.up, SentUp(setup, st.client), ReadBy(st.server), f);
    case Flush(_) => SentAfterFlush(setup, st.client);
    case Read =>
      if st.down.wire != [] {
        assert InChan(st.down, st.down.wire[0]);
        SentAfterRead(setup, st.client, st.down.wire[0]);
      }
    case _ =>
  }

  lemma OneFrameMore(ch: Chan, sent: seq<Frame>, n: nat, f: Frame)
    requires n <= |sent|
    ensures Out(ch) == sent[n..] ==> ch.wire + (ch.buf + [f]) == (sent + [f])[n..]
    ensures Out(ch) <= sent[n..] ==> Out(ch) <= (sent + [f])[n..]
  {
    assert (sent + [f])[n..] == sent[n..] + [f];
  }

  lemma ServerMoveKeepsSafety(setup: Setup, st: Session)
    requires SafetyInv(setup, st) && ServerCanMove(st)
    ensures SafetyInv(setup, ServerMove(setup, st))
  {
    ServerMoveUpstream(setup, st);
    ServerMoveServerInv(setup, st);
    ServerMoveAgreed(setup, st);
  }

  lemma ServerReadKeepsServerInv(setup: Setup, st: Session)
    requires ServerInv(setup, st) && ServerCanMove(st) && ServerAct(st.server, st.room.sync).Read?
    ensures ServerInv(setup, ServerMove(setup, st))
  {}

  lemma ServerMoveServerInv(setup: Setup, st: Session)
    requires ServerInv(setup, st) && ServerCanMove(st)
    ensures ServerInv(setup, ServerMove(setup, st))
  {
    if ServerAct(st.server, st.room.sync).Read? {
      ServerReadKeepsServerInv(setup, st);
    }
  }

  /** Only a read moves the server on in what it has read. */
  lemma ReadByAfter(s: Server, sync: SyncMap)
    ensures match ServerAct(s, sync)
            case Write(_, next) => next.SGreet? ==> s.SGreet? && ReadBy(next) == ReadBy(s)
            case Flush(next) => next.SGreet? ==> s.SGreet? && ReadBy(next) == ReadBy(s)
            case Work(next) => !next.SGreet?
            case _ => true
  {}

  lemma ServerMoveUpstream(setup: Setup, st: Session)
    requires UpstreamInv(setup, st) && ServerCanMove(st)
    requires st.server.SGreet? ==> st.server.k <= 8
    ensures UpstreamInv(setup, ServerMove(setup, st))
  {
    if ServerAct(st.server, st.room.sync).Read? {
      ServerReadUpstream(setup, st);
    } else {
      ReadByAfter(st.server, st.room.sync);
    }
  }

  lemma ServerReadUpstream(setup: Setup, st: Session)
    requires UpstreamInv(setup, st) && ServerCanMove(st) && ServerAct(st.server, st.room.sync).Read?
    requires st.server.SGreet? ==> st.server.k <= 8
    ensures UpstreamInv(setup, ServerMove(setup, st))
  {
    var w := ServerMove(setup, st);
    if w.server.SGreet? && !w.client.CFailed? {
      OneFrameLess(st.up, SentUp(setup, st.client), ReadBy(st.server));
      assert ReadBy(w.server) == ReadBy(st.server) + 1;
    }
  }

  lemma OneFrameLess(ch: Chan, sent: seq<Frame>, n: nat)
    requires ch.wire != [] && n <= |sent| && Out(ch) <= sent[n..]
    ensures var rest := ch.wire[1..] + ch.buf;
            && n + 1 <= |sent| && rest <= sent[n + 1..]
            && (Out(ch) == sent[n..] ==> rest == sent[n + 1..])
  {
    assert Out(ch)[1..] == ch.wire[1..] + ch.buf;
    assert sent[n..][1..] == sent[n + 1..];
  }

  /** The fourth frame that the server reads is the batch. */
  lemma ServerMoveAgreed(setup: Setup, st: Session)
    requires SafetyInv(setup, st) && ServerCanMove(st)
    ensures AgreedInv(setup, ServerMove(setup, st))
  {
    if st.server == SGreet(8) && st.up.wire != [] && !st.client.CFailed? {
      var sent := SentUp(setup, st.client);
      assert st.up.wire[0] == (Out(st.up))[0] == sent[3..][0] == sent[3];
    }
  }

  lemma StepKeepsSafety(setup: Setup, st: Session, step: Step)
    requires SafetyInv(setup, st) && Enabled(setup, st, step)
    ensures SafetyInv(setup, After(setup, st, step))
  {
    match step
    case ClientMoves => ClientMoveKeepsSafety(setup, st);
    case ServerMoves => ServerMoveKeepsSafety(setup, st);
    case SpillUp =>
      assert Out(Spilled(st.up)) == Out(st.up);
    case SpillDown =>
    case Cut(u, d) =>
      assert st.up.wire[..u] <= Out(st.up);
    case _ =>
  }

  lemma {:induction false} RunKeepsSafety(setup: Setup, sts: seq<Session>, steps: seq<Step>, k: nat)
    requires Run(setup, sts, steps) && k < |sts|
    ensures SafetyInv(setup, sts[k])
  {
    if k > 0 {
      RunKeepsSafety(setup, sts, steps, k - 1);
      StepKeepsSafety(setup, sts[k - 1], steps[k - 1]);
    }
  }

  /**
   In every run, with losses at any point, a client that succeeds with a batch
   knows that the server has pushed exactly this batch, once, with every
   signature in it valid. A server that pushes does so at most once in any case.
   */
  lemma SuccessMeansPushed(setup: Setup, sts: seq<Session>, steps: seq<Step>, k: nat)
    requires Run(setup, sts, steps) && k < |sts|
    ensures sts[k].client.CDone? ==> sts[k].pushes == [sts[k].client.batch]
    ensures |sts[k].pushes| <= 1
    ensures forall i, m :: 0 <= i < |sts[k].pushes| && m in sts[k].pushes[i] ==>
              forall r :: r in ReplyChain(m) ==> SignedBySender(setup.verify, r)
  {
    RunKeepsSafety(setup, sts, steps, k);
    forall i, m | 0 <= i < |sts[k].pushes| && m in sts[k].pushes[i]
      ensures forall r :: r in ReplyChain(m) ==> SignedBySender(setup.verify, r)
    {
      assert sts[k].pushes[i] == sts[k].newMsgs.value;
      SigIsValidAtEveryLevel(setup.verify, m);
    }
  }

  /** One message that fails the check keeps the whole batch out. */
  lemma InvalidMessageBlocksBatch(setup: Setup, sts: seq<Session>, steps: seq<Step>, k: nat, m: Message)
    requires Run(setup, sts, steps) && k < |sts| && sts[k].newMsgs.Some?
    requires m in sts[k].newMsgs.value && !SigIsValid(setup.verify, m)
    ensures sts[k].pushes == [] && !sts[k].client.CDone?
  {
    RunKeepsSafety(setup, sts, steps, k);
  }

  // ---- What the server has pushed stays covered by its marks ----

  predicate Covers(sync: SyncMap, msgs: seq<Message>) {
    forall m :: m in msgs ==> m.sender in sync && m.time <= sync[m.sender]
  }

  lemma PushCovers(r: RoomState, batch: seq<Message>)
    requires Ordered(batch)
    ensures Covers(Push(r, batch).sync, batch)
  {
    NewerIsOrdered(r.sync, batch);
    OrderedBatchIsCovered(r.sync, Newer(r.sync, batch));
    NewerMembers(r.sync, batch);
    PushNeverGoesBack(r, batch);
  }

  ghost predicate CoverInv(st: Session) {
    forall i :: 0 <= i < |st.pushes| && Ordered(st.pushes[i]) ==> Covers(st.room.sync, st.pushes[i])
  }

  lemma StepKeepsCovered(setup: Setup, st: Session, step: Step)
    requires CoverInv(st) && Enabled(setup, st, step)
    ensures CoverInv(After(setup, st, step))
  {
    var w := After(setup, st, step);
    if step.OtherPush? {
      PushNeverGoesBack(st.room, step.batch);
    } else if w.pushes != st.pushes {
      PushNeverGoesBack(st.room, st.newMsgs.value);
      if Ordered(st.newMsgs.value) {
        PushCovers(st.room, st.newMsgs.value);
      }
    }
  }

  lemma {:induction false} RunKeepsCovered(setup: Setup, sts: seq<Session>, steps: seq<Step>, k: nat)
    requires Run(setup, sts, steps) && k < |sts|
    ensures CoverInv(sts[k])
  {
    if k > 0 {
      RunKeepsCovered(setup, sts, steps, k - 1);
      StepKeepsCovered(setup, sts[k - 1], steps[k - 1]);
    }
  }

  // ---- Success needs every frame to fit ----

  /** The batch is what these marks, which fit, ask for. */
  predicate ChosenBy(setup: Setup, marks: Option<SyncMap>, batch: seq<Message>) {
    marks.Some? && setup.fits(Marks(marks.value)) && batch == Newer(marks.value, setup.log)
  }

  predicate AnnouncedFits(setup: Setup, c: Client) {
    BatchOf(c).Some? && Written(setup, IDs(BlobIDs(BatchOf(c).value)))
  }

  /** The client has had the confirmation of a blob. */
  predicate SomeBlobDone(c: Client) {
    match c
    case CCount(batch, ids, _) => ids != BlobIDs(batch)
    case CBlock(batch, ids, _, _) => ids != BlobIDs(batch)
    case CBlobOK(batch, ids) => ids != BlobIDs(batch)
    case CSync(batch) => BlobIDs(batch) != []
    case CDone(batch) => BlobIDs(batch) != []
    case _ => false
  }

  /** The server writes its marks once; they fit if they are under way, and if the client picked its batch by them. */
  ghost predicate MarksInv(setup: Setup, st: Session) {
    && (st.marks.Some? ==> !(st.server.SGreet? && st.server.k <= 6))
    && (forall f :: InChan(st.down, f) && f.Marks? ==> st.marks == Some(f.sync) && setup.fits(f))
    && (BatchOf(st.client).Some? ==> ChosenBy(setup, st.marks, BatchOf(st.client).value))
  }

  lemma MarksStay(setup: Setup, st: Session, step: Step)
    requires MarksInv(setup, st) && Enabled(setup, st, step)
    ensures st.marks.Some? ==> After(setup, st, step).marks == st.marks
  {}

  /** Lists of blobs that are under way fit, and whatever the server does about a blob follows from such a list. */
  ghost predicate BlobsInv(setup: Setup, st: Session) {
    || st.client.CFailed?
    || ((forall f :: InChan(st.up, f) && f.IDs? ==> AnnouncedFits(setup, st.client))
        && (st.server.SCount? || st.server.SBlock? || st.server.SBlobOK? || InChan(st.down, BLOB_OK)
            ==> AnnouncedFits(setup, st.client))
        && (SomeBlobDone(st.client) ==> AnnouncedFits(setup, st.client)))
  }

  lemma BatchAfterRead(setup: Setup, c: Client, f: Frame)
    requires ClientAct(setup, c).Read?
    ensures var next := ClientOn(setup, c, f);
            || next.CFailed?
            || (BatchOf(next) == BatchOf(c) && (SomeBlobDone(next) ==> SomeBlobDone(c) || f == BLOB_OK))
            || (c.CGreet? && f.Marks? && next == CBatch(Newer(f.sync, setup.log), 0))
            || (c.CGreet? && next.CGreet?)
  {}

  lemma BatchAfterAct(setup: Setup, c: Client)
    requires ClientAct(setup, c).Write? || ClientAct(setup, c).Flush?
    ensures var act := ClientAct(setup, c);
            && BatchOf(act.next) == BatchOf(c) && !act.next.CFailed?
            && (SomeBlobDone(act.next) ==> SomeBlobDone(c))
            && (act.Write? && act.f.IDs? ==> BatchOf(c).Some? && act.f == IDs(BlobIDs(BatchOf(c).value)))
  {}

  lemma ClientReadKeepsSizes(setup: Setup, st: Session)
    requires MarksInv(setup, st) && BlobsInv(setup, st) && ClientCanMove(setup, st)
    requires ClientAct(setup, st.client).Read? && st.down.wire != []
    ensures MarksInv(setup, ClientMove(setup, st)) && BlobsInv(setup, ClientMove(setup, st))
  {
    assert InChan(st.down, st.down.wire[0]);
    BatchAfterRead(setup, st.client, st.down.wire[0]);
  }

  lemma ClientActKeepsSizes(setup: Setup, st: Session)
    requires MarksInv(setup, st) && BlobsInv(setup, st) && ClientCanMove(setup, st)
    requires Owes(ClientAct(setup, st.client))
    ensures MarksInv(setup, ClientMove(setup, st)) && BlobsInv(setup, ClientMove(setup, st))
  {
    BatchAfterAct(setup, st.client);
  }

  lemma ClientMoveKeepsSizes(setup: Setup, st: Session)
    requires MarksInv(setup, st) && BlobsInv(setup, st) && ClientCanMove(setup, st)
    ensures MarksInv(setup, ClientMove(setup, st)) && BlobsInv(setup, ClientMove(setup, st))
  {
    if Owes(ClientAct(setup, st.client)) {
      ClientActKeepsSizes(setup, st);
    } else if ClientAct(setup, st.client).Read? && st.down.wire != [] {
      ClientReadKeepsSizes(setup, st);
    }
  }

  lemma ServerReadKeepsSizes(setup: Setup, st: Session)
    requires MarksInv(setup, st) && BlobsInv(setup, st)
    requires ServerCanMove(st) && ServerAct(st.server, st.room.sync).Read?
    ensures MarksInv(setup, ServerMove(setup, st)) && BlobsInv(setup, ServerMove(setup, st))
  {
    if st.up.wire != [] {
      assert InChan(st.up, st.up.wire[0]);
    }
  }

  lemma ServerActKeepsMarks(setup: Setup, st: Session)
    requires MarksInv(setup, st) && ServerCanMove(st) && Owes(ServerAct(st.server, st.room.sync))
    ensures MarksInv(setup, ServerMove(setup, st))
  {}

  lemma ServerActKeepsBlobs(setup: Setup, st: Session)
    requires BlobsInv(setup, st) && ServerCanMove(st) && Owes(ServerAct(st.server, st.room.sync))
    ensures BlobsInv(setup, ServerMove(setup, st))
  {}

  lemma ServerMoveKeepsSizes(setup: Setup, st: Session)
    requires MarksInv(setup, st) && BlobsInv(setup, st) && ServerCanMove(st)
    ensures MarksInv(setup, ServerMove(setup, st)) && BlobsInv(setup, ServerMove(setup, st))
  {
    if ServerAct(st.server, st.room.sync).Read? {
      ServerReadKeepsSizes(setup, st);
    } else if Owes(ServerAct(st.server, st.room.sync)) {
      ServerActKeepsMarks(setup, st);
      ServerActKeepsBlobs(setup, st);
    }
  }

  lemma StepKeepsSizes(setup: Setup, st: Session, step: Step)
    requires MarksInv(setup, st) && BlobsInv(setup, st) && Enabled(setup, st, step)
    ensures MarksInv(setup, After(setup, st, step)) && BlobsInv(setup, After(setup, st, step))
  {
    match step
    case ClientMoves => ClientMoveKeepsSizes(setup, st);
    case ServerMoves => ServerMoveKeepsSizes(setup, st);
    case _ =>
  }

  lemma {:induction false} RunKeepsSizes(setup: Setup, sts: seq<Session>, steps: seq<Step>, k: nat)
    requires Run(setup, sts, steps) && k < |sts|
    ensures MarksInv(setup, sts[k]) && BlobsInv(setup, sts[k])
  {
    if k > 0 {
      RunKeepsSizes(setup, sts, steps, k - 1);
      StepKeepsSizes(setup, sts[k - 1], steps[k - 1]);
    }
  }

  /** A client succeeds only if the marks, the batch and the list of blobs all fit a frame. */
  lemma SuccessNeedsFittingFrames(setup: Setup, sts: seq<Session>, steps: seq<Step>, k: nat)
    requires Run(setup, sts, steps) && k < |sts| && sts[k].client.CDone? && setup.fits(IDs([]))
    ensures var batch := sts[k].client.batch;
            && ChosenBy(setup, sts[k].marks, batch)
            && setup.fits(Batch(batch)) && setup.fits(IDs(BlobIDs(batch)))
  {
    RunKeepsSafety(setup, sts, steps, k);
    RunKeepsSizes(setup, sts, steps, k);
  }

  // ---- Whatever is pushed is what the server's own marks asked for ----

  /**
   Batches under way are those asked for by the marks; the server has such a batch,
   or nothing that decodes as one.
   */
  ghost predicate ChosenInv(setup: Setup, st: Session) {
    && (forall f :: InChan(st.up, f) && f.Batch? ==> ChosenBy(setup, st.marks, f.msgs))
    && (st.newMsgs.Some? ==> st.newMsgs.value == [] || ChosenBy(setup, st.marks, st.newMsgs.value))
  }

  lemma ClientKeepsChosen(setup: Setup, st: Session)
    requires ChosenInv(setup, st) && MarksInv(setup, st) && ClientCanMove(setup, st)
    ensures ChosenInv(setup, ClientMove(setup, st))
  {
    if Owes(ClientAct(setup, st.client)) {
      BatchAfterAct(setup, st.client);
    }
  }

  lemma ServerReadKeepsChosen(setup: Setup, st: Session)
    requires ChosenInv(setup, st) && ServerCanMove(st) && ServerAct(st.server, st.room.sync).Read?
    ensures ChosenInv(setup, ServerMove(setup, st))
  {
    if st.up.wire != [] {
      assert InChan(st.up, st.up.wire[0]);
    }
  }

  lemma ServerKeepsChosen(setup: Setup, st: Session)
    requires ChosenInv(setup, st) && MarksInv(setup, st) && ServerCanMove(st)
    ensures ChosenInv(setup, ServerMove(setup, st))
  {
    MarksStay(setup, st, ServerMoves);
    if ServerAct(st.server, st.room.sync).Read? {
      ServerReadKeepsChosen(setup, st);
    }
  }

  lemma StepKeepsChosen(setup: Setup, st: Session, step: Step)
    requires ChosenInv(setup, st) && MarksInv(setup, st) && Enabled(setup, st, step)
    ensures ChosenInv(setup, After(setup, st, step))
  {
    match step
    case ClientMoves => ClientKeepsChosen(setup, st);
    case ServerMoves => ServerKeepsChosen(setup, st);
    case _ =>
  }

  lemma {:induction false} RunKeepsChosen(setup: Setup, sts: seq<Session>, steps: seq<Step>, k: nat)
    requires Run(setup, sts, steps) && k < |sts|
    ensures ChosenInv(setup, sts[k])
  {
    if k > 0 {
      RunKeepsChosen(setup, sts, steps, k - 1);
      RunKeepsSizes(setup, sts, steps, k - 1);
      StepKeepsChosen(setup, sts[k - 1], steps[k - 1]);
    }
  }

  /**
   Whether or not the client ever learns of it: what the server has pushed is
   the batch that its own marks asked for of the client's log, or nothing.
   */
  lemma PushedIsChosen(setup: Setup, sts: seq<Session>, steps: seq<Step>, k: nat)
    requires Run(setup, sts, steps) && k < |sts| && sts[k].pushes != []
    ensures |sts[k].pushes| == 1
    ensures sts[k].pushes[0] == [] || ChosenBy(setup, sts[k].marks, sts[k].pushes[0])
  {
    RunKeepsSafety(setup, sts, steps, k);
    RunKeepsChosen(setup, sts, steps, k);
  }

  /**
   From a push on, the server's marks cover the batch, whatever is pushed later
   and whether or not the client's sync succeeds, so none of it is picked for
   this server again.
   */
  lemma PushStaysCovered(setup: Setup, sts: seq<Session>, steps: seq<Step>, k: nat)
    requires Run(setup, sts, steps) && k < |sts| && sts[k].pushes != [] && Ordered(setup.log)
    ensures Covers(sts[k].room.sync, sts[k].pushes[0])
    ensures Newer(sts[k].room.sync, sts[k].pushes[0]) == []
  {
    PushedIsChosen(setup, sts, steps, k);
    RunKeepsCovered(setup, sts, steps, k);
    var batch := sts[k].pushes[0];
    if batch != [] {
      NewerIsOrdered(sts[k].marks.value, setup.log);
    }
    forall i | 0 <= i < |batch| ensures !Accepts(sts[k].room.sync, batch[i]) {
      assert batch[i] in batch;
    }
    FilterNone(AcceptedBy(sts[k].room.sync), batch);
  }
}
