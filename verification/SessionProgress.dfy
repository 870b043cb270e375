/**
 Without a cut, neither side of a session blocks on a read with unsent bytes of
 its own, what is under way is what the other side expects next, and the session
 runs to its end, or stops where a frame was too large to be written.
 */
module SessionProgress {
  import opened Sequences
  import opened Messages
  import opened SyncState
  import opened RoomModel
  import opened Sessions
  import opened SessionSafety
  import opened SessionScript
  import Blobs

  // ---- Flush before reading ----

  /** Only a side whose next move is a write or a flush has unsent bytes, and a server that has refused. */
  predicate BufferInv(setup: Setup, st: Session) {
    && (st.up.buf != [] ==> Owes(ClientAct(setup, st.client)))
    && (st.down.buf != [] ==>
          Owes(ServerAct(st.server, st.room.sync)) || st.server.SReject? || (st.server.SClosed? && st.pushes == []))
  }

  lemma ClientMoveKeepsBuffer(setup: Setup, st: Session)
    requires BufferInv(setup, st) && ClientCanMove(setup, st)
    ensures BufferInv(setup, ClientMove(setup, st))
  {}

  lemma ServerMoveKeepsBuffer(setup: Setup, st: Session)
    requires BufferInv(setup, st) && SafetyInv(setup, st) && ServerCanMove(st)
    ensures BufferInv(setup, ServerMove(setup, st))
  {}

  lemma StepKeepsBuffer(setup: Setup, st: Session, step: Step)
    requires BufferInv(setup, st) && SafetyInv(setup, st) && Enabled(setup, st, step)
    ensures BufferInv(setup, After(setup, st, step))
  {
    match step
    case ClientMoves => ClientMoveKeepsBuffer(setup, st);
    case ServerMoves => ServerMoveKeepsBuffer(setup, st);
    case _ =>
  }

  lemma {:induction false} RunKeepsBuffer(setup: Setup, sts: seq<Session>, steps: seq<Step>, k: nat)
    requires Run(setup, sts, steps) && k < |sts|
    ensures BufferInv(setup, sts[k])
  {
    if k > 0 {
      RunKeepsBuffer(setup, sts, steps, k - 1);
      RunKeepsSafety(setup, sts, steps, k - 1);
      StepKeepsBuffer(setup, sts[k - 1], steps[k - 1]);
    }
  }

  /** In every run, whatever is cut or refused: a side that is about to block on a read has sent all it wrote. */
  lemma FlushedBeforeReading(setup: Setup, sts: seq<Session>, steps: seq<Step>, k: nat)
    requires Run(setup, sts, steps) && k < |sts|
    ensures ClientAct(setup, sts[k].client).Read? ==> sts[k].up.buf == []
    ensures ServerAct(sts[k].server, sts[k].room.sync).Read? ==> sts[k].down.buf == []
  {
    RunKeepsBuffer(setup, sts, steps, k);
  }

  // ---- Duality in every run that is not cut ----

  /** What is under way is what one side has written of the script and the other has not read yet. */
  predicate DualInv(setup: Setup, st: Session, marks: SyncMap) {
    Dual(ClientRest(setup, st.client, marks), ServerRest(setup, st.server, marks, st.newMsgs),
         Out(st.up), Out(st.down), true)
  }

  /** The marks of the session are those given, if they have been written. */
  predicate MarksAre(st: Session, marks: SyncMap) {
    st.marks.Some? ==> st.marks.value == marks
  }

  /** Where both sides stand, and which batch the marks lead to. */
  ghost predicate StageInv(setup: Setup, st: Session, marks: SyncMap) {
    && ClientOK(setup, st.client) && ServerOK(setup, st.server, st.newMsgs)
    && (st.marks.None? <==> st.server.SGreet? && st.server.k <= 6)
    && (forall f :: InChan(st.down, f) && f.Marks? ==> st.marks.Some? && f == Marks(marks) && setup.fits(f))
    && (!st.client.CGreet? ==>
          st.marks.Some? && setup.fits(Marks(marks)) && BatchOf(st.client) == Some(Newer(marks, setup.log)))
    && (st.server.SClosed? ==> st.pushes != [])
  }

  ghost predicate ProgressInv(setup: Setup, st: Session, marks: SyncMap) {
    && !st.cut && MarksAre(st, marks)
    && StageInv(setup, st, marks)
    && DualInv(setup, st, marks)
    && SafetyInv(setup, st) && BufferInv(setup, st)
  }

  /** A client that waits for something that never comes. */
  lemma ClientStalls(setup: Setup, c: Client, marks: SyncMap)
    requires ClientOK(setup, c) && ClientAct(setup, c).Read? && ClientRest(setup, c, marks) == []
    ensures (c == CGreet(7) && !setup.fits(Marks(marks))) || (c.CBatch? && c.k == 2 && !setup.fits(Batch(c.batch)))
  {
    match c
    case CGreet(k) =>
      if k < 7 {
        GreetingSplit(ClientPosition(k), FromMarks(setup, marks));
      }
    case CBlock(_, ids, blocks, _) => BlockTailSplit(setup, blocks, ids);
    case CBlobOK(_, ids) => BlockTailSplit(setup, [], ids);
    case _ =>
  }

  /** What is under way to a side is what it expects next. */
  lemma ExpectedFirst(restA: seq<Event>, restB: seq<Event>, outA: seq<Frame>, outB: seq<Frame>, a: bool)
    requires Dual(restA, restB, outA, outB, a) && outB != []
    ensures restA != [] && restA[0].frame == outB[0]
  {
    AheadStarts(restB, restA, outB, outA, !a);
  }

  /** A side that has nothing under way to it from a side at its end is at its own end. */
  lemma NothingLeftToHear(restA: seq<Event>, outA: seq<Frame>, a: bool)
    requires Dual(restA, [], outA, [], a)
    ensures restA == []
  {
    if AheadOf([], restA, [], outA, !a) {
      assert restA[..|restA|] == restA;
      assert |Frames(restA)| == |restA|;
    }
  }

  /** A client that waits at the end of its script has not been heard, so the server has not closed. */
  lemma WaitingIsUnheard(setup: Setup, st: Session, marks: SyncMap)
    requires StageInv(setup, st, marks) && SafetyInv(setup, st) && !st.cut
    requires ClientAct(setup, st.client).Read? && ClientRest(setup, st.client, marks) == []
    ensures !st.server.SClosed?
  {
    ClientStalls(setup, st.client, marks);
  }

  /** A client does not wait for a server that has closed. */
  lemma ClientHearsServer(setup: Setup, st: Session, marks: SyncMap)
    requires ProgressInv(setup, st, marks) && ClientAct(setup, st.client).Read? && ClientCanMove(setup, st)
    ensures st.down.wire != []
  {
    if st.down.wire == [] {
      assert st.server.SClosed? && Out(st.down) == [];
      NothingLeftToHear(ClientRest(setup, st.client, marks), Out(st.up), true);
      WaitingIsUnheard(setup, st, marks);
    }
  }

  /** A server does not wait for a client that has finished. */
  lemma ServerHearsClient(setup: Setup, st: Session, marks: SyncMap)
    requires ProgressInv(setup, st, marks) && ServerAct(st.server, st.room.sync).Read? && ServerCanMove(st)
    ensures st.up.wire != []
  {}

  lemma OutAfterRead(ch: Chan)
    requires ch.wire != []
    ensures Out(ch) != [] && Out(ch)[0] == ch.wire[0] && Out(ch.(wire := ch.wire[1..])) == Out(ch)[1..]
  {}

  function ClientHas(st: Session, next: Client): Session
    requires st.down.wire != []
  {
    st.(client := next, down := st.down.(wire := st.down.wire[1..]))
  }

  lemma ClientReads(setup: Setup, st: Session)
    requires ClientCanMove(setup, st) && ClientAct(setup, st.client).Read? && st.down.wire != []
    ensures ClientMove(setup, st) == ClientHas(st, ClientOn(setup, st.client, st.down.wire[0]))
  {}

  lemma ClientReadFollows(setup: Setup, c: Client, marks: SyncMap, f: Frame)
    requires Honest(setup, marks) && ClientOK(setup, c) && ClientAct(setup, c).Read?
    requires var rest := ClientRest(setup, c, marks); rest != [] && rest[0].frame == f
    ensures var next := ClientOn(setup, c, f);
            && !ClientRest(setup, c, marks)[0].fromClient && ClientOK(setup, next)
            && ClientRest(setup, next, marks) == ClientRest(setup, c, marks)[1..]
  {
    ClientFollowsScript(setup, c, marks);
  }

  lemma DualAfterClientRead(setup: Setup, st: Session, next: Client, marks: SyncMap)
    requires st.down.wire != [] && DualInv(setup, st, marks)
    requires var rest := ClientRest(setup, st.client, marks);
             rest != [] && !rest[0].fromClient && ClientRest(setup, next, marks) == rest[1..]
    ensures DualInv(setup, ClientHas(st, next), marks)
  {
    var restC := ClientRest(setup, st.client, marks);
    var restS := ServerRest(setup, st.server, marks, st.newMsgs);
    var w := ClientHas(st, next);
    OutAfterRead(st.down);
    ReadKeepsDual(restC, restS, Out(st.up), Out(st.down), true);
    assert Dual(ClientRest(setup, w.client, marks), restS, Out(st.up), Out(w.down), true);
  }

  lemma ClientReadKeepsDual(setup: Setup, st: Session, marks: SyncMap)
    requires Honest(setup, marks) && ClientOK(setup, st.client) && DualInv(setup, st, marks)
    requires ClientCanMove(setup, st) && ClientAct(setup, st.client).Read? && st.down.wire != []
    ensures var w := ClientMove(setup, st);
            DualInv(setup, w, marks) && ClientOK(setup, w.client)
  {
    var f := st.down.wire[0];
    ClientReads(setup, st);
    ExpectedFirst(ClientRest(setup, st.client, marks), ServerRest(setup, st.server, marks, st.newMsgs),
                  Out(st.up), Out(st.down), true);
    ClientReadFollows(setup, st.client, marks, f);
    DualAfterClientRead(setup, st, ClientOn(setup, st.client, f), marks);
  }

  lemma ClientMoveKeepsDual(setup: Setup, st: Session, marks: SyncMap)
    requires Honest(setup, marks) && ProgressInv(setup, st, marks) && ClientCanMove(setup, st)
    ensures var w := ClientMove(setup, st);
            && DualInv(setup, w, marks) && ClientOK(setup, w.client)
            && (ClientAct(setup, st.client).Read? ==> st.down.wire != [])
  {
    var w := ClientMove(setup, st);
    var restC := ClientRest(setup, st.client, marks);
    var restS := ServerRest(setup, st.server, marks, st.newMsgs);
    match ClientAct(setup, st.client)
    case Write(f, _) =>
      ClientFollowsScript(setup, st.client, marks);
      if Written(setup, f) {
        WriteKeepsDual(restC, restS, Out(st.up), Out(st.down), true, f);
        assert Out(w.up) == Out(st.up) + [f];
      }
    case Flush(_) =>
      ClientFollowsScript(setup, st.client, marks);
      assert Out(w.up) == Out(st.up);
    case Read =>
      ClientHearsServer(setup, st, marks);
      ClientReadKeepsDual(setup, st, marks);
    case Work(_) => ClientFollowsScript(setup, st.client, marks);
    case Halt =>
  }

  lemma ClientMoveKeepsProgress(setup: Setup, st: Session, marks: SyncMap)
    requires Honest(setup, marks) && ProgressInv(setup, st, marks) && ClientCanMove(setup, st)
    ensures ProgressInv(setup, ClientMove(setup, st), marks)
  {
    ClientMoveKeepsDual(setup, st, marks);
    StepKeepsSafety(setup, st, ClientMoves);
    StepKeepsBuffer(setup, st, ClientMoves);
    ClientMoveKeepsStage(setup, st, marks);
  }

  lemma ClientMoveKeepsStage(setup: Setup, st: Session, marks: SyncMap)
    requires ClientCanMove(setup, st) && StageInv(setup, st, marks) && !st.cut
    requires ClientOK(setup, ClientMove(setup, st).client)
    requires ClientAct(setup, st.client).Read? ==> st.down.wire != []
    ensures StageInv(setup, ClientMove(setup, st), marks)
  {
    match ClientAct(setup, st.client)
    case Read =>
      assert InChan(st.down, st.down.wire[0]);
      BatchAfterRead(setup, st.client, st.down.wire[0]);
    case Work(_) =>
    case Halt =>
    case _ => BatchAfterAct(setup, st.client);
  }

  /** The room matters to the server only for the marks it writes. */
  lemma ServerActsByMarks(setup: Setup, st: Session, marks: SyncMap)
    requires StageInv(setup, st, marks) && ServerCanMove(st) && MarksAre(ServerMove(setup, st), marks)
    ensures ServerAct(st.server, st.room.sync) == ServerAct(st.server, marks)
  {}

  lemma ServerReadFollows(setup: Setup, s: Server, sync: SyncMap, marks: SyncMap, newMsgs: Option<seq<Message>>,
                          f: Frame)
    requires Honest(setup, marks) && ServerOK(setup, s, newMsgs) && ServerAct(s, sync).Read?
    requires var rest := ServerRest(setup, s, marks, newMsgs); rest != [] && rest[0].frame == f
    ensures var next, msgs := ServerOn(setup, s, f), MsgsAfter(s, newMsgs, f);
            && ServerRest(setup, s, marks, newMsgs)[0].fromClient && ServerOK(setup, next, msgs)
            && ServerRest(setup, next, marks, msgs) == ServerRest(setup, s, marks, newMsgs)[1..]
  {
    ServerFollowsScript(setup, s, marks, newMsgs);
  }

  function ServerHas(st: Session, next: Server, msgs: Option<seq<Message>>, files: Blobs.Files): Session
    requires st.up.wire != []
  {
    st.(server := next, up := st.up.(wire := st.up.wire[1..]), newMsgs := msgs, files := files)
  }

  lemma ServerReads(setup: Setup, st: Session)
    requires ServerCanMove(st) && ServerAct(st.server, st.room.sync).Read? && st.up.wire != []
    ensures var f := st.up.wire[0];
            ServerMove(setup, st) == ServerHas(st, ServerOn(setup, st.server, f), MsgsAfter(st.server, st.newMsgs, f),
                                               FilesOn(setup, st.server, st.files, f))
  {}

  lemma DualAfterServerRead(setup: Setup, st: Session, next: Server, msgs: Option<seq<Message>>, files: Blobs.Files,
                            marks: SyncMap)
    requires st.up.wire != [] && DualInv(setup, st, marks)
    requires var rest := ServerRest(setup, st.server, marks, st.newMsgs);
             && rest != [] && rest[0].fromClient
             && ServerRest(setup, next, marks, msgs) == rest[1..]
    ensures DualInv(setup, ServerHas(st, next, msgs, files), marks)
  {
    var restC := ClientRest(setup, st.client, marks);
    var restS := ServerRest(setup, st.server, marks, st.newMsgs);
    var w := ServerHas(st, next, msgs, files);
    OutAfterRead(st.up);
    ReadKeepsDual(restS, restC, Out(st.down), Out(st.up), false);
    assert Dual(ServerRest(setup, w.server, marks, w.newMsgs), restC, Out(st.down), Out(w.up), false);
  }

  lemma ServerReadKeepsDual(setup: Setup, st: Session, marks: SyncMap)
    requires Honest(setup, marks) && ServerOK(setup, st.server, st.newMsgs) && DualInv(setup, st, marks)
    requires ServerCanMove(st) && ServerAct(st.server, st.room.sync).Read? && st.up.wire != []
    ensures var w := ServerMove(setup, st);
            DualInv(setup, w, marks) && ServerOK(setup, w.server, w.newMsgs)
  {
    var f := st.up.wire[0];
    ServerReads(setup, st);
    ExpectedFirst(ServerRest(setup, st.server, marks, st.newMsgs), ClientRest(setup, st.client, marks),
                  Out(st.down), Out(st.up), false);
    ServerReadFollows(setup, st.server, st.room.sync, marks, st.newMsgs, f);
    DualAfterServerRead(setup, st, ServerOn(setup, st.server, f), MsgsAfter(st.server, st.newMsgs, f),
                        FilesOn(setup, st.server, st.files, f), marks);
  }

  lemma ServerWriteKeepsDual(setup: Setup, st: Session, marks: SyncMap)
    requires Honest(setup, marks) && ServerOK(setup, st.server, st.newMsgs) && DualInv(setup, st, marks) && !st.cut
    requires ServerCanMove(st) && ServerAct(st.server, st.room.sync) == ServerAct(st.server, marks)
    requires ServerAct(st.server, st.room.sync).Write?
    ensures var w := ServerMove(setup, st);
            DualInv(setup, w, marks) && ServerOK(setup, w.server, w.newMsgs)
  {
    var w, f := ServerMove(setup, st), ServerAct(st.server, marks).f;
    ServerFollowsScript(setup, st.server, marks, st.newMsgs);
    if Written(setup, f) {
      WriteKeepsDual(ServerRest(setup, st.server, marks, st.newMsgs), ClientRest(setup, st.client, marks),
                     Out(st.down), Out(st.up), false, f);
      assert Out(w.down) == Out(st.down) + [f];
    }
  }

  lemma ServerMoveKeepsDual(setup: Setup, st: Session, marks: SyncMap)
    requires Honest(setup, marks) && ServerOK(setup, st.server, st.newMsgs) && DualInv(setup, st, marks) && !st.cut
    requires ServerCanMove(st) && ServerAct(st.server, st.room.sync) == ServerAct(st.server, marks)
    requires ServerAct(st.server, st.room.sync).Read? ==> st.up.wire != []
    ensures var w := ServerMove(setup, st);
            DualInv(setup, w, marks) && ServerOK(setup, w.server, w.newMsgs)
  {
    match ServerAct(st.server, st.room.sync)
    case Write(_, _) => ServerWriteKeepsDual(setup, st, marks);
    case Flush(_) =>
      ServerFollowsScript(setup, st.server, marks, st.newMsgs);
      assert Out(ServerMove(setup, st).down) == Out(st.down);
    case Read => ServerReadKeepsDual(setup, st, marks);
    case _ => ServerFollowsScript(setup, st.server, marks, st.newMsgs);
  }

  lemma ServerReadKeepsStage(setup: Setup, st: Session, marks: SyncMap)
    requires StageInv(setup, st, marks) && SafetyInv(setup, st)
    requires ServerCanMove(st) && ServerAct(st.server, st.room.sync).Read? && st.up.wire != []
    requires ServerOK(setup, ServerMove(setup, st).server, ServerMove(setup, st).newMsgs)
    ensures StageInv(setup, ServerMove(setup, st), marks)
  {
    ServerReads(setup, st);
  }

  lemma ServerWriteKeepsStage(setup: Setup, st: Session, marks: SyncMap)
    requires ServerCanMove(st) && StageInv(setup, st, marks)
    requires MarksAre(ServerMove(setup, st), marks) && ServerAct(st.server, st.room.sync).Write?
    requires ServerOK(setup, ServerMove(setup, st).server, ServerMove(setup, st).newMsgs)
    ensures StageInv(setup, ServerMove(setup, st), marks)
  {}

  lemma ServerActKeepsStage(setup: Setup, st: Session, marks: SyncMap)
    requires ServerCanMove(st) && StageInv(setup, st, marks) && ServerInv(setup, st) && !st.cut
    requires MarksAre(ServerMove(setup, st), marks) && !ServerAct(st.server, st.room.sync).Read?
    requires ServerOK(setup, ServerMove(setup, st).server, ServerMove(setup, st).newMsgs)
    ensures StageInv(setup, ServerMove(setup, st), marks)
  {
    if ServerAct(st.server, st.room.sync).Write? {
      ServerWriteKeepsStage(setup, st, marks);
    }
  }

  lemma ServerMoveKeepsStage(setup: Setup, st: Session, marks: SyncMap)
    requires ServerCanMove(st) && StageInv(setup, st, marks) && SafetyInv(setup, st) && !st.cut
    requires MarksAre(ServerMove(setup, st), marks)
    requires ServerOK(setup, ServerMove(setup, st).server, ServerMove(setup, st).newMsgs)
    requires ServerAct(st.server, st.room.sync).Read? ==> st.up.wire != []
    ensures StageInv(setup, ServerMove(setup, st), marks)
  {
    if ServerAct(st.server, st.room.sync).Read? {
      ServerReadKeepsStage(setup, st, marks);
    } else {
      ServerActKeepsStage(setup, st, marks);
    }
  }

  lemma ServerMoveKeepsProgress(setup: Setup, st: Session, marks: SyncMap)
    requires Honest(setup, marks) && ProgressInv(setup, st, marks) && ServerCanMove(st)
    requires MarksAre(ServerMove(setup, st), marks)
    ensures ProgressInv(setup, ServerMove(setup, st), marks)
  {
    if ServerAct(st.server, st.room.sync).Read? {
      ServerHearsClient(setup, st, marks);
    }
    ServerActsByMarks(setup, st, marks);
    ServerMoveKeepsDual(setup, st, marks);
    StepKeepsSafety(setup, st, ServerMoves);
    StepKeepsBuffer(setup, st, ServerMoves);
    ServerMoveKeepsStage(setup, st, marks);
  }

  lemma SpillKeepsOut(ch: Chan)
    requires ch.buf != []
    ensures Out(Spilled(ch)) == Out(ch)
  {
    assert ch.buf == [ch.buf[0]] + ch.buf[1..];
  }

  lemma DualStays(setup: Setup, st: Session, w: Session, marks: SyncMap)
    requires DualInv(setup, st, marks)
    requires w.client == st.client && w.server == st.server && w.newMsgs == st.newMsgs
    requires Out(w.up) == Out(st.up) && Out(w.down) == Out(st.down)
    ensures DualInv(setup, w, marks)
  {}

  lemma QuietStepKeepsStage(setup: Setup, st: Session, step: Step, marks: SyncMap)
    requires StageInv(setup, st, marks) && Enabled(setup, st, step)
    requires step.SpillUp? || step.SpillDown? || Outside(step)
    ensures StageInv(setup, After(setup, st, step), marks)
  {
    var w := After(setup, st, step);
    forall f | InChan(w.down, f)
      ensures InChan(st.down, f)
    {}
  }

  lemma QuietStepKeepsProgress(setup: Setup, st: Session, step: Step, marks: SyncMap)
    requires ProgressInv(setup, st, marks) && Enabled(setup, st, step)
    requires step.SpillUp? || step.SpillDown? || Outside(step)
    ensures ProgressInv(setup, After(setup, st, step), marks)
  {
    var w := After(setup, st, step);
    StepKeepsSafety(setup, st, step);
    StepKeepsBuffer(setup, st, step);
    QuietStepKeepsStage(setup, st, step, marks);
    match step {
      case SpillUp => SpillKeepsOut(st.up);
      case SpillDown => SpillKeepsOut(st.down);
      case _ =>
    }
    DualStays(setup, st, w, marks);
  }

  lemma StepKeepsProgress(setup: Setup, st: Session, step: Step, marks: SyncMap)
    requires Honest(setup, marks) && ProgressInv(setup, st, marks) && Enabled(setup, st, step) && !step.Cut?
    requires MarksAre(After(setup, st, step), marks)
    ensures ProgressInv(setup, After(setup, st, step), marks)
  {
    match step
    case ClientMoves => ClientMoveKeepsProgress(setup, st, marks);
    case ServerMoves => ServerMoveKeepsProgress(setup, st, marks);
    case _ => QuietStepKeepsProgress(setup, st, step, marks);
  }

  ghost predicate Uncut(setup: Setup, sts: seq<Session>, steps: seq<Step>) {
    Run(setup, sts, steps) && forall k :: 0 <= k < |steps| ==> !steps[k].Cut?
  }

  lemma StartIsDual(setup: Setup, room: RoomState, files: Blobs.Files, marks: SyncMap)
    ensures ProgressInv(setup, Start(room, files), marks)
  {
    var rest := FromGreeting(0, FromMarks(setup, marks));
    assert rest[..0] == [] && rest[0..] == rest;
    assert AheadOf(rest, rest, [], [], true);
  }

  /** The marks of a later state were those of an earlier one, if it had them. */
  lemma MarksWere(setup: Setup, sts: seq<Session>, steps: seq<Step>, k: nat, marks: SyncMap)
    requires Run(setup, sts, steps) && k < |steps| && MarksAre(sts[k + 1], marks)
    ensures MarksAre(sts[k], marks)
  {
    RunKeepsSizes(setup, sts, steps, k);
    MarksStay(setup, sts[k], steps[k]);
  }

  lemma {:induction false} RunKeepsProgress(setup: Setup, sts: seq<Session>, steps: seq<Step>, k: nat, marks: SyncMap)
    requires Honest(setup, marks) && Uncut(setup, sts, steps) && k < |sts| && MarksAre(sts[k], marks)
    ensures ProgressInv(setup, sts[k], marks)
  {
    if k == 0 {
      StartIsDual(setup, sts[0].room, sts[0].files, marks);
    } else {
      MarksWere(setup, sts, steps, k - 1, marks);
      RunKeepsProgress(setup, sts, steps, k - 1, marks);
      StepKeepsProgress(setup, sts[k - 1], steps[k - 1], marks);
    }
  }
}
