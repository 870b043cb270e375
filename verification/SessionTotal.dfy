/**
 Every session ends, whatever the setup and wherever it is cut: there is a bound
 on its moves, and when no more are possible both sides have halted, unless the
 marks or the batch did not fit a frame of an uncut session.
 */
module SessionTotal {
  import opened Sequences
  import opened Messages
  import opened SyncState
  import opened RoomModel
  import opened Sessions
  import opened SessionSafety
  import opened SessionScript
  import opened SessionProgress
  import opened SessionEnd

  // ---- A bound on the moves of any session ----

  /** The moves that a client makes for the listed blobs, and to hear of the end, if nothing fails. */
  function BlobMoves(setup: Setup, ids: seq<string>): nat
    decreases |ids|
  {
    if |ids| == 0 then 1 else 4 + 3 * |BlocksOf(setup, ids[0])| + BlobMoves(setup, ids[1..])
  }

  function LaterMoves(setup: Setup, ids: seq<string>): nat {
    if ids == [] then 1 else BlobMoves(setup, ids[1..])
  }

  /** No more moves than these are left to a client. */
  function ClientMovesLeft(setup: Setup, c: Client, marks: SyncMap): nat {
    match c
    case CGreet(k) => (if k <= 7 then 8 - k else 1) + 5 + BlobMoves(setup, BlobIDs(Newer(marks, setup.log)))
    case CBatch(batch, k) => (if k <= 4 then 5 - k else 1) + BlobMoves(setup, BlobIDs(batch))
    case CCount(_, ids, k) =>
      (if k == 0 then 3 else 2) + 3 * (if ids == [] then 0 else |BlocksOf(setup, ids[0])|) + 1 + LaterMoves(setup, ids)
    case CBlock(_, ids, blocks, k) =>
      (if blocks == [] then 1 else 3 * |blocks| - 1) + (if k == 0 then 1 else if k == 1 then 0 else -1) + 2
      + LaterMoves(setup, ids)
    case CBlobOK(_, ids) => 1 + LaterMoves(setup, ids)
    case CSync(_) => 1
    case _ => 0
  }

  function ServerMovesLeft(s: Server): nat {
    match s
    case SGreet(k) =>
      if k == 0 then 21 else if k <= 4 then 20 - k else if k == 5 then 15
      else if k == 6 then 13 else if k == 7 then 11 else 10
    case SReject(k) => if k == 0 then 3 else 1
    case SConfirm(k) => if k == 0 then 9 else if k == 1 then 7 else 6
    case SCount(_) => 6
    case SBlock(_, _, k) => if k == 0 then 6 else if k == 1 then 12 else 10
    case SBlobOK(_, k) => if k == 0 then 9 else 7
    case SFinish(k) => if k == 0 then 5 else if k == 1 then 4 else if k == 2 then 2 else 1
    case SClosed => 0
  }

  lemma ClientActShrinks(setup: Setup, c: Client, marks: SyncMap)
    ensures match ClientAct(setup, c)
            case Write(_, next) => ClientMovesLeft(setup, next, marks) < ClientMovesLeft(setup, c, marks)
            case Flush(next) => ClientMovesLeft(setup, next, marks) < ClientMovesLeft(setup, c, marks)
            case Work(next) => ClientMovesLeft(setup, next, marks) < ClientMovesLeft(setup, c, marks)
            case Read => 0 < ClientMovesLeft(setup, c, marks)
            case Halt => true
  {}

  lemma ClientReadShrinks(setup: Setup, c: Client, f: Frame, marks: SyncMap)
    requires ClientAct(setup, c).Read? && (f.Marks? ==> f.sync == marks)
    ensures ClientMovesLeft(setup, ClientOn(setup, c, f), marks) < ClientMovesLeft(setup, c, marks)
  {}

  /**
   A write goes down by two, for the frame in the buffer; a failed read goes down,
   and any read up by less than ten.
   */
  lemma ServerMoveShrinks(setup: Setup, s: Server, sync: SyncMap, f: Frame)
    ensures match ServerAct(s, sync)
            case Write(_, next) => ServerMovesLeft(next) + 2 <= ServerMovesLeft(s)
            case Flush(next) => ServerMovesLeft(next) < ServerMovesLeft(s)
            case Work(next) => ServerMovesLeft(next) < ServerMovesLeft(s)
            case Read =>
              && ServerMovesLeft(ServerOnEOF(setup, s)) < ServerMovesLeft(s)
              && ServerMovesLeft(ServerOn(setup, s, f)) < ServerMovesLeft(s) + 10
            case Halt => true
  {}

  /** A bound on what is left of a session; a frame under way costs the server some moves. */
  function MovesLeft(setup: Setup, st: Session, marks: SyncMap): nat {
    12 * ClientMovesLeft(setup, st.client, marks) + ServerMovesLeft(st.server)
    + 10 * |Out(st.up)| + |st.up.buf| + |st.down.buf|
  }

  lemma ClientStepShrinks(setup: Setup, st: Session, marks: SyncMap)
    requires ClientCanMove(setup, st) && (forall f :: f in st.down.wire && f.Marks? ==> f.sync == marks)
    ensures MovesLeft(setup, ClientMove(setup, st), marks) < MovesLeft(setup, st, marks)
  {
    ClientActShrinks(setup, st.client, marks);
    if ClientAct(setup, st.client).Read? && st.down.wire != [] {
      ClientReadShrinks(setup, st.client, st.down.wire[0], marks);
    }
  }

  lemma ServerStepShrinks(setup: Setup, st: Session, marks: SyncMap)
    requires ServerCanMove(st)
    ensures MovesLeft(setup, ServerMove(setup, st), marks) < MovesLeft(setup, st, marks)
  {
    ServerMoveShrinks(setup, st.server, st.room.sync, if st.up.wire == [] then Challenge else st.up.wire[0]);
  }

  /** The steps of the session itself, not those of its surroundings. */
  predicate OwnStep(step: Step) {
    !Outside(step) && !step.Cut?
  }

  lemma AnyStepShrinks(setup: Setup, st: Session, step: Step, marks: SyncMap)
    requires Enabled(setup, st, step) && MarksInv(setup, st) && MarksAre(st, marks)
    ensures var left, before := MovesLeft(setup, After(setup, st, step), marks), MovesLeft(setup, st, marks);
            if OwnStep(step) then left < before else left <= before
  {
    match step
    case ClientMoves =>
      forall f | f in st.down.wire && f.Marks? ensures f.sync == marks {
        assert InChan(st.down, f);
      }
      ClientStepShrinks(setup, st, marks);
    case ServerMoves => ServerStepShrinks(setup, st, marks);
    case _ =>
  }

  function OwnSteps(steps: seq<Step>): nat {
    if |steps| == 0 then 0 else OwnSteps(steps[..|steps| - 1]) + if OwnStep(steps[|steps| - 1]) then 1 else 0
  }

  lemma {:induction false} MovesAreUsedUp(setup: Setup, sts: seq<Session>, steps: seq<Step>, k: nat, marks: SyncMap)
    requires Run(setup, sts, steps) && k < |sts| && MarksAre(sts[k], marks)
    ensures OwnSteps(steps[..k]) + MovesLeft(setup, sts[k], marks) <= MovesLeft(setup, sts[0], marks)
  {
    if k > 0 {
      RunKeepsSizes(setup, sts, steps, k - 1);
      MarksWere(setup, sts, steps, k - 1, marks);
      MovesAreUsedUp(setup, sts, steps, k - 1, marks);
      AnyStepShrinks(setup, sts[k - 1], steps[k - 1], marks);
      assert steps[..k][..k - 1] == steps[..k - 1];
    }
  }

  /**
   In every run of every session, refused, failing or cut as it may be, the moves
   of the two sides are bounded by the blobs of the batch that the marks ask for.
   */
  lemma EverySessionIsFinite(setup: Setup, sts: seq<Session>, steps: seq<Step>, marks: SyncMap)
    requires Run(setup, sts, steps) && MarksAre(sts[|steps|], marks)
    ensures OwnSteps(steps) <= 177 + 12 * BlobMoves(setup, BlobIDs(Newer(marks, setup.log)))
  {
    MovesAreUsedUp(setup, sts, steps, |steps|, marks);
    assert steps[..|steps|] == steps;
  }

  // ---- Where it ends ----

  /** One of the sides is on its way out. */
  predicate Leaving(st: Session) {
    ClientHalted(st.client) || st.server.SReject? || st.server.SFinish? || st.server.SClosed?
  }

  lemma StepKeepsLeaving(setup: Setup, st: Session, step: Step)
    requires Enabled(setup, st, step) && Leaving(st)
    ensures Leaving(After(setup, st, step))
  {}

  /** Whoever waits for a side that has left is told so. */
  lemma LeavingEndsHalted(setup: Setup, st: Session)
    requires (Leaving(st) || st.cut) && AtRest(setup, st)
    ensures ClientHalted(st.client) && st.server.SClosed?
  {}

  /** The client has passed over a list of blobs that did not fit, and the server takes the next frame for the list. */
  ghost predicate Unlisted(setup: Setup, st: Session) {
    && !st.cut && st.server.SConfirm? && st.newMsgs.Some?
    && !setup.fits(IDs(BlobIDs(st.newMsgs.value)))
    && (forall f :: InChan(st.up, f) ==> !f.IDs?)
    && ((st.client.CBatch? && st.client.k >= 4) || (st.client.CCount? && st.client.k == 0) || Out(st.up) != [])
    && BatchOf(st.client) == st.newMsgs && PastConfirm(st.client)
  }

  lemma UnlistedIsNotAtRest(setup: Setup, st: Session)
    requires Unlisted(setup, st) && BufferInv(setup, st)
    ensures !AtRest(setup, st)
  {}

  lemma ClientKeepsUnlisted(setup: Setup, st: Session)
    requires Unlisted(setup, st) && ClientCanMove(setup, st) && setup.fits(IDs([]))
    ensures Leaving(ClientMove(setup, st)) || Unlisted(setup, ClientMove(setup, st))
  {}

  lemma ServerKeepsUnlisted(setup: Setup, st: Session)
    requires Unlisted(setup, st) && ServerCanMove(st)
    ensures Leaving(ServerMove(setup, st)) || Unlisted(setup, ServerMove(setup, st))
  {}

  lemma StepKeepsUnlisted(setup: Setup, st: Session, step: Step)
    requires Unlisted(setup, st) && Enabled(setup, st, step) && setup.fits(IDs([])) && !step.Cut?
    ensures Leaving(After(setup, st, step)) || Unlisted(setup, After(setup, st, step))
  {
    match step
    case ClientMoves => ClientKeepsUnlisted(setup, st);
    case ServerMoves => ServerKeepsUnlisted(setup, st);
    case SpillUp => SpillKeepsOut(st.up);
    case _ =>
  }

  /** The client has sent a batch that the server will refuse. */
  predicate Offending(setup: Setup, st: Session) {
    && !st.cut && st.server.SGreet? && st.newMsgs.None?
    && st.client.CBatch? && st.client.k >= 1
    && setup.fits(Batch(st.client.batch)) && !AllValid(setup, st.client.batch)
  }

  lemma OffendingIsNotAtRest(setup: Setup, st: Session)
    requires Offending(setup, st) && SafetyInv(setup, st) && BufferInv(setup, st)
    ensures !AtRest(setup, st)
  {}

  lemma StepKeepsOffending(setup: Setup, st: Session, step: Step)
    requires Offending(setup, st) && Enabled(setup, st, step) && !step.Cut?
    requires SafetyInv(setup, st) && SafetyInv(setup, After(setup, st, step))
    ensures Leaving(After(setup, st, step)) || Offending(setup, After(setup, st, step))
  {}

  /**
   The same client with all in order: it is let in, it has the files of its blobs,
   the list of them fits, and if its batch is one to be refused, it does not fit.
   Until one of the two parts company with this setup, both behave alike.
   */
  function Mended(setup: Setup, marks: SyncMap): Setup {
    var valid := AllValid(setup, Newer(marks, setup.log));
    setup.(provesKey := true, admitted := true,
           source := setup.source + map id | id in BlobIDs(setup.log) && id !in setup.source :: [],
           fits := (f: Frame) => f.IDs? || (setup.fits(f) && (f.Batch? ==> valid)))
  }

  lemma MendedIsHonest(setup: Setup, marks: SyncMap)
    requires CountableSource(setup)
    ensures Honest(Mended(setup, marks), marks)
  {
    var batch := Newer(marks, setup.log);
    NewerMembers(marks, setup.log);
    forall i | 0 <= i < |BlobIDs(batch)| ensures BlobIDs(batch)[i] in BlobIDs(setup.log) {
      BlobIDsAreThoseOfMessages(batch, BlobIDs(batch)[i]);
      BlobIDsAreThoseOfMessages(setup.log, BlobIDs(batch)[i]);
      assert BlobIDs(batch)[i] in BlobIDs(batch);
    }
  }

  /** All that is known of a state of any run. */
  ghost predicate AnyInv(setup: Setup, st: Session) {
    SafetyInv(setup, st) && MarksInv(setup, st) && BlobsInv(setup, st) && BufferInv(setup, st)
  }

  lemma RunKeepsAny(setup: Setup, sts: seq<Session>, steps: seq<Step>, k: nat)
    requires Run(setup, sts, steps) && k < |sts|
    ensures AnyInv(setup, sts[k])
  {
    RunKeepsSafety(setup, sts, steps, k);
    RunKeepsSizes(setup, sts, steps, k);
    RunKeepsBuffer(setup, sts, steps, k);
  }

  /** A session goes by the script, or it has left it in one of three ways. */
  ghost predicate OnScript(setup: Setup, st: Session, marks: SyncMap) {
    Leaving(st) || Unlisted(setup, st) || Offending(setup, st) || ProgressInv(Mended(setup, marks), st, marks)
  }

  /** Both act alike until a file is missing, and what they write differently is a batch or a list. */
  lemma ActsAlike(setup: Setup, c: Client, marks: SyncMap)
    ensures ClientAct(setup, c) == Work(CFailed) || ClientAct(Mended(setup, marks), c) == ClientAct(setup, c)
    ensures ClientAct(setup, c).Write? ==>
              var f := ClientAct(setup, c).f;
              || Written(Mended(setup, marks), f) == Written(setup, f)
              || (c.CBatch? && c.k == 0 && setup.fits(Batch(c.batch)) && !Mended(setup, marks).fits(Batch(c.batch)))
              || (c.CBatch? && c.k == 3 && !setup.fits(IDs(BlobIDs(c.batch))))
  {}

  /** Where a client and the mended one part: a missing file, a list or a batch that only one of them writes. */
  lemma ClientsPart(setup: Setup, st: Session, marks: SyncMap)
    requires ClientCanMove(setup, st)
    ensures var m := Mended(setup, marks);
            || ClientMove(setup, st).client.CFailed?
            || (ClientCanMove(m, st) && ClientMove(m, st) == ClientMove(setup, st))
            || (st.client.CBatch? && st.client.k == 0
                && setup.fits(Batch(st.client.batch)) && !m.fits(Batch(st.client.batch)))
            || (st.client.CBatch? && st.client.k == 3 && !setup.fits(IDs(BlobIDs(st.client.batch))))
  {
    ActsAlike(setup, st.client, marks);
  }

  lemma ServersPart(setup: Setup, st: Session, marks: SyncMap)
    requires ServerCanMove(st)
    ensures ServerMove(setup, st).server.SReject? || ServerMove(Mended(setup, marks), st) == ServerMove(setup, st)
  {}

  lemma TurnsUnlisted(setup: Setup, st: Session)
    requires AnyInv(setup, st) && ClientCanMove(setup, st) && !st.cut && !Leaving(st)
    requires st.client.CBatch? && st.client.k == 3 && !setup.fits(IDs(BlobIDs(st.client.batch)))
    ensures Unlisted(setup, ClientMove(setup, st))
  {}

  lemma TurnsOffending(setup: Setup, st: Session, marks: SyncMap)
    requires AnyInv(setup, st) && ProgressInv(Mended(setup, marks), st, marks)
    requires ClientCanMove(setup, st) && !Leaving(st)
    requires st.client.CBatch? && st.client.k == 0
    requires setup.fits(Batch(st.client.batch)) && !Mended(setup, marks).fits(Batch(st.client.batch))
    ensures Offending(setup, ClientMove(setup, st))
  {}

  lemma ClientKeepsOnScript(setup: Setup, st: Session, marks: SyncMap)
    requires CountableSource(setup) && AnyInv(setup, st) && ClientCanMove(setup, st) && !Leaving(st)
    requires ProgressInv(Mended(setup, marks), st, marks)
    ensures OnScript(setup, ClientMove(setup, st), marks)
  {
    var m, w := Mended(setup, marks), ClientMove(setup, st);
    ClientsPart(setup, st, marks);
    MendedIsHonest(setup, marks);
    if !w.client.CFailed? && !(ClientCanMove(m, st) && ClientMove(m, st) == w) {
      if st.client.k == 0 {
        TurnsOffending(setup, st, marks);
      } else {
        TurnsUnlisted(setup, st);
      }
    } else if !w.client.CFailed? {
      ClientMoveKeepsProgress(m, st, marks);
    }
  }

  lemma ServerKeepsOnScript(setup: Setup, st: Session, marks: SyncMap)
    requires CountableSource(setup) && ServerCanMove(st) && MarksAre(ServerMove(setup, st), marks)
    requires ProgressInv(Mended(setup, marks), st, marks)
    ensures OnScript(setup, ServerMove(setup, st), marks)
  {
    ServersPart(setup, st, marks);
    if !ServerMove(setup, st).server.SReject? {
      MendedIsHonest(setup, marks);
      ServerMoveKeepsProgress(Mended(setup, marks), st, marks);
    }
  }

  lemma StepKeepsOnScript(setup: Setup, st: Session, step: Step, marks: SyncMap)
    requires CountableSource(setup) && setup.fits(IDs([])) && !step.Cut?
    requires Enabled(setup, st, step) && AnyInv(setup, st) && AnyInv(setup, After(setup, st, step))
    requires MarksAre(After(setup, st, step), marks) && OnScript(setup, st, marks)
    ensures OnScript(setup, After(setup, st, step), marks)
  {
    if Leaving(st) {
      StepKeepsLeaving(setup, st, step);
    } else if Unlisted(setup, st) {
      StepKeepsUnlisted(setup, st, step);
    } else if Offending(setup, st) {
      StepKeepsOffending(setup, st, step);
    } else {
      match step
      case ClientMoves => ClientKeepsOnScript(setup, st, marks);
      case ServerMoves => ServerKeepsOnScript(setup, st, marks);
      case _ => QuietStepKeepsProgress(Mended(setup, marks), st, step, marks);
    }
  }

  lemma {:induction false} RunKeepsOnScript(setup: Setup, sts: seq<Session>, steps: seq<Step>, k: nat, marks: SyncMap)
    requires CountableSource(setup) && setup.fits(IDs([]))
    requires Run(setup, sts, steps) && k < |sts| && MarksAre(sts[k], marks)
    ensures sts[k].cut || OnScript(setup, sts[k], marks)
  {
    if k == 0 {
      StartIsDual(Mended(setup, marks), sts[0].room, sts[0].files, marks);
    } else {
      MarksWere(setup, sts, steps, k - 1, marks);
      RunKeepsOnScript(setup, sts, steps, k - 1, marks);
      RunKeepsAny(setup, sts, steps, k - 1);
      RunKeepsAny(setup, sts, steps, k);
      if !sts[k].cut {
        CutStays(setup, sts[k - 1], steps[k - 1]);
        StepKeepsOnScript(setup, sts[k - 1], steps[k - 1], marks);
      }
    }
  }

  lemma CutStays(setup: Setup, st: Session, step: Step)
    requires Enabled(setup, st, step)
    ensures st.cut || step.Cut? ==> After(setup, st, step).cut
  {}

  lemma ScriptAtRest(setup: Setup, st: Session, marks: SyncMap)
    requires CountableSource(setup) && AnyInv(setup, st) && AtRest(setup, st) && !Leaving(st)
    requires ProgressInv(Mended(setup, marks), st, marks)
    ensures st.marks == Some(marks) && !BothFit(setup, marks)
    ensures ClientAct(setup, st.client).Read? && ServerAct(st.server, st.room.sync).Read?
    ensures st.up == Chan([], []) && st.down == Chan([], [])
  {
    var m := Mended(setup, marks);
    MendedIsHonest(setup, marks);
    SameRest(setup, st, marks);
    AtRestIff(m, st, marks);
    WaitingForEachOther(m, st, marks);
    ClientStalls(m, st.client, marks);
  }

  lemma SameRest(setup: Setup, st: Session, marks: SyncMap)
    requires AtRest(setup, st)
    ensures AtRest(Mended(setup, marks), st)
    ensures ClientAct(Mended(setup, marks), st.client) == ClientAct(setup, st.client)
  {}

  /**
   When nothing more can happen in a session, of whatever setup and wherever it
   was cut: both sides have halted, or the session was not cut and both wait for
   each other because the marks or the batch did not fit a frame.
   */
  lemma RestIsHaltOrStall(setup: Setup, sts: seq<Session>, steps: seq<Step>, k: nat)
    requires CountableSource(setup) && setup.fits(IDs([]))
    requires Run(setup, sts, steps) && k < |sts| && AtRest(setup, sts[k])
    ensures var st := sts[k];
            || (ClientHalted(st.client) && st.server.SClosed?)
            || (!st.cut && st.marks.Some? && !BothFit(setup, st.marks.value)
                && ClientAct(setup, st.client).Read? && ServerAct(st.server, st.room.sync).Read?
                && st.up == Chan([], []) && st.down == Chan([], []))
  {
    var st := sts[k];
    var marks := SomeMarks(setup, st);
    RunKeepsAny(setup, sts, steps, k);
    RunKeepsOnScript(setup, sts, steps, k, marks);
    if st.cut || Leaving(st) {
      LeavingEndsHalted(setup, st);
    } else if Unlisted(setup, st) {
      UnlistedIsNotAtRest(setup, st);
    } else if Offending(setup, st) {
      OffendingIsNotAtRest(setup, st);
    } else {
      ScriptAtRest(setup, st, marks);
    }
  }
}
