/**
 How a session ends when it is not cut: after a bounded number of moves, in
 success if the server's marks and the client's batch fit a frame, and with both
 sides waiting for each other if not.
 */
module SessionEnd {
  import opened Sequences
  import opened Messages
  import opened SyncState
  import opened RoomModel
  import opened Sessions
  import opened SessionSafety
  import opened SessionScript
  import opened SessionProgress
  import Blobs

  predicate BothFit(setup: Setup, marks: SyncMap) {
    setup.fits(Marks(marks)) && setup.fits(Batch(Newer(marks, setup.log)))
  }

  /** Neither side can move: both are done, or each waits for the other. */
  predicate AtRest(setup: Setup, st: Session) {
    !ClientCanMove(setup, st) && !ServerCanMove(st)
  }

  /** Two readers at one point of the script are at its end. */
  lemma ReadersAtEnd(setup: Setup, c: Client, s: Server, sync: SyncMap, marks: SyncMap, newMsgs: Option<seq<Message>>)
    requires Honest(setup, marks) && ClientOK(setup, c) && ServerOK(setup, s, newMsgs)
    requires ClientAct(setup, c).Read? && ServerAct(s, sync).Read?
    requires ClientRest(setup, c, marks) == ServerRest(setup, s, marks, newMsgs)
    ensures ClientRest(setup, c, marks) == []
  {
    var rest := ClientRest(setup, c, marks);
    if rest != [] {
      ClientReadFollows(setup, c, marks, rest[0].frame);
      assert !rest[0].fromClient;
      ServerReadFollows(setup, s, sync, marks, newMsgs, rest[0].frame);
      assert false;
    }
  }

  /** Two sides that wait for each other are both at the end of what can be said. */
  lemma WaitingForEachOther(setup: Setup, st: Session, marks: SyncMap)
    requires Honest(setup, marks) && ProgressInv(setup, st, marks) && AtRest(setup, st) && !st.client.CDone?
    ensures ClientAct(setup, st.client).Read? && ServerAct(st.server, st.room.sync).Read?
    ensures st.up == Chan([], []) && st.down == Chan([], [])
    ensures ClientRest(setup, st.client, marks) == [] == ServerRest(setup, st.server, marks, st.newMsgs)
  {
    NothingUnderWay(ClientRest(setup, st.client, marks), ServerRest(setup, st.server, marks, st.newMsgs), true);
    ReadersAtEnd(setup, st.client, st.server, st.room.sync, marks, st.newMsgs);
  }

  lemma SilentServerHasMarks(setup: Setup, s: Server, marks: SyncMap, newMsgs: Option<seq<Message>>)
    requires ServerRest(setup, s, marks, newMsgs) == [] && ServerAct(s, marks).Read?
    ensures s.SGreet? ==> s.k > 6
  {
    if s.SGreet? && s.k < 6 {
      GreetingSplit(ServerPosition(s.k), FromMarks(setup, marks));
    }
  }

  lemma AtRestIff(setup: Setup, st: Session, marks: SyncMap)
    requires Honest(setup, marks) && ProgressInv(setup, st, marks) && AtRest(setup, st)
    ensures st.marks == Some(marks)
    ensures st.client.CDone? <==> BothFit(setup, marks)
    ensures st.client.CDone? ==>
              st.server.SClosed? && st.client.batch == Newer(marks, setup.log) && st.pushes == [st.client.batch]
    ensures !st.client.CDone? ==>
              ClientAct(setup, st.client).Read? && ServerAct(st.server, st.room.sync).Read? && st.pushes == []
  {
    if !st.client.CDone? {
      WaitingForEachOther(setup, st, marks);
      SilentServerHasMarks(setup, st.server, marks, st.newMsgs);
      ClientStalls(setup, st.client, marks);
    }
  }

  /** Marks that ask for nothing. */
  function Latest(log: seq<Message>): SyncMap {
    if |log| == 0 then map[]
    else
      var marks, last := Latest(log[..|log| - 1]), log[|log| - 1];
      if Accepts(marks, last) then marks[last.sender := last.time] else marks
  }

  lemma {:induction false} LatestAsksForNothing(log: seq<Message>)
    ensures forall m :: m in log ==> !Accepts(Latest(log), m)
    ensures Newer(Latest(log), log) == []
  {
    if |log| != 0 {
      LatestAsksForNothing(log[..|log| - 1]);
      assert log == log[..|log| - 1] + [log[|log| - 1]];
    }
    forall i | 0 <= i < |log| ensures !Accepts(Latest(log), log[i]) {
      assert log[i] in log;
    }
    FilterNone(AcceptedBy(Latest(log)), log);
  }

  /** Some marks to go with a state: its own, or, before they are written, any that can be followed up. */
  function SomeMarks(setup: Setup, st: Session): SyncMap {
    if st.marks.Some? then st.marks.value else Latest(setup.log)
  }

  lemma SomeMarksFit(setup: Setup, st: Session)
    requires setup.fits(IDs([])) && st.marks == None
    ensures IDsFit(setup, SomeMarks(setup, st))
  {
    LatestAsksForNothing(setup.log);
  }

  predicate AllFit(setup: Setup, marks: SyncMap) {
    BothFit(setup, marks) && IDsFit(setup, marks)
  }

  /**
   A session that was never cut and in which nothing more can happen: the client
   has succeeded and the server has pushed just its batch, if and only if the
   marks, the batch and the list of its blobs fit a frame.
   */
  lemma UncutSessionSucceedsIff(setup: Setup, sts: seq<Session>, steps: seq<Step>, k: nat)
    requires Trusted(setup) && setup.fits(IDs([]))
    requires Uncut(setup, sts, steps) && k < |sts| && AtRest(setup, sts[k])
    ensures sts[k].marks.Some?
    ensures sts[k].client.CDone? <==> AllFit(setup, sts[k].marks.value)
    ensures sts[k].client.CDone? ==>
              sts[k].server.SClosed? && sts[k].pushes == [Newer(sts[k].marks.value, setup.log)]
  {
    var st, marks := sts[k], SomeMarks(setup, sts[k]);
    if st.marks == None {
      SomeMarksFit(setup, st);
    }
    if IDsFit(setup, marks) {
      TrustedIsHonest(setup, marks);
      RunKeepsProgress(setup, sts, steps, k, marks);
      AtRestIff(setup, st, marks);
    } else if st.client.CDone? {
      SuccessNeedsFittingFrames(setup, sts, steps, k);
      assert false;
    }
  }

  /** When it is the marks or the batch that do not fit, both sides wait for each other, and nothing is pushed. */
  lemma OversizeFrameStallsBoth(setup: Setup, sts: seq<Session>, steps: seq<Step>, k: nat)
    requires Trusted(setup) && Uncut(setup, sts, steps) && k < |sts| && AtRest(setup, sts[k])
    requires sts[k].marks.Some? && !BothFit(setup, sts[k].marks.value)
    ensures ClientAct(setup, sts[k].client).Read? && ServerAct(sts[k].server, sts[k].room.sync).Read?
    ensures sts[k].up == Chan([], []) && sts[k].down == Chan([], []) && sts[k].pushes == []
  {
    RunKeepsProgress(setup, sts, steps, k, sts[k].marks.value);
    AtRestIff(setup, sts[k], sts[k].marks.value);
    WaitingForEachOther(setup, sts[k], sts[k].marks.value);
  }

  /**
   The two sides agree on the next item: on a run that is not cut, whatever
   arrives is what its reader expects, so neither side ever fails or refuses,
   unless the list of blobs does not fit.
   */
  lemma NeitherSideFails(setup: Setup, sts: seq<Session>, steps: seq<Step>, k: nat)
    requires Trusted(setup) && setup.fits(IDs([])) && Uncut(setup, sts, steps) && k < |sts|
    requires sts[k].marks.Some? && BothFit(setup, sts[k].marks.value) ==> IDsFit(setup, sts[k].marks.value)
    ensures !sts[k].client.CFailed? && !sts[k].server.SReject?
    ensures sts[k].server.SClosed? ==> sts[k].pushes != []
    ensures var st, marks := sts[k], SomeMarks(setup, sts[k]); DualInv(setup, st, marks)
  {
    var marks := SomeMarks(setup, sts[k]);
    if sts[k].marks == None {
      SomeMarksFit(setup, sts[k]);
    }
    if IDsFit(setup, marks) {
      TrustedIsHonest(setup, marks);
    }
    RunKeepsProgress(setup, sts, steps, k, marks);
  }

  // ---- The session comes to its end ----

  function ClientRank(setup: Setup, c: Client): nat {
    if c.CBatch? && c.k == 0 then 2 else if ClientAct(setup, c).Flush? then 1 else 0
  }

  function ServerRank(s: Server): nat {
    match s
    case SGreet(k) => if k == 6 then 2 else if k == 1 || k == 7 then 1 else 0
    case SConfirm(k) => if k == 1 then 1 else 0
    case SBlock(_, _, k) => if k == 2 then 1 else 0
    case SBlobOK(_, k) => if k == 1 then 2 else 0
    case SFinish(k) => if k == 2 then 2 else if k == 1 then 0 else 1
    case _ => 0
  }

  function ClientWork(setup: Setup, c: Client, marks: SyncMap): nat {
    4 * |ClientRest(setup, c, marks)| + ClientRank(setup, c)
  }

  function ServerWork(setup: Setup, s: Server, marks: SyncMap, newMsgs: Option<seq<Message>>): nat {
    4 * |ServerRest(setup, s, marks, newMsgs)| + ServerRank(s)
  }

  /** What is left to do of a session: what is left of the script on both sides, and the flushes in between. */
  function WorkLeft(setup: Setup, st: Session, marks: SyncMap): nat {
    ClientWork(setup, st.client, marks) + ServerWork(setup, st.server, marks, st.newMsgs) + |st.up.buf| + |st.down.buf|
  }

  /** Moves that are not part of the script only go down in rank. */
  lemma ClientRankFalls(setup: Setup, c: Client)
    requires ClientOK(setup, c)
    ensures match ClientAct(setup, c)
            case Write(f, next) =>
              ClientRank(setup, next) <= 2 && (!Written(setup, f) ==> ClientRank(setup, next) < ClientRank(setup, c))
            case Flush(next) => ClientRank(setup, next) < ClientRank(setup, c)
            case _ => true
  {}

  lemma ServerRankFalls(setup: Setup, s: Server, marks: SyncMap, newMsgs: Option<seq<Message>>)
    requires ServerOK(setup, s, newMsgs)
    ensures match ServerAct(s, marks)
            case Write(f, next) => ServerRank(next) <= 2 && (!Written(setup, f) ==> ServerRank(next) < ServerRank(s))
            case Flush(next) => ServerRank(next) < ServerRank(s)
            case Work(next) => ServerRank(next) < ServerRank(s)
            case _ => true
  {}

  lemma ClientWorkFalls(setup: Setup, c: Client, marks: SyncMap)
    requires Honest(setup, marks) && ClientOK(setup, c)
    ensures match ClientAct(setup, c)
            case Write(f, next) =>
              ClientWork(setup, next, marks) + (if Written(setup, f) then 1 else 0) < ClientWork(setup, c, marks)
            case Flush(next) => ClientWork(setup, next, marks) < ClientWork(setup, c, marks)
            case Work(_) => false
            case _ => true
  {
    ClientRankFalls(setup, c);
    ClientFollowsScript(setup, c, marks);
  }

  lemma ServerWorkFalls(setup: Setup, s: Server, marks: SyncMap, newMsgs: Option<seq<Message>>)
    requires Honest(setup, marks) && ServerOK(setup, s, newMsgs)
    ensures match ServerAct(s, marks)
            case Write(f, next) =>
              ServerWork(setup, next, marks, newMsgs) + (if Written(setup, f) then 1 else 0)
              < ServerWork(setup, s, marks, newMsgs)
            case Flush(next) => ServerWork(setup, next, marks, newMsgs) < ServerWork(setup, s, marks, newMsgs)
            case Work(next) => ServerWork(setup, next, marks, newMsgs) < ServerWork(setup, s, marks, newMsgs)
            case _ => true
  {
    ServerRankFalls(setup, s, marks, newMsgs);
    ServerFollowsScript(setup, s, marks, newMsgs);
  }

  lemma ClientReadShrinksWork(setup: Setup, st: Session, marks: SyncMap)
    requires Honest(setup, marks) && ProgressInv(setup, st, marks)
    requires ClientCanMove(setup, st) && ClientAct(setup, st.client).Read?
    ensures WorkLeft(setup, ClientMove(setup, st), marks) < WorkLeft(setup, st, marks)
  {
    ClientHearsServer(setup, st, marks);
    ClientReads(setup, st);
    ExpectedFirst(ClientRest(setup, st.client, marks), ServerRest(setup, st.server, marks, st.newMsgs),
                  Out(st.up), Out(st.down), true);
    ClientReadFollows(setup, st.client, marks, st.down.wire[0]);
  }

  lemma ClientMoveShrinksWork(setup: Setup, st: Session, marks: SyncMap)
    requires Honest(setup, marks) && ProgressInv(setup, st, marks) && ClientCanMove(setup, st)
    ensures WorkLeft(setup, ClientMove(setup, st), marks) < WorkLeft(setup, st, marks)
  {
    if ClientAct(setup, st.client).Read? {
      ClientReadShrinksWork(setup, st, marks);
    } else {
      ClientWorkFalls(setup, st.client, marks);
    }
  }

  lemma ServerReadShrinksWork(setup: Setup, st: Session, marks: SyncMap)
    requires Honest(setup, marks) && ProgressInv(setup, st, marks)
    requires ServerCanMove(st) && ServerAct(st.server, st.room.sync).Read?
    ensures WorkLeft(setup, ServerMove(setup, st), marks) < WorkLeft(setup, st, marks)
  {
    ServerHearsClient(setup, st, marks);
    ServerReads(setup, st);
    ExpectedFirst(ServerRest(setup, st.server, marks, st.newMsgs), ClientRest(setup, st.client, marks),
                  Out(st.down), Out(st.up), false);
    ServerReadFollows(setup, st.server, st.room.sync, marks, st.newMsgs, st.up.wire[0]);
  }

  lemma ServerActionShrinksWork(setup: Setup, st: Session, marks: SyncMap)
    requires Honest(setup, marks) && ServerOK(setup, st.server, st.newMsgs) && ServerCanMove(st)
    requires ServerAct(st.server, st.room.sync) == ServerAct(st.server, marks) && !ServerAct(st.server, marks).Read?
    ensures WorkLeft(setup, ServerMove(setup, st), marks) < WorkLeft(setup, st, marks)
  {
    ServerWorkFalls(setup, st.server, marks, st.newMsgs);
  }

  lemma ServerMoveShrinksWork(setup: Setup, st: Session, marks: SyncMap)
    requires Honest(setup, marks) && ProgressInv(setup, st, marks) && ServerCanMove(st)
    requires MarksAre(ServerMove(setup, st), marks)
    ensures WorkLeft(setup, ServerMove(setup, st), marks) < WorkLeft(setup, st, marks)
  {
    if ServerAct(st.server, st.room.sync).Read? {
      ServerReadShrinksWork(setup, st, marks);
    } else {
      ServerActsByMarks(setup, st, marks);
      ServerActionShrinksWork(setup, st, marks);
    }
  }

  lemma MoveShrinksWork(setup: Setup, st: Session, step: Step, marks: SyncMap)
    requires Honest(setup, marks) && ProgressInv(setup, st, marks) && Enabled(setup, st, step) && !step.Cut?
    requires MarksAre(After(setup, st, step), marks)
    ensures var left, before := WorkLeft(setup, After(setup, st, step), marks), WorkLeft(setup, st, marks);
            if Outside(step) then left == before else left < before
  {
    match step
    case ClientMoves => ClientMoveShrinksWork(setup, st, marks);
    case ServerMoves => ServerMoveShrinksWork(setup, st, marks);
    case _ =>
  }

  /** The steps of the session itself. */
  function OwnMoves(steps: seq<Step>): nat {
    if |steps| == 0 then 0
    else OwnMoves(steps[..|steps| - 1]) + if Outside(steps[|steps| - 1]) then 0 else 1
  }

  /** All that is said in a session with these marks. */
  function Script(setup: Setup, marks: SyncMap): seq<Event> {
    FromGreeting(0, FromMarks(setup, marks))
  }

  lemma WorkAtStart(setup: Setup, room: RoomState, files: Blobs.Files, marks: SyncMap)
    ensures WorkLeft(setup, Start(room, files), marks) == 8 * |Script(setup, marks)|
  {}

  lemma StepOfWork(setup: Setup, sts: seq<Session>, steps: seq<Step>, k: nat, marks: SyncMap)
    requires Honest(setup, marks) && Uncut(setup, sts, steps) && k < |steps| && MarksAre(sts[k + 1], marks)
    ensures MarksAre(sts[k], marks)
    ensures WorkLeft(setup, sts[k + 1], marks) + (if Outside(steps[k]) then 0 else 1)
         <= WorkLeft(setup, sts[k], marks)
  {
    MarksWere(setup, sts, steps, k, marks);
    RunKeepsProgress(setup, sts, steps, k, marks);
    MoveShrinksWork(setup, sts[k], steps[k], marks);
  }

  lemma OwnMovesUpTo(steps: seq<Step>, k: nat)
    requires k < |steps|
    ensures OwnMoves(steps[..k + 1]) == OwnMoves(steps[..k]) + if Outside(steps[k]) then 0 else 1
  {
    assert steps[..k + 1][..k] == steps[..k];
  }

  lemma {:induction false} WorkIsDone(setup: Setup, sts: seq<Session>, steps: seq<Step>, k: nat, marks: SyncMap)
    requires Honest(setup, marks) && Uncut(setup, sts, steps) && k < |sts| && MarksAre(sts[k], marks)
    ensures OwnMoves(steps[..k]) + WorkLeft(setup, sts[k], marks) <= 8 * |Script(setup, marks)|
  {
    if k == 0 {
      WorkAtStart(setup, sts[0].room, sts[0].files, marks);
    } else {
      StepOfWork(setup, sts, steps, k - 1, marks);
      WorkIsDone(setup, sts, steps, k - 1, marks);
      OwnMovesUpTo(steps, k - 1);
    }
  }

  /** Both sides come to rest: a session that is not cut takes at most eight moves for each frame of its script. */
  lemma SessionIsFinite(setup: Setup, sts: seq<Session>, steps: seq<Step>, marks: SyncMap)
    requires Honest(setup, marks) && Uncut(setup, sts, steps) && MarksAre(sts[|steps|], marks)
    ensures OwnMoves(steps) <= 8 * |Script(setup, marks)|
  {
    WorkIsDone(setup, sts, steps, |steps|, marks);
    assert steps[..|steps|] == steps;
  }
}
