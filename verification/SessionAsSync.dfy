/**
 A session that pushes is, for the server's room, the sync that Replication
 takes apart into opening, choosing and delivering, among other pushes. That
 includes the session whose client fails after the push and will try again.
 */
module SessionAsSync {
  import opened Sequences
  import opened Messages
  import opened SyncState
  import opened RoomModel
  import opened Sessions
  import opened SessionSafety

  /** A session that writes its marks takes them off the room, and has pushed nothing yet. */
  lemma MarksWritten(setup: Setup, st: Session, step: Step)
    requires SafetyInv(setup, st) && Enabled(setup, st, step) && After(setup, st, step).marks != st.marks
    ensures st.server.SGreet? && st.pushes == [] && After(setup, st, step).marks == Some(st.room.sync)
  {}

  /** The marks that a session is about were the room's when they were written. */
  lemma {:induction false} MarksOrigin(setup: Setup, sts: seq<Session>, steps: seq<Step>, k: nat) returns (t: nat)
    requires Run(setup, sts, steps) && k < |sts| && sts[k].marks.Some?
    ensures t < k && sts[t].server.SGreet? && sts[t].pushes == []
    ensures sts[k].marks == Some(sts[t].room.sync)
    decreases k
  {
    assert sts[0].marks == None;
    RunKeepsSafety(setup, sts, steps, k - 1);
    if sts[k].marks == sts[k - 1].marks {
      t := MarksOrigin(setup, sts, steps, k - 1);
    } else {
      MarksWritten(setup, sts[k - 1], steps[k - 1]);
      t := k - 1;
    }
  }

  /** One step changes the room only by the server's own push or by another one. */
  ghost predicate RoomStep(before: Session, after: Session, step: Step) {
    if Outside(step) then after.room == RoomAfterOutside(before.room, step) && after.pushes == before.pushes
    else if after.pushes == before.pushes then after.room == before.room
    else
      && before.newMsgs.Some?
      && after.pushes == before.pushes + [before.newMsgs.value]
      && after.room == Push(before.room, before.newMsgs.value)
  }

  lemma StepsAreRoomSteps(setup: Setup, st: Session, step: Step)
    requires Enabled(setup, st, step)
    ensures RoomStep(st, After(setup, st, step), step)
  {
    if step.ServerMoves? && After(setup, st, step).pushes != st.pushes {
      assert st.newMsgs.Some?;
    }
  }

  /** A session that has pushed did so at one moment: before it there was no push of its own, after it no second one. */
  lemma {:induction false} PushOrigin(setup: Setup, sts: seq<Session>, steps: seq<Step>, k: nat) returns (t: nat)
    requires Run(setup, sts, steps) && k < |sts| && sts[k].pushes != []
    ensures t < k && sts[t].newMsgs.Some?
    ensures sts[t + 1].room == Push(sts[t].room, sts[k].pushes[0])
    ensures forall j :: 0 <= j <= t ==> sts[j].pushes == []
    ensures forall j :: t < j <= k ==> sts[j].pushes == sts[k].pushes
    decreases k
  {
    var before := sts[k - 1];
    StepsAreRoomSteps(setup, before, steps[k - 1]);
    SuccessMeansPushed(setup, sts, steps, k);
    if before.pushes == [] {
      t := k - 1;
      NothingPushedBefore(setup, sts, steps, t);
    } else {
      t := PushOrigin(setup, sts, steps, k - 1);
      assert before.pushes == sts[k].pushes;
    }
  }

  lemma {:induction false} NothingPushedBefore(setup: Setup, sts: seq<Session>, steps: seq<Step>, k: nat)
    requires Run(setup, sts, steps) && k < |sts| && sts[k].pushes == []
    ensures forall j :: 0 <= j <= k ==> sts[j].pushes == []
  {
    if k > 0 {
      StepsAreRoomSteps(setup, sts[k - 1], steps[k - 1]);
      NothingPushedBefore(setup, sts, steps, k - 1);
    }
  }

  /**
   Whatever else happens, and whether or not the client learns of it, a session
   that pushes is one whole sync: it opened when the marks were read off the
   room, and the server pushed what they ask for of the client's log, or
   nothing, at the delivery, later. No other step of the session touches the
   room.
   */
  lemma EveryPushIsOneSync(setup: Setup, sts: seq<Session>, steps: seq<Step>, k: nat)
    returns (opening: nat, delivery: nat)
    requires Run(setup, sts, steps) && k < |sts| && sts[k].pushes != []
    ensures opening <= delivery < k
    ensures sts[delivery + 1].room == sts[delivery].room
         || sts[delivery + 1].room == Push(sts[delivery].room, Newer(sts[opening].room.sync, setup.log))
    ensures sts[k].client.CDone? ==>
              sts[delivery + 1].room == Push(sts[delivery].room, Newer(sts[opening].room.sync, setup.log))
    ensures forall j :: 0 <= j < k && j != delivery ==>
              sts[j + 1].room == RoomAfterOutside(sts[j].room, steps[j])
  {
    PushedIsChosen(setup, sts, steps, k);
    SuccessMeansPushed(setup, sts, steps, k);
    RunKeepsSizes(setup, sts, steps, k);
    delivery := PushOrigin(setup, sts, steps, k);
    opening := delivery;
    if sts[k].marks.Some? {
      opening := MarksOrigin(setup, sts, steps, k);
    }
    if sts[k].pushes[0] == [] {
      NothingNewNoEffect(sts[delivery].room, []);
    }
    forall j | 0 <= j < k && j != delivery
      ensures sts[j + 1].room == RoomAfterOutside(sts[j].room, steps[j])
    {
      StepsAreRoomSteps(setup, sts[j], steps[j]);
    }
  }

  // ---- Syncing again ----

  lemma {:induction false} MarksOnlyRise(setup: Setup, sts: seq<Session>, steps: seq<Step>, k: nat)
    requires Run(setup, sts, steps) && k < |sts|
    ensures Below(sts[0].room.sync, sts[k].room.sync)
  {
    if k > 0 {
      var before := sts[k - 1];
      MarksOnlyRise(setup, sts, steps, k - 1);
      StepsAreRoomSteps(setup, before, steps[k - 1]);
      if steps[k - 1].OtherPush? {
        PushNeverGoesBack(before.room, steps[k - 1].batch);
      } else if sts[k].pushes != before.pushes {
        PushNeverGoesBack(before.room, before.newMsgs.value);
      }
    }
  }

  /**
   A retry, by this or any other client, at any time after a push, finds marks
   that have only risen since: none of the same messages is offered again, let
   alone pushed. It does not matter whether the first session failed after its
   push, or whether the blobs of the messages got through.
   */
  lemma RetryOffersNoneAgain(setup: Setup, sts: seq<Session>, steps: seq<Step>, k: nat,
                             later: Setup, ts: seq<Session>, more: seq<Step>, l: nat)
    requires Run(setup, sts, steps) && k < |sts| && sts[k].pushes != [] && Ordered(setup.log)
    requires Run(later, ts, more) && l < |ts| && Below(sts[k].room.sync, ts[0].room.sync)
    ensures ts[l].newMsgs.Some? ==> forall m :: m in ts[l].newMsgs.value ==> m !in sts[k].pushes[0]
    ensures forall x, m :: 0 <= x < |ts[l].pushes| && m in ts[l].pushes[x] ==> m !in sts[k].pushes[0]
  {
    PushStaysCovered(setup, sts, steps, k);
    RunKeepsSafety(later, ts, more, l);
    RunKeepsChosen(later, ts, more, l);
    if ts[l].newMsgs.Some? && ts[l].newMsgs.value != [] {
      var o := MarksOrigin(later, ts, more, l);
      MarksOnlyRise(later, ts, more, o);
      NewerMembers(ts[l].marks.value, later.log);
    }
  }
}
