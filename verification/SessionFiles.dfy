/**
 Which blobs a server holds once it has pushed: all of the batch when it left
 the transfer by its last "blob_ok", which a client that succeeds can be sure
 of, and a beginning of them when a read failed before.
 */
module SessionFiles {
  import opened Sequences
  import opened Base64Url
  import opened Messages
  import opened SyncState
  import opened RoomModel
  import opened Sessions
  import opened SessionSafety
  import opened SessionProgress
  import opened SessionBlobs
  import Blobs

  // ---- The frames of a transfer are the items of Blobs ----

  lemma RawOfBlob(setup: Setup, content: seq<byte>, rest: seq<Frame>)
    ensures RawAll(setup, [CountFrame(content)] + (BlockFrames(Blobs.Blocks(content)) + rest))
         == Blobs.ItemsOf(content) + RawAll(setup, rest)
  {
    assert RawAll(setup, BlockFrames(Blobs.Blocks(content))) == Blobs.Blocks(content);
  }

  /** The client sends the items of the first blobs listed, up to one that it does not have. */
  lemma {:induction false} FramesAreItems(setup: Setup, ids: seq<string>) returns (have: nat)
    ensures have <= |ids| && (forall i :: 0 <= i < have ==> ids[i] in setup.source)
    ensures have < |ids| ==> ids[have] !in setup.source
    ensures RawAll(setup, BlobFrames(setup, ids)) == Blobs.Sent(setup.source, ids[..have])
    decreases |ids|
  {
    if |ids| == 0 || ids[0] !in setup.source {
      have := 0;
    } else {
      var h := FramesAreItems(setup, ids[1..]);
      have := h + 1;
      RawOfBlob(setup, setup.source[ids[0]], BlobFrames(setup, ids[1..]));
      assert ids[..have] == [ids[0]] + ids[1..][..h];
      Blobs.SentFirst(setup.source, ids[0], ids[1..][..h]);
    }
  }

  lemma {:induction false} SentOfMore(source: Blobs.Files, ids: seq<string>, a: nat, b: nat)
    requires a <= b <= |ids|
    ensures Blobs.Sent(source, ids[..a]) <= Blobs.Sent(source, ids[..b])
    ensures a < b ==> |Blobs.Sent(source, ids[..a])| < |Blobs.Sent(source, ids[..b])|
    decreases a
  {
    if a > 0 {
      SentOfMore(source, ids[1..], a - 1, b - 1);
      assert ids[..a] == [ids[0]] + ids[1..][..a - 1] && ids[..b] == [ids[0]] + ids[1..][..b - 1];
      Blobs.SentFirst(source, ids[0], ids[1..][..a - 1]);
      Blobs.SentFirst(source, ids[0], ids[1..][..b - 1]);
    } else if b > 0 {
      assert ids[..b] == [ids[0]] + ids[1..][..b - 1];
      Blobs.SentFirst(source, ids[0], ids[1..][..b - 1]);
    }
  }

  /** After the first n frames of the transfer, and no more, the files are these. */
  lemma FilesAfterFrames(setup: Setup, files0: Blobs.Files, ids: seq<string>, n: nat) returns (done: nat, broken: bool)
    requires CountableSource(setup) && n <= |BlobFrames(setup, ids)|
    ensures done <= |ids| && (broken ==> done < |ids|) && forall i :: 0 <= i < done ==> ids[i] in setup.source
    ensures Blobs.ReceiveAll(files0, ids, RawAll(setup, BlobFrames(setup, ids)[..n]))
         == Blobs.Received(Blobs.AfterCut(files0, setup.source, ids, done, broken), done == |ids|, [])
  {
    var have := FramesAreItems(setup, ids);
    SentOfMore(setup.source, ids, have, |ids|);
    assert ids[..|ids|] == ids;
    done := Blobs.TransferCutAnywhere(files0, setup.source, ids, n);
    broken := |Blobs.Sent(setup.source, ids[..done])| < n;
    assert RawAll(setup, BlobFrames(setup, ids)[..n]) == Blobs.Sent(setup.source, ids)[..n];
    if done > have {
      SentOfMore(setup.source, ids, have, done);
    }
  }

  // ---- Leaving the transfer ----

  /** The server has sent its last "blob_ok", or there was no blob to wait for. */
  predicate LeavesComplete(s: Server, ids: seq<string>) {
    s.SBlobOK? || ids == []
  }

  /** The step with which the server stops reading blobs, for whatever reason. */
  predicate Leaves(before: Session, after: Session) {
    before.server != after.server && after.server == SFinish(0)
  }

  predicate HasLeft(st: Session) {
    st.server.SFinish? || st.pushes != []
  }

  lemma {:induction false} LeavingOrigin(setup: Setup, sts: seq<Session>, steps: seq<Step>, k: nat) returns (t: nat)
    requires Run(setup, sts, steps) && k < |sts| && HasLeft(sts[k])
    ensures t < k && Leaves(sts[t], sts[t + 1])
    ensures sts[k].files == sts[t + 1].files && sts[k].newMsgs == sts[t + 1].newMsgs
    decreases k
  {
    assert !HasLeft(sts[0]);
    RunKeepsSafety(setup, sts, steps, k - 1);
    StillLeft(setup, sts[k - 1], steps[k - 1]);
    if Leaves(sts[k - 1], sts[k]) {
      t := k - 1;
    } else {
      t := LeavingOrigin(setup, sts, steps, k - 1);
    }
  }

  lemma StillLeft(setup: Setup, st: Session, step: Step)
    requires Enabled(setup, st, step) && SafetyInv(setup, st) && HasLeft(After(setup, st, step))
    ensures var w := After(setup, st, step);
            Leaves(st, w) || (HasLeft(st) && w.files == st.files && w.newMsgs == st.newMsgs)
  {
    if step == ServerMoves {
      ServerStillLeft(setup, st);
    }
  }

  lemma ServerStillLeft(setup: Setup, st: Session)
    requires ServerCanMove(st) && ServerInv(setup, st) && HasLeft(ServerMove(setup, st))
    ensures var w := ServerMove(setup, st);
            Leaves(st, w) || (HasLeft(st) && w.files == st.files && w.newMsgs == st.newMsgs)
  {}

  /** What the items read so far make of the files is what the server has when it leaves. */
  ghost predicate LeavesWith(setup: Setup, files0: Blobs.Files, st: Session, w: Session, cut: nat) {
    && st.newMsgs.Some?
    && var ids := BlobIDs(st.newMsgs.value);
       && cut <= |BlobFrames(setup, ids)|
       && var r := Blobs.ReceiveAll(files0, ids, RawAll(setup, BlobFrames(setup, ids)[..cut]));
          && r.files == w.files && (r.ok <==> LeavesComplete(st.server, ids))
          && (r.rest == [] && !r.ok && !st.server.SConfirm? ==> st.up.wire == [])
  }

  lemma LeavingAtConfirm(setup: Setup, files0: Blobs.Files, st: Session, n: nat)
    requires TransferInv(setup, files0, st, n) && st.server.SConfirm? && st.newMsgs.Some?
    requires ServerCanMove(st) && Leaves(st, ServerMove(setup, st))
    ensures LeavesWith(setup, files0, st, ServerMove(setup, st), 0)
  {
    assert RawAll(setup, BlobFrames(setup, BlobIDs(st.newMsgs.value))[..0]) == [];
  }

  /** If no more items come, the files are as Resume says. */
  lemma NoMoreItems(setup: Setup, files0: Blobs.Files, st: Session, n: nat)
    requires FilesInv(setup, files0, st, n) && InBlobStage(st.server)
    ensures var ids := BlobIDs(st.newMsgs.value);
            Blobs.ReceiveAll(files0, ids, RawAll(setup, BlobFrames(setup, ids)[..n])) == Resume(st.server, st.files, [])
  {
    var ids := BlobIDs(st.newMsgs.value);
    var read := RawAll(setup, BlobFrames(setup, ids)[..n]);
    assert read + [] == read;
    assert Blobs.ReceiveAll(files0, ids, read + []) == Resume(st.server, st.files, []);
  }

  lemma LeavingWhenDone(setup: Setup, files0: Blobs.Files, st: Session, n: nat)
    requires FilesInv(setup, files0, st, n) && st.server.SBlobOK?
    requires ServerCanMove(st) && Leaves(st, ServerMove(setup, st))
    ensures LeavesWith(setup, files0, st, ServerMove(setup, st), n)
  {
    NoMoreItems(setup, files0, st, n);
  }

  lemma LeavingOnEOF(setup: Setup, files0: Blobs.Files, st: Session, n: nat)
    requires FilesInv(setup, files0, st, n) && (st.server.SCount? || st.server.SBlock?) && st.up.wire == []
    requires ServerCanMove(st) && Leaves(st, ServerMove(setup, st))
    ensures LeavesWith(setup, files0, st, ServerMove(setup, st), n)
  {
    NoMoreItems(setup, files0, st, n);
  }

  lemma ItemsAtLeaving(setup: Setup, files0: Blobs.Files, st: Session, n: nat) returns (cut: nat)
    requires TransferInv(setup, files0, st, n) && ServerCanMove(st)
    requires Leaves(st, ServerMove(setup, st)) && st.newMsgs.Some? && (st.server.SConfirm? || InBlobStage(st.server))
    ensures LeavesWith(setup, files0, st, ServerMove(setup, st), cut)
  {
    cut := if st.server.SConfirm? then 0 else n;
    if st.server.SConfirm? {
      LeavingAtConfirm(setup, files0, st, n);
    } else if st.server.SBlobOK? {
      LeavingWhenDone(setup, files0, st, n);
    } else if st.up.wire == [] {
      LeavingOnEOF(setup, files0, st, n);
    } else {
      LeavingByFrame(setup, st);
      cut := ShortCount(setup, files0, st, n);
    }
  }

  lemma LeavingByFrame(setup: Setup, st: Session)
    requires ServerCanMove(st) && (st.server.SCount? || st.server.SBlock?) && st.up.wire != []
    requires Leaves(st, ServerMove(setup, st)) && (st.server.SBlock? ==> st.server.left > 0)
    ensures st.server.SCount?
  {}

  /** A frame of less than four bytes where a count is due. */
  lemma ShortCount(setup: Setup, files0: Blobs.Files, st: Session, n: nat) returns (cut: nat)
    requires TransferInv(setup, files0, st, n) && ServerCanMove(st) && st.server.SCount? && st.up.wire != []
    requires Leaves(st, ServerMove(setup, st))
    ensures var ids, w := BlobIDs(st.newMsgs.value), ServerMove(setup, st);
            && cut <= |BlobFrames(setup, ids)|
            && var r := Blobs.ReceiveAll(files0, ids, RawAll(setup, BlobFrames(setup, ids)[..cut]));
               r.files == w.files && !r.ok && r.rest != [] && ids != []
  {
    var ids, f := BlobIDs(st.newMsgs.value), st.up.wire[0];
    var frames := BlobFrames(setup, ids);
    FirstUnderWay(st.up, ServerLeft(setup, st, n));
    assert f == frames[n];
    RawAllMore(setup, frames, n);
    cut := n + 1;
    assert Blobs.ReceiveAll(files0, ids, RawAll(setup, frames[..n]) + [Raw(setup, f)])
        == Resume(st.server, st.files, [Raw(setup, f)]);
  }

  /**
   The files of a server that has pushed, in every run, with cuts and failures
   anywhere: the first done of the batch's blobs appended to what was there, and
   the next one removed if it was broken off. All are done exactly if the
   server left the transfer by its last "blob_ok".
   */
  lemma FilesAfterPush(setup: Setup, sts: seq<Session>, steps: seq<Step>, k: nat)
    returns (t: nat, done: nat, broken: bool)
    requires Run(setup, sts, steps) && k < |sts| && sts[k].pushes != [] && CountableSource(setup)
    ensures t < k && Leaves(sts[t], sts[t + 1]) && sts[t + 1].newMsgs == Some(sts[k].pushes[0])
    ensures var ids := BlobIDs(sts[k].pushes[0]);
            && done <= |ids| && (broken ==> done < |ids|) && (forall i :: 0 <= i < done ==> ids[i] in setup.source)
            && sts[k].files == Blobs.AfterCut(sts[0].files, setup.source, ids, done, broken)
            && (done == |ids| <==> LeavesComplete(sts[t].server, ids))
    ensures done < |BlobIDs(sts[k].pushes[0])| ==> sts[t].server.SConfirm? || sts[t].up.wire == []
  {
    t := LeavingOrigin(setup, sts, steps, k);
    RunKeepsSafety(setup, sts, steps, k);
    RunKeepsSafety(setup, sts, steps, t);
    LeavingIsServers(setup, sts[t], steps[t]);
    var n := RunKeepsTransfer(setup, sts, steps, t);
    var cut := ItemsAtLeaving(setup, sts[0].files, sts[t], n);
    done, broken := FilesAfterFrames(setup, sts[0].files, BlobIDs(sts[t].newMsgs.value), cut);
  }

  lemma LeavesByMove(setup: Setup, st: Session)
    requires ServerCanMove(st) && Leaves(st, ServerMove(setup, st)) && SafetyInv(setup, st)
    ensures st.newMsgs.Some? && ServerMove(setup, st).newMsgs == st.newMsgs && st.pushes == []
    ensures st.server.SConfirm? || InBlobStage(st.server)
  {}

  lemma LeavingIsServers(setup: Setup, st: Session, step: Step)
    requires Enabled(setup, st, step) && Leaves(st, After(setup, st, step)) && SafetyInv(setup, st)
    ensures step == ServerMoves && st.newMsgs.Some? && After(setup, st, step).newMsgs == st.newMsgs && st.pushes == []
    ensures st.server.SConfirm? || InBlobStage(st.server)
  {
    if step.ServerMoves? {
      LeavesByMove(setup, st);
    }
  }

  // ---- A client that succeeds ----

  /** The client can no longer succeed: it has failed, or the line is cut before "sync_ok" was sent. */
  predicate Hopeless(st: Session) {
    st.client.CFailed? || (st.cut && SYNC_OK !in st.down.wire && st.down.buf == [] && !st.client.CDone?)
  }

  lemma ClientStaysHopeless(setup: Setup, st: Session)
    requires Hopeless(st) && ClientCanMove(setup, st)
    ensures Hopeless(ClientMove(setup, st))
  {}

  lemma ServerLeavesHopeless(setup: Setup, st: Session)
    requires Hopeless(st) && ServerCanMove(st)
    ensures Hopeless(ServerMove(setup, st))
  {}

  lemma StepKeepsHopeless(setup: Setup, st: Session, step: Step)
    requires Hopeless(st) && Enabled(setup, st, step)
    ensures Hopeless(After(setup, st, step))
  {
    match step
    case ClientMoves => ClientStaysHopeless(setup, st);
    case ServerMoves => ServerLeavesHopeless(setup, st);
    case _ =>
  }

  lemma {:induction false} HopelessToTheEnd(setup: Setup, sts: seq<Session>, steps: seq<Step>, t: nat, k: nat)
    requires Run(setup, sts, steps) && t <= k < |sts| && Hopeless(sts[t])
    ensures !sts[k].client.CDone?
    decreases k
  {
    if t < k {
      HopelessAt(setup, sts, steps, t, k);
    }
  }

  lemma {:induction false} HopelessAt(setup: Setup, sts: seq<Session>, steps: seq<Step>, t: nat, k: nat)
    requires Run(setup, sts, steps) && t <= k < |sts| && Hopeless(sts[t])
    ensures Hopeless(sts[k])
    decreases k
  {
    if t < k {
      HopelessAt(setup, sts, steps, t, k - 1);
      StepKeepsHopeless(setup, sts[k - 1], steps[k - 1]);
    }
  }

  lemma FailedReadIsHopeless(setup: Setup, st: Session)
    requires KnownInv(setup, st) && ServerCanMove(st) && ServerAct(st.server, st.room.sync).Read? && st.up.wire == []
    requires st.pushes == []
    ensures Hopeless(st)
  {
    FailedReadIsEnd(setup, st);
  }

  /** Where the list of blobs should be there is another frame only if the list did not fit. */
  lemma ListMissing(setup: Setup, st: Session, n: nat)
    requires TransferInv(setup, st.files, st, n) && ServerCanMove(st) && st.server.SConfirm? && st.newMsgs.Some?
    requires Leaves(st, ServerMove(setup, st)) && st.up.wire != [] && BlobIDs(st.newMsgs.value) != []
    ensures !setup.fits(IDs(BlobIDs(st.newMsgs.value)))
  {
    FirstUnderWay(st.up, ServerLeft(setup, st, n));
  }

  /**
   "sync_ok" is reached only after every "block_ok" and "blob_ok": in every run,
   with cuts at any point, a client that is done has had all blobs of its batch
   appended to the server's files. Each is then byte for byte the client's
   exactly when the server held nothing under its name and the batch names it
   once, or it is empty.
   */
  lemma SuccessMeansBlobsWritten(setup: Setup, sts: seq<Session>, steps: seq<Step>, k: nat)
    requires Run(setup, sts, steps) && k < |sts| && sts[k].client.CDone? && CountableSource(setup)
    ensures var ids := BlobIDs(sts[k].client.batch);
            && sts[k].files == Blobs.Appended(sts[0].files, setup.source, ids)
            && (forall id :: id in ids ==> id in setup.source && id in sts[k].files)
            && (forall id :: id in ids ==>
                  (sts[k].files[id] == setup.source[id]
                   <==> Blobs.ArrivesClean(sts[0].files, setup.source, ids, id)))
  {
    SuccessMeansPushed(setup, sts, steps, k);
    var ids := BlobIDs(sts[k].client.batch);
    var t, done, broken := FilesAfterPush(setup, sts, steps, k);
    if done < |ids| {
      IncompleteIsHopeless(setup, sts, steps, t, k);
      assert false;
    }
    assert ids[..|ids|] == ids;
    forall id | id in ids
      ensures id in setup.source && id in sts[k].files
      ensures sts[k].files[id] == setup.source[id] <==> Blobs.ArrivesClean(sts[0].files, setup.source, ids, id)
    {
      Blobs.AppendedNames(sts[0].files, setup.source, ids, id);
      Blobs.BlobIntactIff(sts[0].files, setup.source, ids, id);
    }
  }

  lemma IncompleteIsHopeless(setup: Setup, sts: seq<Session>, steps: seq<Step>, t: nat, k: nat)
    requires Run(setup, sts, steps) && t < k < |sts|
    requires Leaves(sts[t], sts[t + 1]) && sts[t + 1].newMsgs.Some?
    requires !LeavesComplete(sts[t].server, BlobIDs(sts[t + 1].newMsgs.value))
    requires sts[t].server.SConfirm? || sts[t].up.wire == []
    ensures sts[k].client.CDone? ==> sts[k].client.batch != sts[t + 1].newMsgs.value
  {
    RunIsKnown(setup, sts, steps, t);
    LeavingIsServers(setup, sts[t], steps[t]);
    if sts[t].up.wire == [] {
      FailedReadIsHopeless(setup, sts[t]);
      HopelessToTheEnd(setup, sts, steps, t, k);
    } else {
      var n := RunKeepsTransfer(setup, sts, steps, t);
      StartFilesStay(setup, sts[0].files, sts[t], n);
      ListMissing(setup, sts[t], n);
      RunKeepsSizes(setup, sts, steps, k);
    }
  }

  lemma StartFilesStay(setup: Setup, files0: Blobs.Files, st: Session, n: nat)
    requires FilesInv(setup, files0, st, n) && st.server.SConfirm?
    ensures st.files == files0
  {}

  // ---- Which pushed messages have their blobs ----

  /** Every listed blob is there, byte for byte the client's. */
  predicate Whole(setup: Setup, files: Blobs.Files, ids: seq<string>) {
    forall id :: id in ids ==> id in setup.source && id in files && files[id] == setup.source[id]
  }

  /** Of the first done blobs listed those that arrive clean are whole; others are if the server had them. */
  predicate WholeAlready(setup: Setup, files0: Blobs.Files, ids: seq<string>, done: nat, id: string)
    requires done <= |ids|
  {
    && id in setup.source
    && if id in ids[..done] then Blobs.ArrivesClean(files0, setup.source, ids[..done], id)
       else id in files0 && files0[id] == setup.source[id]
  }

  lemma WholeAfterCutIff(setup: Setup, files0: Blobs.Files, ids: seq<string>, done: nat, broken: bool)
    requires done <= |ids| && (broken ==> done < |ids|)
    ensures Whole(setup, Blobs.AfterCut(files0, setup.source, ids, done, broken), ids)
            <==> !broken && forall id :: id in ids ==> WholeAlready(setup, files0, ids, done, id)
  {
    var files := Blobs.AfterCut(files0, setup.source, ids, done, broken);
    if broken {
      assert ids[done] in ids && ids[done] !in files;
    } else {
      forall id | id in ids
        ensures id in setup.source && id in files && files[id] == setup.source[id]
                <==> WholeAlready(setup, files0, ids, done, id)
      {
        Blobs.AppendedNames(files0, setup.source, ids[..done], id);
        if id in ids[..done] {
          Blobs.BlobIntactIff(files0, setup.source, ids[..done], id);
        } else {
          Blobs.OthersKept(files0, setup.source, ids[..done], id);
        }
      }
    }
  }

  /**
   Exactly when a server that has pushed holds all blobs of the batch whole: it
   was not broken off within a blob, and each of them arrived clean among the
   first done, or was already there as the client has it. All are done if and
   only if the server left the transfer by its last "blob_ok".
   */
  lemma PushedBlobsWholeIff(setup: Setup, sts: seq<Session>, steps: seq<Step>, k: nat)
    returns (t: nat, done: nat, broken: bool)
    requires Run(setup, sts, steps) && k < |sts| && sts[k].pushes != [] && CountableSource(setup)
    ensures t < k && Leaves(sts[t], sts[t + 1]) && done <= |BlobIDs(sts[k].pushes[0])|
    ensures var ids := BlobIDs(sts[k].pushes[0]);
            && (done == |ids| <==> LeavesComplete(sts[t].server, ids))
            && (Whole(setup, sts[k].files, ids) <==>
                !broken && forall id :: id in ids ==> WholeAlready(setup, sts[0].files, ids, done, id))
  {
    t, done, broken := FilesAfterPush(setup, sts, steps, k);
    WholeAfterCutIff(setup, sts[0].files, BlobIDs(sts[k].pushes[0]), done, broken);
  }

  /**
   For blobs that are new to the server and named once: all are whole exactly if
   the server left the transfer by its last "blob_ok".
   */
  lemma NewBlobsWholeIff(setup: Setup, sts: seq<Session>, steps: seq<Step>, k: nat) returns (t: nat)
    requires Run(setup, sts, steps) && k < |sts| && sts[k].pushes != [] && CountableSource(setup)
    requires forall id :: id in BlobIDs(sts[k].pushes[0]) ==> id !in sts[0].files
    requires NoDuplicates(BlobIDs(sts[k].pushes[0]))
    ensures t < k && Leaves(sts[t], sts[t + 1])
    ensures var ids := BlobIDs(sts[k].pushes[0]);
            Whole(setup, sts[k].files, ids) <==> LeavesComplete(sts[t].server, ids)
  {
    var done, broken;
    t, done, broken := FilesAfterPush(setup, sts, steps, k);
    var ids := BlobIDs(sts[k].pushes[0]);
    WholeAfterCutIff(setup, sts[0].files, ids, done, broken);
    if done < |ids| {
      assert ids[done] in ids && ids[done] !in ids[..done];
      assert !WholeAlready(setup, sts[0].files, ids, done, ids[done]);
    } else {
      assert ids[..done] == ids;
      forall id | id in ids ensures WholeAlready(setup, sts[0].files, ids, done, id) {
        var i :| 0 <= i < |ids| && ids[i] == id;
        Blobs.OccursOnce(ids, i);
      }
    }
  }
}
