/**
 A failure among the blobs does not stop the push: a run, for every client that
 the server trusts, in which the connection ends between the confirmation of the
 batch and its blobs. The messages are logged without their blobs, and no later
 sync offers them again.
 */
module LostBlob {
  import opened Sequences
  import opened Messages
  import opened SyncState
  import opened RoomModel
  import opened Sessions
  import opened SessionSafety
  import Blobs

  ghost predicate Stretch(setup: Setup, sts: seq<Session>, steps: seq<Step>) {
    && |sts| == |steps| + 1
    && forall k :: 0 <= k < |steps| ==> Enabled(setup, sts[k], steps[k]) && sts[k + 1] == After(setup, sts[k], steps[k])
  }

  lemma StretchesJoin(setup: Setup, a: seq<Session>, s: seq<Step>, b: seq<Session>, t: seq<Step>)
    requires Stretch(setup, a, s) && Stretch(setup, b, t) && a[|a| - 1] == b[0]
    ensures Stretch(setup, a + b[1..], s + t) && (a + b[1..])[|s + t|] == b[|t|]
  {
    var ab, st := a + b[1..], s + t;
    forall k | 0 <= k < |st| ensures Enabled(setup, ab[k], st[k]) && ab[k + 1] == After(setup, ab[k], st[k]) {
      assert k >= |s| ==> ab[k] == b[k - |s|] && ab[k + 1] == b[k + 1 - |s|] && st[k] == t[k - |s|];
    }
  }

  const SILENT := Chan([], [])

  function Asked(room: RoomState, files: Blobs.Files): Session {
    Start(room, files).(server := SGreet(2), down := Chan([], [Challenge]))
  }

  function Proved(room: RoomState, files: Blobs.Files): Session {
    Start(room, files).(client := CGreet(3), server := SGreet(2), up := Chan([Fingerprint, Signature], []))
  }

  function Opened(room: RoomState, files: Blobs.Files): Session {
    Start(room, files).(client := CGreet(6), server := SGreet(2), up := Chan([], [Fingerprint, Signature, RoomID]))
  }

  function Admitted(room: RoomState, files: Blobs.Files): Session {
    Start(room, files).(client := CGreet(6), server := SGreet(5))
  }

  function Answered(room: RoomState, files: Blobs.Files): Session {
    Start(room, files).(client := CGreet(6), server := SGreet(8), marks := Some(room.sync),
                        down := Chan([], [AUTH_OK, Marks(room.sync)]))
  }

  function Offered(room: RoomState, files: Blobs.Files, batch: seq<Message>): Session {
    Answered(room, files).(client := CBatch(batch, 2), up := Chan([], [Batch(batch)]), down := SILENT)
  }

  function Confirming(room: RoomState, files: Blobs.Files, batch: seq<Message>): Session {
    Offered(room, files, batch).(server := SConfirm(2), newMsgs := Some(batch), up := SILENT,
                                 down := Chan([], [MESSAGES_OK]))
  }

  function Lost(room: RoomState, files: Blobs.Files, batch: seq<Message>): Session {
    Confirming(room, files, batch).(server := SFinish(1), down := SILENT, cut := true,
                                    room := Push(room, batch), pushes := [batch])
  }

  lemma Asks(setup: Setup, room: RoomState, files: Blobs.Files) returns (sts: seq<Session>, steps: seq<Step>)
    ensures Stretch(setup, sts, steps) && sts[0] == Start(room, files) && sts[|steps|] == Asked(room, files)
  {
    var s0 := Start(room, files);
    var s1 := After(setup, s0, ServerMoves);
    var s2 := After(setup, s1, ServerMoves);
    sts, steps := [s0, s1, s2], [ServerMoves, ServerMoves];
  }

  lemma Proves(setup: Setup, room: RoomState, files: Blobs.Files) returns (sts: seq<Session>, steps: seq<Step>)
    ensures Stretch(setup, sts, steps) && sts[0] == Asked(room, files) && sts[|steps|] == Proved(room, files)
  {
    var s0 := Asked(room, files);
    var s1 := After(setup, s0, ClientMoves);
    var s2 := After(setup, s1, ClientMoves);
    var s3 := After(setup, s2, ClientMoves);
    sts, steps := [s0, s1, s2, s3], [ClientMoves, ClientMoves, ClientMoves];
  }

  lemma Opens(setup: Setup, room: RoomState, files: Blobs.Files) returns (sts: seq<Session>, steps: seq<Step>)
    ensures Stretch(setup, sts, steps) && sts[0] == Proved(room, files) && sts[|steps|] == Opened(room, files)
  {
    var s0 := Proved(room, files);
    var s1 := After(setup, s0, ClientMoves);
    var s2 := After(setup, s1, ClientMoves);
    var s3 := After(setup, s2, ClientMoves);
    sts, steps := [s0, s1, s2, s3], [ClientMoves, ClientMoves, ClientMoves];
  }

  lemma Admits(setup: Setup, room: RoomState, files: Blobs.Files) returns (sts: seq<Session>, steps: seq<Step>)
    requires setup.provesKey && setup.admitted
    ensures Stretch(setup, sts, steps) && sts[0] == Opened(room, files) && sts[|steps|] == Admitted(room, files)
  {
    var s0 := Opened(room, files);
    var s1 := After(setup, s0, ServerMoves);
    var s2 := After(setup, s1, ServerMoves);
    var s3 := After(setup, s2, ServerMoves);
    sts, steps := [s0, s1, s2, s3], [ServerMoves, ServerMoves, ServerMoves];
  }

  lemma Answers(setup: Setup, room: RoomState, files: Blobs.Files) returns (sts: seq<Session>, steps: seq<Step>)
    requires setup.fits(Marks(room.sync))
    ensures Stretch(setup, sts, steps) && sts[0] == Admitted(room, files) && sts[|steps|] == Answered(room, files)
  {
    var s0 := Admitted(room, files);
    var s1 := After(setup, s0, ServerMoves);
    var s2 := After(setup, s1, ServerMoves);
    var s3 := After(setup, s2, ServerMoves);
    sts, steps := [s0, s1, s2, s3], [ServerMoves, ServerMoves, ServerMoves];
  }

  lemma Offers(setup: Setup, room: RoomState, files: Blobs.Files) returns (sts: seq<Session>, steps: seq<Step>)
    requires setup.fits(Batch(Newer(room.sync, setup.log)))
    ensures Stretch(setup, sts, steps) && sts[0] == Answered(room, files)
    ensures sts[|steps|] == Offered(room, files, Newer(room.sync, setup.log))
  {
    var s0 := Answered(room, files);
    var s1 := After(setup, s0, ClientMoves);
    var s2 := After(setup, s1, ClientMoves);
    var s3 := After(setup, s2, ClientMoves);
    var s4 := After(setup, s3, ClientMoves);
    sts, steps := [s0, s1, s2, s3, s4], [ClientMoves, ClientMoves, ClientMoves, ClientMoves];
  }

  lemma Confirms(setup: Setup, room: RoomState, files: Blobs.Files, batch: seq<Message>)
    returns (sts: seq<Session>, steps: seq<Step>)
    requires AllValid(setup, batch)
    ensures Stretch(setup, sts, steps) && sts[0] == Offered(room, files, batch)
    ensures sts[|steps|] == Confirming(room, files, batch)
  {
    var s0 := Offered(room, files, batch);
    var s1 := After(setup, s0, ServerMoves);
    var s2 := After(setup, s1, ServerMoves);
    var s3 := After(setup, s2, ServerMoves);
    sts, steps := [s0, s1, s2, s3], [ServerMoves, ServerMoves, ServerMoves];
  }

  lemma Loses(setup: Setup, room: RoomState, files: Blobs.Files, batch: seq<Message>)
    returns (sts: seq<Session>, steps: seq<Step>)
    ensures Stretch(setup, sts, steps) && sts[0] == Confirming(room, files, batch)
    ensures sts[|steps|] == Lost(room, files, batch)
  {
    var s0 := Confirming(room, files, batch);
    var s1 := After(setup, s0, Cut(0, 0));
    var s2 := After(setup, s1, ServerMoves);
    var s3 := After(setup, s2, ServerMoves);
    sts, steps := [s0, s1, s2, s3], [Cut(0, 0), ServerMoves, ServerMoves];
  }

  lemma Greets(setup: Setup, room: RoomState, files: Blobs.Files) returns (sts: seq<Session>, steps: seq<Step>)
    requires setup.provesKey && setup.admitted && setup.fits(Marks(room.sync))
    ensures Stretch(setup, sts, steps) && sts[0] == Start(room, files) && sts[|steps|] == Answered(room, files)
  {
    sts, steps := Asks(setup, room, files);
    var b, t := Proves(setup, room, files);
    StretchesJoin(setup, sts, steps, b, t);
    sts, steps := sts + b[1..], steps + t;
    b, t := Opens(setup, room, files);
    StretchesJoin(setup, sts, steps, b, t);
    sts, steps := sts + b[1..], steps + t;
    b, t := Admits(setup, room, files);
    StretchesJoin(setup, sts, steps, b, t);
    sts, steps := sts + b[1..], steps + t;
    b, t := Answers(setup, room, files);
    StretchesJoin(setup, sts, steps, b, t);
    sts, steps := sts + b[1..], steps + t;
  }

  /**
   For every trusted client whose batch has a blob that the server lacks there
   is a run in which the server logs the batch and does not get the blob, and
   from then on its marks ask for none of these messages.
   */
  lemma PushWithoutBlob(setup: Setup, room: RoomState, files: Blobs.Files, id: string)
    returns (sts: seq<Session>, steps: seq<Step>)
    requires setup.provesKey && setup.admitted && AllValid(setup, setup.log) && Ordered(setup.log)
    requires setup.fits(Marks(room.sync)) && setup.fits(Batch(Newer(room.sync, setup.log)))
    requires id in BlobIDs(Newer(room.sync, setup.log)) && id !in files
    ensures Run(setup, sts, steps) && sts[0] == Start(room, files)
    ensures var last, batch := sts[|steps|], Newer(room.sync, setup.log);
            && last.pushes == [batch] && last.room == Push(room, batch)
            && id !in last.files
            && Newer(last.room.sync, batch) == []
  {
    var batch := Newer(room.sync, setup.log);
    NewerMembers(room.sync, setup.log);
    sts, steps := Greets(setup, room, files);
    var b, t := Offers(setup, room, files);
    StretchesJoin(setup, sts, steps, b, t);
    sts, steps := sts + b[1..], steps + t;
    b, t := Confirms(setup, room, files, batch);
    StretchesJoin(setup, sts, steps, b, t);
    sts, steps := sts + b[1..], steps + t;
    b, t := Loses(setup, room, files, batch);
    StretchesJoin(setup, sts, steps, b, t);
    sts, steps := sts + b[1..], steps + t;
    PushStaysCovered(setup, sts, steps, |steps|);
  }
}
