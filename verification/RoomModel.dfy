/** A room as a value, and what pushing batches of messages into it keeps. */
module RoomModel {
  import opened Sequences
  import opened Messages
  import opened SyncState
  import opened Commands

  datatype RoomState = RoomState(view: View, log: seq<Message>, sync: SyncMap)

  /** A push: the messages that are new by the marks held before it are applied, logged and recorded. */
  function Push(r: RoomState, batch: seq<Message>): RoomState {
    var accepted := Newer(r.sync, batch);
    RoomState(Replay(r.view, accepted), r.log + accepted, Record(r.sync, accepted))
  }

  /** What the next message of a batch adds to the push of those before it. */
  lemma PushOneMore(r: RoomState, batch: seq<Message>, i: nat)
    requires i < |batch|
    ensures var p, m := Push(r, batch[..i]), batch[i];
            Push(r, batch[..i + 1]) ==
            if Accepts(r.sync, m) then RoomState(Apply(p.view, m), p.log + [m], p.sync[m.sender := m.time]) else p
  {
    assert batch[..i + 1] == batch[..i] + [batch[i]];
    FilterSnoc(AcceptedBy(r.sync), batch[..i], batch[i]);
    ReplaySnoc(r.view, Newer(r.sync, batch[..i]), batch[i]);
    RecordSnoc(r.sync, Newer(r.sync, batch[..i]), batch[i]);
    assert r.log + (Newer(r.sync, batch[..i]) + [batch[i]]) == (r.log + Newer(r.sync, batch[..i])) + [batch[i]];
  }

  /** The room lists one more peer, without a message. */
  function WithPeer(r: RoomState, peer: Member): RoomState {
    r.(view := r.view.(peers := r.view.peers + [peer]))
  }

  function PushAll(r: RoomState, batches: seq<seq<Message>>): RoomState {
    if |batches| == 0 then r else Push(PushAll(r, batches[..|batches| - 1]), batches[|batches| - 1])
  }

  /** The marks describe the log exactly. */
  ghost predicate Exact(r: RoomState) {
    Indexed(r.log, r.sync)
  }

  lemma PushKeepsIndex(r: RoomState, batch: seq<Message>)
    requires Exact(r)
    ensures Exact(Push(r, batch))
  {
    RecordKeepsIndex(r.log, r.sync, Newer(r.sync, batch));
  }

  /**
   After any pushes of any batches the log has only grown, the marks describe
   it exactly, and name, peers, nicknames and admin flags are those of replaying
   the new part of the log once.
   */
  lemma {:induction false} ViewIsReplayOfLog(r: RoomState, batches: seq<seq<Message>>)
    requires Exact(r)
    ensures var p := PushAll(r, batches);
            && Exact(p)
            && r.log <= p.log
            && p.view == Replay(r.view, p.log[|r.log|..])
  {
    if |batches| != 0 {
      var front, last := batches[..|batches| - 1], batches[|batches| - 1];
      ViewIsReplayOfLog(r, front);
      var before, p := PushAll(r, front), PushAll(r, batches);
      var accepted := Newer(before.sync, last);
      PushKeepsIndex(before, last);
      ReplayConcat(r.view, before.log[|r.log|..], accepted);
      assert p.log[|r.log|..] == before.log[|r.log|..] + accepted;
    }
  }

  lemma {:induction false} AcceptedRaiseMarks(sync: SyncMap, msgs: seq<Message>)
    requires forall i :: 0 <= i < |msgs| ==> Accepts(sync, msgs[i])
    ensures Below(sync, Record(sync, msgs))
    ensures forall s :: s in Record(sync, msgs) <==> s in sync || exists m :: m in msgs && m.sender == s
  {
    if |msgs| != 0 {
      AcceptedRaiseMarks(sync, msgs[..|msgs| - 1]);
      assert msgs == msgs[..|msgs| - 1] + [msgs[|msgs| - 1]];
      assert Accepts(sync, msgs[|msgs| - 1]);
    }
  }

  /** Whatever the batch, no sender is lost from the marks and none goes back. */
  lemma PushNeverGoesBack(r: RoomState, batch: seq<Message>)
    ensures Below(r.sync, Push(r, batch).sync)
    ensures r.log <= Push(r, batch).log
  {
    NewerMembers(r.sync, batch);
    AcceptedRaiseMarks(r.sync, Newer(r.sync, batch));
  }

  /** A batch with nothing new in it changes nothing. */
  lemma NothingNewNoEffect(r: RoomState, batch: seq<Message>)
    requires Newer(r.sync, batch) == []
    ensures Push(r, batch) == r
  {
    assert r.log + [] == r.log;
  }

  /** In an exactly indexed, ordered log every mark is the latest time of its sender. */
  lemma MarksAreMaxima(log: seq<Message>, sync: SyncMap)
    requires Ordered(log) && Indexed(log, sync)
    ensures forall m :: m in log ==> m.sender in sync && m.time <= sync[m.sender]
  {
    forall m | m in log ensures m.sender in sync && m.time <= sync[m.sender] {
      ByMembers(log, m.sender);
      var own := By(log, m.sender);
      assert IndexedFor(own, sync, m.sender) && Increasing(own);
      var k :| 0 <= k < |own| && own[k] == m;
    }
  }

  lemma NewerIsOrdered(sync: SyncMap, batch: seq<Message>)
    requires Ordered(batch)
    ensures Ordered(Newer(sync, batch))
  {
    forall s ensures Increasing(By(Newer(sync, batch), s)) {
      NewerBy(sync, batch, s);
      assert Increasing(By(batch, s));
      FilterIncreasing(AcceptedBy(sync), By(batch, s));
    }
  }

  lemma {:induction false} FilterIncreasing(p: Message -> bool, msgs: seq<Message>)
    requires Increasing(msgs)
    ensures Increasing(Filter(p, msgs))
  {
    if |msgs| != 0 {
      var front := msgs[..|msgs| - 1];
      FilterIncreasing(p, front);
      FilterMembers(p, front);
      forall i | 0 <= i < |Filter(p, front)| ensures Filter(p, front)[i].time < msgs[|msgs| - 1].time {
        assert Filter(p, front)[i] in front;
      }
    }
  }

  /** A push keeps every sender's log increasing exactly when what it accepts is increasing per sender. */
  lemma PushKeepsOrderIff(r: RoomState, batch: seq<Message>)
    requires Exact(r) && Ordered(r.log)
    ensures Ordered(Push(r, batch).log) <==> Ordered(Newer(r.sync, batch))
  {
    var accepted := Newer(r.sync, batch);
    forall s ensures Increasing(By(r.log + accepted, s)) <==> Increasing(By(accepted, s)) {
      ByConcat(r.log, accepted, s);
      AcceptedFollowLog(r, batch, s);
      var held, added := By(r.log, s), By(accepted, s);
      assert Increasing(held);
      if Increasing(held + added) {
        assert added == (held + added)[|held|..];
      }
    }
  }

  lemma AcceptedFollowLog(r: RoomState, batch: seq<Message>, s: string)
    requires Exact(r) && Ordered(r.log)
    ensures forall i, j :: 0 <= i < |By(r.log, s)| && 0 <= j < |By(Newer(r.sync, batch), s)|
                           ==> By(r.log, s)[i].time < By(Newer(r.sync, batch), s)[j].time
  {
    var own, added := By(r.log, s), By(Newer(r.sync, batch), s);
    assert IndexedFor(own, r.sync, s) && Increasing(own);
    ByMembers(Newer(r.sync, batch), s);
    NewerMembers(r.sync, batch);
    forall j | 0 <= j < |added| ensures Accepts(r.sync, added[j]) && added[j].sender == s {
      assert added[j] in added;
    }
  }

  /** The index covers the accepted messages: for each sender, the last one accepted is the latest. */
  ghost predicate LastIsLatest(sync: SyncMap, accepted: seq<Message>) {
    forall m :: m in accepted ==> m.sender in Record(sync, accepted) && m.time <= Record(sync, accepted)[m.sender]
  }

  /** Pushing the same batch again is a no-op exactly when the last accepted message of each sender is its latest. */
  lemma RepeatedPushIsNoOpIff(r: RoomState, batch: seq<Message>)
    ensures Push(Push(r, batch), batch) == Push(r, batch) <==> LastIsLatest(r.sync, Newer(r.sync, batch))
  {
    var accepted, p := Newer(r.sync, batch), Push(r, batch);
    var again := Newer(p.sync, batch);
    NewerMembers(r.sync, batch);
    NewerMembers(p.sync, batch);
    AcceptedRaiseMarks(r.sync, accepted);
    if Push(p, batch) == p {
      assert |p.log + again| == |p.log|;
      assert again == [];
      forall m | m in accepted ensures m.sender in p.sync && m.time <= p.sync[m.sender] {
        assert m !in again;
      }
    }
    if LastIsLatest(r.sync, accepted) {
      forall i | 0 <= i < |batch| ensures !Accepts(p.sync, batch[i]) {
        assert batch[i] in accepted || !Accepts(r.sync, batch[i]);
      }
      FilterNone(AcceptedBy(p.sync), batch);
      NothingNewNoEffect(p, batch);
    }
  }

  lemma {:induction false} OrderedBatchIsCovered(sync: SyncMap, accepted: seq<Message>)
    requires Ordered(accepted)
    ensures LastIsLatest(sync, accepted)
  {
    if |accepted| != 0 {
      var front, last := accepted[..|accepted| - 1], accepted[|accepted| - 1];
      assert accepted == front + [last];
      OrderedSnoc(front, last);
      OrderedBatchIsCovered(sync, front);
    }
  }

  /** Without order in the batch, marks regress inside it and the same message can be logged twice. */
  lemma UnorderedBatchBreaksTheLog(r: RoomState, c: Content)
    requires "s" !in r.sync
    ensures var late, early := Message("s", 5, c, []), Message("s", 3, c, []);
            && Push(r, [late, early]).sync["s"] == 3
            && Push(r, [late, late]).log == r.log + [late, late]
            && Push(Push(r, [late, early]), [late, early]).log == r.log + [late, early, late]
  {
    var late, early := Message("s", 5, c, []), Message("s", 3, c, []);
    TwoMessages(r.sync, late, early);
    TwoMessages(r.sync, late, late);
    var p := Push(r, [late, early]);
    TwoMessages(p.sync, late, early);
    assert (r.log + [late, early]) + [late] == r.log + [late, early, late];
  }

  lemma TwoMessages(sync: SyncMap, a: Message, b: Message)
    ensures Newer(sync, [a, b]) == (if Accepts(sync, a) then [a] else []) + (if Accepts(sync, b) then [b] else [])
    ensures Record(sync, [a, b]) == sync[a.sender := a.time][b.sender := b.time]
  {
    assert [a, b] == ([] + [a]) + [b];
    FilterSnoc(AcceptedBy(sync), [] + [a], b);
    FilterSnoc(AcceptedBy(sync), [], a);
    RecordSnoc(sync, [] + [a], b);
    RecordSnoc(sync, [], a);
  }

  lemma OneMessage(sync: SyncMap, a: Message)
    ensures Newer(sync, [a]) == if Accepts(sync, a) then [a] else []
    ensures Record(sync, [a]) == sync[a.sender := a.time]
  {
    assert [a] == [] + [a];
    FilterSnoc(AcceptedBy(sync), [], a);
    RecordSnoc(sync, [], a);
  }

  /** A message the room sends itself is logged exactly when its time is later than the room's own mark. */
  lemma SendIsLoggedIff(r: RoomState, m: Message)
    requires m.sender == r.view.self.fp
    ensures Push(r, [m]) != r <==> m.sender !in r.sync || r.sync[m.sender] < m.time
    ensures Push(r, [m]) != r ==> Push(r, [m]).log == r.log + [m]
  {
    OneMessage(r.sync, m);
    if !Accepts(r.sync, m) {
      NothingNewNoEffect(r, [m]);
    } else {
      assert |Push(r, [m]).log| == |r.log| + 1;
    }
  }
}
