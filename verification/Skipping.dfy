/**
 A peer's message queue skips the sync when the room's marks equal those it
 copied after the last successful one. The marks are copied after the sync, not
 when the batch was picked.
 */
module Skipping {
  import opened Sequences
  import opened Messages
  import opened SyncState
  import opened Commands
  import opened RoomModel
  import opened Replication

  /** One pass of the queue: what it does when it finds the room's marks, and the marks it then remembers. */
  datatype Outcome = Skipped | Synced | Failed

  /**
   The queue of one peer. The sync itself is a run of the session protocol;
   here it only matters whether it succeeded and what the room's marks are then.
   */
  class Queue {
    var lastSyncState: SyncMap

    constructor ()
      ensures lastSyncState == map[]
    {
      lastSyncState := map[];
    }

    method Pass(before: SyncMap, syncSucceeds: bool, after: SyncMap) returns (outcome: Outcome)
      modifies this
      ensures outcome == Skipped <==> Contained(before, old(lastSyncState))
      ensures lastSyncState == if outcome == Synced then after else old(lastSyncState)
      ensures outcome == Synced ==> syncSucceeds
      ensures outcome == Failed ==> !syncSucceeds
    {
      var equal := SyncMapsEqual(before, lastSyncState);
      if equal {
        return Skipped;
      }
      if !syncSucceeds {
        return Failed;
      }
      lastSyncState := CopySyncMap(after);
      return Synced;
    }
  }

  /** The remembered marks are those the room had at an earlier moment, so the one-sided test is true equality. */
  lemma SkipTestIsEquality(ns: seq<Net>, steps: seq<Step>, copied: nat, now: nat, i: string)
    requires Run(ns, steps) && copied <= now < |ns| && i in ns[copied].rooms
    ensures i in ns[now].rooms
    ensures Contained(ns[now].rooms[i].sync, ns[copied].rooms[i].sync)
            <==> ns[now].rooms[i].sync == ns[copied].rooms[i].sync
  {
    RunGrows(ns, steps, copied, now);
    var last, cur := ns[copied].rooms[i].sync, ns[now].rooms[i].sync;
    assert Below(last, cur);
    if Contained(cur, last) {
      ContainedIsEqualityIff(cur, last);
    }
  }

  /** Equal marks in one run mean the same messages of every sender. */
  lemma SameMarksSameMessages(n: Net, q: RoomState, r: RoomState, s: string)
    requires Increasing(History(n, s)) && Faithful(n, q) && Faithful(n, r)
    requires Below(q.sync, r.sync)
    ensures By(q.log, s) <= By(r.log, s)
  {
    var a, pq, pr := History(n, s), By(q.log, s), By(r.log, s);
    assert IndexedFor(pq, q.sync, s) && IndexedFor(pr, r.sync, s);
    if |pq| > 0 && |pr| > 0 {
      assert pq[|pq| - 1] == a[|pq| - 1] && pr[|pr| - 1] == a[|pr| - 1];
    }
  }

  /**
   Room i picks a batch for j at t1 against marks j had at t0, the batch is
   pushed at t2, the marks are copied at t3, and the test says skip at t4.
   If the room's marks at t3 are still those of t1, then at t4 room j holds
   everything that i holds.
   */
  lemma SkippingIsSound(ns: seq<Net>, steps: seq<Step>, t0: nat, t1: nat, t2: nat, t3: nat, t4: nat,
                        i: string, j: string)
    requires Run(ns, steps) && t0 <= t1 <= t2 < t3 <= t4 < |ns|
    requires j in ns[t0].rooms && i in ns[t1].rooms && i in ns[t3].rooms && i in ns[t4].rooms
    requires j in ns[t2].rooms && j in ns[t2 + 1].rooms
    requires ns[t2 + 1].rooms[j] == Push(ns[t2].rooms[j], Newer(ns[t0].rooms[j].sync, ns[t1].rooms[i].log))
    requires ns[t3].rooms[i].sync == ns[t1].rooms[i].sync
    requires Contained(ns[t4].rooms[i].sync, ns[t3].rooms[i].sync)
    ensures j in ns[t4].rooms
    ensures forall m :: m in ns[t4].rooms[i].log ==> m in ns[t4].rooms[j].log
  {
    SkipTestIsEquality(ns, steps, t3, t4, i);
    StaleDeliveryIsJoin(ns, steps, t0, t1, t2, i, j);
    RunGrows(ns, steps, t2 + 1, t4);
    var n := ns[t4];
    RunKeepsInvariant(ns, steps, t4);
    var q, r := n.rooms[i], n.rooms[j];
    assert Faithful(n, q) && Faithful(n, r);
    assert Below(q.sync, r.sync);
    forall m | m in q.log ensures m in r.log {
      SameMarksSameMessages(n, q, r, m.sender);
      ByMembers(q.log, m.sender);
      ByMembers(r.log, m.sender);
    }
  }

  /**
   Without any condition on what happens between picking the batch and copying
   the marks: whatever the peer lacks when the queue skips was logged by the room
   in just that time, whoever sent it.
   */
  lemma OnlyLoggedMeanwhileIsMissing(ns: seq<Net>, steps: seq<Step>, t0: nat, t1: nat, t2: nat, t3: nat, t4: nat,
                                     i: string, j: string)
    requires Run(ns, steps) && t0 <= t1 <= t2 < t4 < |ns| && t1 <= t3 <= t4
    requires j in ns[t0].rooms && i in ns[t1].rooms && i in ns[t3].rooms && i in ns[t4].rooms
    requires j in ns[t2].rooms && j in ns[t2 + 1].rooms
    requires ns[t2 + 1].rooms[j] == Push(ns[t2].rooms[j], Newer(ns[t0].rooms[j].sync, ns[t1].rooms[i].log))
    requires Contained(ns[t4].rooms[i].sync, ns[t3].rooms[i].sync)
    ensures j in ns[t4].rooms
    ensures forall m :: m in ns[t4].rooms[i].log && m !in ns[t4].rooms[j].log ==>
              m in ns[t3].rooms[i].log && m !in ns[t1].rooms[i].log
  {
    SkipTestIsEquality(ns, steps, t3, t4, i);
    StaleDeliveryIsJoin(ns, steps, t0, t1, t2, i, j);
    RunGrows(ns, steps, t2 + 1, t4);
    RunGrows(ns, steps, t1, t4);
    RunGrows(ns, steps, t3, t4);
    var n := ns[t4];
    RunKeepsInvariant(ns, steps, t4);
    RunKeepsInvariant(ns, steps, t3);
    FaithfulInLaterNet(ns[t3], n, ns[t3].rooms[i]);
    assert Faithful(n, n.rooms[i]);
    forall m | m in n.rooms[i].log && m !in n.rooms[j].log
      ensures m in ns[t3].rooms[i].log && m !in ns[t1].rooms[i].log
    {
      SameMarksSameMessages(n, n.rooms[i], ns[t3].rooms[i], m.sender);
      ByMembers(n.rooms[i].log, m.sender);
      ByMembers(ns[t3].rooms[i].log, m.sender);
      ByMembers(ns[t1].rooms[i].log, m.sender);
      ByMembers(ns[t2 + 1].rooms[j].log, m.sender);
      assert By(ns[t2 + 1].rooms[j].log, m.sender)
          == Longer(By(ns[t2].rooms[j].log, m.sender), By(ns[t1].rooms[i].log, m.sender));
      HeldAfterJoin(ns, steps, t1, t2, i, j, m);
    }
  }

  /** What the client had when it picked the batch, the server has after the push. */
  lemma HeldAfterJoin(ns: seq<Net>, steps: seq<Step>, t1: nat, t2: nat, i: string, j: string, m: Message)
    requires Run(ns, steps) && t1 <= t2 < |ns| - 1
    requires i in ns[t1].rooms && j in ns[t2].rooms && j in ns[t2 + 1].rooms
    requires By(ns[t2 + 1].rooms[j].log, m.sender)
          == Longer(By(ns[t2].rooms[j].log, m.sender), By(ns[t1].rooms[i].log, m.sender))
    ensures m in ns[t1].rooms[i].log ==> m in ns[t2 + 1].rooms[j].log
  {
    var s := m.sender;
    RunKeepsInvariant(ns, steps, t1);
    RunKeepsInvariant(ns, steps, t2);
    RunGrows(ns, steps, t1, t2);
    FaithfulInLaterNet(ns[t1], ns[t2], ns[t1].rooms[i]);
    var a, pi, pj := History(ns[t2], s), By(ns[t1].rooms[i].log, s), By(ns[t2].rooms[j].log, s);
    assert Faithful(ns[t2], ns[t2].rooms[j]) && pi <= a && pj <= a;
    ByMembers(ns[t1].rooms[i].log, s);
    ByMembers(ns[t2 + 1].rooms[j].log, s);
    assert pi <= By(ns[t2 + 1].rooms[j].log, s);
  }

  // ---- A send between picking the batch and copying the marks is forgotten ----

  predicate AtMost(m: Message, mark: Option<int>) {
    mark.Some? && m.time <= mark.value
  }

  /** Outside its own room, nothing of i's is around that is later than mark. */
  ghost predicate Confined(n: Net, i: string, mark: Option<int>) {
    && (forall x, m :: x in n.rooms && x != i && m in n.rooms[x].log && m.sender == i ==> AtMost(m, mark))
    && (forall f, m :: f in n.flights && m in f.batch && m.sender == i ==> AtMost(m, mark))
  }

  /** A room's own mark bounds its whole history. */
  lemma OwnMarkBounds(n: Net, i: string, m: Message)
    requires Increasing(History(n, i)) && i in n.rooms && Exact(n.rooms[i]) && m in History(n, i)
    ensures AtMost(m, MarkOf(n.rooms[i].sync, i))
  {
    var own := History(n, i);
    assert IndexedFor(own, n.rooms[i].sync, i);
    var k :| 0 <= k < |own| && own[k] == m;
  }

  lemma HeldIsInHistory(n: Net, r: RoomState, m: Message)
    requires Faithful(n, r) && m in r.log
    ensures m in History(n, m.sender)
  {
    ByMembers(r.log, m.sender);
    assert By(r.log, m.sender) <= History(n, m.sender);
    assert m in By(r.log, m.sender);
  }

  lemma CarriedIsInHistory(n: Net, batch: seq<Message>, r: RoomState, m: Message)
    requires BatchLands(n, batch, r) && m in batch
    ensures m in History(n, m.sender)
  {
    ByMembers(batch, m.sender);
    assert Lands(By(batch, m.sender), History(n, m.sender), By(r.log, m.sender));
    assert m in By(batch, m.sender);
  }

  lemma ConfinedByOwnMark(n: Net, i: string)
    requires Invariant(n) && i in n.rooms
    ensures Confined(n, i, MarkOf(n.rooms[i].sync, i))
  {
    var mark := MarkOf(n.rooms[i].sync, i);
    assert Faithful(n, n.rooms[i]) && Increasing(History(n, i));
    forall x, m | x in n.rooms && x != i && m in n.rooms[x].log && m.sender == i ensures AtMost(m, mark) {
      HeldIsInHistory(n, n.rooms[x], m);
      OwnMarkBounds(n, i, m);
    }
    forall f, m | f in n.flights && m in f.batch && m.sender == i ensures AtMost(m, mark) {
      CarriedIsInHistory(n, f.batch, n.rooms[f.server], m);
      OwnMarkBounds(n, i, m);
    }
  }

  /** Unless i itself picks a batch, what it says stays in its room. */
  lemma StepKeepsConfined(n: Net, step: Step, i: string, mark: Option<int>)
    requires Enabled(n, step) && Confined(n, i, mark)
    requires step.Choose? ==> step.h.client != i
    ensures Confined(After(n, step), i, mark)
  {
    match step
    case Send(m) => OneMessage(n.rooms[m.sender].sync, m);
    case Deliver(f) => NewerMembers(n.rooms[f.server].sync, f.batch);
    case Choose(h) => NewerMembers(h.snapshot, n.rooms[h.client].log);
    case _ =>
  }

  /** From step a + 1 up to step b, room i picks no batch. */
  ghost predicate PicksNothing(steps: seq<Step>, a: nat, b: nat, i: string) {
    forall k :: a < k < b && k < |steps| && steps[k].Choose? ==> steps[k].h.client != i
  }

  lemma {:induction false} StaysConfined(ns: seq<Net>, steps: seq<Step>, t1: nat, t: nat, i: string)
    requires Run(ns, steps) && t1 < t < |ns| && i in ns[t1].rooms
    requires steps[t1].Choose? && PicksNothing(steps, t1, t, i)
    ensures Confined(ns[t], i, MarkOf(ns[t1].rooms[i].sync, i))
    decreases t
  {
    if t == t1 + 1 {
      RunKeepsInvariant(ns, steps, t);
      ConfinedByOwnMark(ns[t], i);
    } else {
      StaysConfined(ns, steps, t1, t - 1, i);
      StepKeepsConfined(ns[t - 1], steps[t - 1], i, MarkOf(ns[t1].rooms[i].sync, i));
    }
  }

  /**
   The queue's choice at t1, copy at t3 and test at t4, with no batch picked in
   between and nothing received before the copy.
   */
  ghost predicate OneSync(ns: seq<Net>, steps: seq<Step>, t0: nat, t1: nat, t2: nat, t3: nat, t4: nat,
                          i: string, j: string) {
    && Run(ns, steps) && t0 <= t1 < t2 < t3 <= t4 < |ns| && i != j
    && j in ns[t0].rooms && i in ns[t1].rooms && i in ns[t3].rooms && i in ns[t4].rooms
    && steps[t1].Choose? && PicksNothing(steps, t1, t4, i)
    && j in ns[t2].rooms && j in ns[t2 + 1].rooms
    && ns[t2 + 1].rooms[j] == Push(ns[t2].rooms[j], Newer(ns[t0].rooms[j].sync, ns[t1].rooms[i].log))
    && (forall s :: s != i ==> MarkOf(ns[t3].rooms[i].sync, s) == MarkOf(ns[t1].rooms[i].sync, s))
    && Contained(ns[t4].rooms[i].sync, ns[t3].rooms[i].sync)
  }

  /**
   Skipping then leaves nothing behind exactly when the room said nothing between
   picking the batch and copying the marks.
   */
  lemma SkippingIsSoundIff(ns: seq<Net>, steps: seq<Step>, t0: nat, t1: nat, t2: nat, t3: nat, t4: nat,
                          i: string, j: string)
    requires OneSync(ns, steps, t0, t1, t2, t3, t4, i, j)
    ensures j in ns[t4].rooms
    ensures (forall m :: m in ns[t4].rooms[i].log ==> m in ns[t4].rooms[j].log)
            <==> MarkOf(ns[t3].rooms[i].sync, i) == MarkOf(ns[t1].rooms[i].sync, i)
  {
    var before, copied := ns[t1].rooms[i].sync, ns[t3].rooms[i].sync;
    if MarkOf(copied, i) == MarkOf(before, i) {
      SameMarks(copied, before, i);
      SkippingIsSound(ns, steps, t0, t1, t2, t3, t4, i, j);
    } else {
      RunGrows(ns, steps, t2 + 1, t4);
      var m := NewOwnMessage(ns, steps, t1, t3, i);
      RunGrows(ns, steps, t3, t4);
      assert m in ns[t4].rooms[i].log;
      StaysConfined(ns, steps, t1, t4, i);
    }
  }

  /** If the own mark moved, it moved because of a message later than it was. */
  lemma NewOwnMessage(ns: seq<Net>, steps: seq<Step>, t1: nat, t3: nat, i: string) returns (m: Message)
    requires Run(ns, steps) && t1 <= t3 < |ns| && i in ns[t1].rooms && i in ns[t3].rooms
    requires MarkOf(ns[t3].rooms[i].sync, i) != MarkOf(ns[t1].rooms[i].sync, i)
    ensures m in ns[t3].rooms[i].log && m.sender == i && !AtMost(m, MarkOf(ns[t1].rooms[i].sync, i))
  {
    RunGrows(ns, steps, t1, t3);
    RunKeepsInvariant(ns, steps, t3);
    var own := History(ns[t3], i);
    assert Faithful(ns[t3], ns[t3].rooms[i]) && IndexedFor(own, ns[t3].rooms[i].sync, i);
    m := own[|own| - 1];
    assert m in own;
    ByMembers(ns[t3].rooms[i].log, i);
  }

  lemma SameMarks(a: SyncMap, b: SyncMap, i: string)
    requires forall s :: s != i ==> MarkOf(a, s) == MarkOf(b, s)
    requires MarkOf(a, i) == MarkOf(b, i)
    ensures a == b
  {
    forall s ensures MarkOf(a, s) == MarkOf(b, s) {}
    forall s ensures s in a <==> s in b {
      assert MarkOf(a, s) == MarkOf(b, s);
    }
    forall s | s in a ensures a[s] == b[s] {
      assert MarkOf(a, s) == MarkOf(b, s);
    }
  }

  // ---- A run in which that happens ----

  const SOME_TEXT := Content(Text, None, None, "")
  const FIRST := Message("a", 1, SOME_TEXT, [])
  const SECOND := Message("a", 2, SOME_TEXT, [])
  const ROOM_A := View(Member("a", "", true), [Member("b", "", false)], "")
  const ROOM_B := View(Member("b", "", false), [Member("a", "", true)], "")

  function TwoRooms(saidByA: seq<Message>, marksOfA: SyncMap, heardByB: seq<Message>, marksOfB: SyncMap)
    : map<string, RoomState>
  {
    map["a" := RoomState(ROOM_A, saidByA, marksOfA), "b" := RoomState(ROOM_B, heardByB, marksOfB)]
  }

  const GREETED := Handshake("a", "b", map[])
  const SENT := Flight("a", "b", [FIRST])
  const AT_1: SyncMap := map["a" := 1]
  const AT_2: SyncMap := map["a" := 2]

  /** "a" says something and syncs it to "b", but says something else before the sync is over. */
  function HastySteps(): seq<Step> {
    [Create("a", ROOM_A), Create("b", ROOM_B), Send(FIRST), Open("a", "b"), Choose(GREETED), Send(SECOND),
     Deliver(SENT)]
  }

  function HastyNets(): seq<Net> {
    [Net(map[], {}, {}),
     Net(map["a" := RoomState(ROOM_A, [], map[])], {}, {}),
     Net(TwoRooms([], map[], [], map[]), {}, {}),
     Net(TwoRooms([FIRST], AT_1, [], map[]), {}, {}),
     Net(TwoRooms([FIRST], AT_1, [], map[]), {GREETED}, {}),
     Net(TwoRooms([FIRST], AT_1, [], map[]), {GREETED}, {SENT}),
     Net(TwoRooms([FIRST, SECOND], AT_2, [], map[]), {GREETED}, {SENT}),
     Net(TwoRooms([FIRST, SECOND], AT_2, [FIRST], AT_1), {GREETED}, {SENT})]
  }

  lemma HastyPushes()
    ensures Push(RoomState(ROOM_A, [], map[]), [FIRST]) == RoomState(ROOM_A, [FIRST], AT_1)
    ensures Push(RoomState(ROOM_A, [FIRST], AT_1), [SECOND]) == RoomState(ROOM_A, [FIRST, SECOND], AT_2)
    ensures Push(RoomState(ROOM_B, [], map[]), [FIRST]) == RoomState(ROOM_B, [FIRST], AT_1)
    ensures Newer(map[], [FIRST]) == [FIRST]
  {
    PushPlain(RoomState(ROOM_A, [], map[]), FIRST);
    PushPlain(RoomState(ROOM_A, [FIRST], AT_1), SECOND);
    PushPlain(RoomState(ROOM_B, [], map[]), FIRST);
    OneMessage(map[], FIRST);
    assert [FIRST] + [SECOND] == [FIRST, SECOND];
    assert AT_1["a" := 2] == AT_2;
  }

  lemma HastyRunBegins()
    ensures var ns, steps := HastyNets(), HastySteps();
            forall k :: 0 <= k < 3 ==> Enabled(ns[k], steps[k]) && ns[k + 1] == After(ns[k], steps[k])
  {
    var ns, steps := HastyNets(), HastySteps();
    HastyPushes();
    assert ns[1] == After(ns[0], steps[0]);
    assert ns[2] == After(ns[1], steps[1]);
    assert ns[3] == After(ns[2], steps[2]);
  }

  lemma HastyRunEnds()
    ensures var ns, steps := HastyNets(), HastySteps();
            forall k :: 3 <= k < 7 ==> Enabled(ns[k], steps[k]) && ns[k + 1] == After(ns[k], steps[k])
  {
    var ns, steps := HastyNets(), HastySteps();
    HastyPushes();
    assert FindPeer(ROOM_A.peers, "b") == Some(0) && FindPeer(ROOM_B.peers, "a") == Some(0);
    assert ns[4] == After(ns[3], steps[3]);
    assert ns[5] == After(ns[4], steps[4]);
    assert ns[6] == After(ns[5], steps[5]);
    assert ns[7] == After(ns[6], steps[6]);
  }

  lemma HastyRun()
    ensures Run(HastyNets(), HastySteps())
  {
    HastyRunBegins();
    HastyRunEnds();
  }

  /** At the end of it the queue of "a" would skip, and "b" lacks a message. */
  lemma SendDuringSyncIsForgotten()
    ensures OneSync(HastyNets(), HastySteps(), 3, 4, 6, 7, 7, "a", "b")
    ensures HastyNets()[7].rooms["a"].log == [FIRST, SECOND] && HastyNets()[7].rooms["b"].log == [FIRST]
  {
    HastyRun();
    HastyPushes();
  }

  /** A message that is no command is only logged and recorded. */
  lemma PushPlain(r: RoomState, m: Message)
    requires Accepts(r.sync, m) && !m.content.ctype.Cmd?
    ensures Push(r, [m]) == RoomState(r.view, r.log + [m], r.sync[m.sender := m.time])
  {
    OneMessage(r.sync, m);
    ReplaySnoc(r.view, [], m);
    assert [] + [m] == [m];
  }
}
