/**
 A network of rooms that replicate one conversation by gossip. A sync is split
 into its real parts: the server's marks are read when the handshake opens, the
 client picks the batch at some later time, and the batch arrives later still,
 any number of times or never, with anything happening in between.
 */
module Replication {
  import opened Sequences
  import opened Messages
  import opened SyncState
  import opened Commands
  import opened RoomModel

  datatype Handshake = Handshake(client: string, server: string, snapshot: SyncMap)

  datatype Flight = Flight(client: string, server: string, batch: seq<Message>)

  /** Rooms are named by the fingerprint of the identity that runs them. */
  datatype Net = Net(rooms: map<string, RoomState>, handshakes: set<Handshake>, flights: set<Flight>)

  datatype Step =
    | Create(who: string, view: View)
    | AddPeer(who: string, peer: Member)
    | Send(m: Message)
    | Open(client: string, server: string)
    | Choose(h: Handshake)
    | Deliver(f: Flight)
    | Forget(h: Handshake)
    | Lose(f: Flight)

  predicate HasPeer(n: Net, who: string, peer: string) {
    who in n.rooms && FindPeer(n.rooms[who].view.peers, peer).Some?
  }

  /** A client dials its peers, and a server answers only its own peers. */
  predicate Linked(n: Net, client: string, server: string) {
    HasPeer(n, client, server) && HasPeer(n, server, client)
  }

  /**
   Two rooms can sync whether or not they are linked at that moment: a session
   checks the link before, and either side may drop the other in between.
   */
  predicate Enabled(n: Net, step: Step) {
    match step
    case Create(who, view) => who !in n.rooms && view.self.fp == who
    case AddPeer(who, _) => who in n.rooms
    case Send(m) => m.sender in n.rooms
    case Open(client, server) => client in n.rooms && server in n.rooms
    case Choose(h) => h in n.handshakes && h.client in n.rooms
    case Deliver(f) => f in n.flights && f.server in n.rooms
    case Forget(h) => true
    case Lose(f) => true
  }

  function After(n: Net, step: Step): Net
    requires Enabled(n, step)
  {
    match step
    case Create(who, view) => n.(rooms := n.rooms[who := RoomState(view, [], map[])])
    case AddPeer(who, peer) =>
      n.(rooms := n.rooms[who := WithPeer(n.rooms[who], peer)])
    case Send(m) => n.(rooms := n.rooms[m.sender := Push(n.rooms[m.sender], [m])])
    case Open(client, server) =>
      n.(handshakes := n.handshakes + {Handshake(client, server, n.rooms[server].sync)})
    case Choose(h) =>
      n.(flights := n.flights + {Flight(h.client, h.server, Newer(h.snapshot, n.rooms[h.client].log))})
    case Deliver(f) => n.(rooms := n.rooms[f.server := Push(n.rooms[f.server], f.batch)])
    case Forget(h) => n.(handshakes := n.handshakes - {h})
    case Lose(f) => n.(flights := n.flights - {f})
  }

  /** A run from the empty network. */
  ghost predicate Run(ns: seq<Net>, steps: seq<Step>) {
    && |ns| == |steps| + 1
    && ns[0] == Net(map[], {}, {})
    && forall k :: 0 <= k < |steps| ==> Enabled(ns[k], steps[k]) && ns[k + 1] == After(ns[k], steps[k])
  }

  // ---- The invariant ----

  /** What s itself has logged of its own messages: the history everybody else copies. */
  function History(n: Net, s: string): seq<Message> {
    if s in n.rooms then By(n.rooms[s].log, s) else []
  }

  /** b is the stretch of a that starts at k. */
  predicate StretchAt(b: seq<Message>, a: seq<Message>, k: nat) {
    k + |b| <= |a| && b == a[k..k + |b|]
  }

  /** b is a stretch of a that leaves no gap after a holder of p. */
  ghost predicate Lands(b: seq<Message>, a: seq<Message>, p: seq<Message>) {
    exists k: nat :: k <= |p| && StretchAt(b, a, k)
  }

  /** A room is exactly indexed, and holds a gap-free prefix of every sender's history. */
  ghost predicate Faithful(n: Net, r: RoomState) {
    Exact(r) && forall s :: By(r.log, s) <= History(n, s)
  }

  ghost predicate BatchLands(n: Net, batch: seq<Message>, r: RoomState) {
    forall s :: Lands(By(batch, s), History(n, s), By(r.log, s))
  }

  ghost predicate Invariant(n: Net) {
    && (forall s :: Increasing(History(n, s)))
    && (forall i :: i in n.rooms ==> Faithful(n, n.rooms[i]))
    && (forall h :: h in n.handshakes ==> h.server in n.rooms && Below(h.snapshot, n.rooms[h.server].sync))
    && (forall f :: f in n.flights ==> f.server in n.rooms && BatchLands(n, f.batch, n.rooms[f.server]))
  }

  lemma HistorySender(n: Net, s: string)
    ensures forall i :: 0 <= i < |History(n, s)| ==> History(n, s)[i].sender == s
  {
    if s in n.rooms {
      ByMembers(n.rooms[s].log, s);
      forall i | 0 <= i < |History(n, s)| ensures History(n, s)[i].sender == s {
        assert History(n, s)[i] in History(n, s);
      }
    }
  }

  function Longer(a: seq<Message>, b: seq<Message>): seq<Message> {
    if |a| <= |b| then b else a
  }

  lemma LongerOfPrefix(a: seq<Message>, p: seq<Message>, end: nat)
    requires p <= a && end <= |a|
    ensures p + (if end <= |p| then [] else a[|p|..end]) == Longer(p, a[..end])
  {
    if end > |p| {
      assert p + a[|p|..end] == a[..end];
    }
  }

  /** A batch that lands extends what the room holds of a sender to the end of the stretch, or not at all. */
  lemma PushOfStretch(n: Net, r: RoomState, batch: seq<Message>, s: string, k: nat)
    requires Increasing(History(n, s)) && Faithful(n, r)
    requires k <= |By(r.log, s)| && StretchAt(By(batch, s), History(n, s), k)
    ensures By(Push(r, batch).log, s) == Longer(By(r.log, s), History(n, s)[..k + |By(batch, s)|])
  {
    var a, p := History(n, s), By(r.log, s);
    var end := k + |By(batch, s)|;
    HistorySender(n, s);
    ByConcat(r.log, Newer(r.sync, batch), s);
    NewerBy(r.sync, batch, s);
    assert p <= a && IndexedFor(p, r.sync, s);
    NewerOfSegment(r.sync, s, a, p, k, end);
    LongerOfPrefix(a, p, end);
  }

  /** Delivery keeps a room faithful, and no room learns of its own history from others. */
  lemma PushKeepsFaithful(n: Net, r: RoomState, batch: seq<Message>)
    requires Invariant(n) && Faithful(n, r) && BatchLands(n, batch, r)
    ensures Faithful(n, Push(r, batch))
    ensures forall s :: By(r.log, s) == History(n, s) ==> By(Push(r, batch).log, s) == History(n, s)
  {
    PushKeepsIndex(r, batch);
    forall s
      ensures By(Push(r, batch).log, s) <= History(n, s)
      ensures By(r.log, s) == History(n, s) ==> By(Push(r, batch).log, s) == History(n, s)
    {
      assert Lands(By(batch, s), History(n, s), By(r.log, s));
      var k: nat :| k <= |By(r.log, s)| && StretchAt(By(batch, s), History(n, s), k);
      PushOfStretch(n, r, batch, s, k);
    }
  }

  /** A batch chosen against marks that the server already had, lands there. */
  lemma ChosenBatchLands(n: Net, r: RoomState, log: seq<Message>, snapshot: SyncMap)
    requires forall s :: Increasing(History(n, s)) && By(log, s) <= History(n, s)
    requires Faithful(n, r) && Below(snapshot, r.sync)
    ensures BatchLands(n, Newer(snapshot, log), r)
  {
    forall s ensures Lands(By(Newer(snapshot, log), s), History(n, s), By(r.log, s)) {
      var k := ChosenStretch(n, r, log, snapshot, s);
    }
  }

  lemma ChosenStretch(n: Net, r: RoomState, log: seq<Message>, snapshot: SyncMap, s: string) returns (k: nat)
    requires Increasing(History(n, s)) && By(log, s) <= History(n, s)
    requires Faithful(n, r) && Below(snapshot, r.sync)
    ensures k <= |By(r.log, s)| && StretchAt(By(Newer(snapshot, log), s), History(n, s), k)
    ensures k + |By(Newer(snapshot, log), s)| == |By(log, s)|
  {
    var a, q, p := History(n, s), By(log, s), By(r.log, s);
    HistorySender(n, s);
    NewerBy(snapshot, log, s);
    assert forall i :: 0 <= i < |q| ==> q[i] == a[i];
    k := NewerOfPrefix(snapshot, s, q);
    assert q[k..] == a[k..|q|];
    assert IndexedFor(p, r.sync, s);
    if |p| < |q| {
      AcceptsBeyondPrefix(r.sync, s, a, p, |p|);
      assert Accepts(snapshot, q[|p|]);
    }
  }

  // ---- Every step keeps the invariant ----

  /** Rooms are never lost, logs only grow, marks never go back. */
  ghost predicate Grows(n: Net, w: Net) {
    forall i :: i in n.rooms ==>
      i in w.rooms && n.rooms[i].log <= w.rooms[i].log && Below(n.rooms[i].sync, w.rooms[i].sync)
  }

  lemma StepGrows(n: Net, step: Step)
    requires Enabled(n, step)
    ensures Grows(n, After(n, step))
  {
    match step
    case Send(m) => PushNeverGoesBack(n.rooms[m.sender], [m]);
    case Deliver(f) => PushNeverGoesBack(n.rooms[f.server], f.batch);
    case _ =>
  }

  lemma HistoryGrows(n: Net, w: Net, s: string)
    requires Grows(n, w)
    ensures History(n, s) <= History(w, s)
  {
    if s in n.rooms {
      FilterPrefix(SentBy(s), n.rooms[s].log, w.rooms[s].log);
    }
  }

  /** Faithful rooms and landing batches stay so while histories and logs grow. */
  lemma FlightsStillLand(n: Net, w: Net, batch: seq<Message>, server: string)
    requires Grows(n, w) && server in n.rooms && BatchLands(n, batch, n.rooms[server])
    ensures BatchLands(w, batch, w.rooms[server])
  {
    forall s ensures Lands(By(batch, s), History(w, s), By(w.rooms[server].log, s)) {
      assert Lands(By(batch, s), History(n, s), By(n.rooms[server].log, s));
      var k: nat :| k <= |By(n.rooms[server].log, s)| && StretchAt(By(batch, s), History(n, s), k);
      HistoryGrows(n, w, s);
      FilterPrefix(SentBy(s), n.rooms[server].log, w.rooms[server].log);
      assert StretchAt(By(batch, s), History(w, s), k);
    }
  }

  lemma FaithfulInLaterNet(n: Net, w: Net, r: RoomState)
    requires Grows(n, w) && Faithful(n, r)
    ensures Faithful(w, r)
  {
    forall s ensures By(r.log, s) <= History(w, s) {
      HistoryGrows(n, w, s);
    }
  }

  /** The rooms' part of the invariant carries over the messages that are under way. */
  lemma InvariantFromRooms(n: Net, w: Net)
    requires Invariant(n) && Grows(n, w)
    requires w.handshakes <= n.handshakes && w.flights <= n.flights
    requires forall s :: Increasing(History(w, s))
    requires forall i :: i in w.rooms ==> Faithful(w, w.rooms[i])
    ensures Invariant(w)
  {
    forall f | f in w.flights ensures f.server in w.rooms && BatchLands(w, f.batch, w.rooms[f.server]) {
      FlightsStillLand(n, w, f.batch, f.server);
    }
  }

  /** A local send adds at most the message, and only to its sender's messages. */
  lemma SendBy(r: RoomState, m: Message, s: string)
    ensures By(Push(r, [m]).log, s) == By(r.log, s) + if s == m.sender then Newer(r.sync, [m]) else []
  {
    OneMessage(r.sync, m);
    ByConcat(r.log, Newer(r.sync, [m]), s);
    FilterSnoc(SentBy(s), [], m);
    assert [] + [m] == [m];
  }

  lemma SendKeepsIncreasing(r: RoomState, m: Message)
    requires Exact(r) && Increasing(By(r.log, m.sender))
    ensures Increasing(By(r.log, m.sender) + Newer(r.sync, [m]))
  {
    OneMessage(r.sync, m);
    assert IndexedFor(By(r.log, m.sender), r.sync, m.sender);
  }

  lemma SendKeepsInvariant(n: Net, m: Message)
    requires Invariant(n) && m.sender in n.rooms
    ensures Invariant(After(n, Send(m)))
  {
    var w, r := After(n, Send(m)), n.rooms[m.sender];
    StepGrows(n, Send(m));
    forall s
      ensures Increasing(History(w, s)) && By(w.rooms[m.sender].log, s) <= History(w, s)
    {
      SendBy(r, m, s);
      assert Increasing(History(n, s));
      assert Faithful(n, r) && By(r.log, s) <= History(n, s);
      SendKeepsIncreasing(r, m);
    }
    PushKeepsIndex(r, [m]);
    forall i | i in w.rooms ensures Faithful(w, w.rooms[i]) {
      if i != m.sender {
        assert Faithful(n, n.rooms[i]);
        FaithfulInLaterNet(n, w, n.rooms[i]);
      }
    }
    InvariantFromRooms(n, w);
  }

  lemma DeliverKeepsInvariant(n: Net, f: Flight)
    requires Invariant(n) && f in n.flights
    ensures Invariant(After(n, Deliver(f)))
    ensures forall s :: History(After(n, Deliver(f)), s) == History(n, s)
  {
    var w, r := After(n, Deliver(f)), n.rooms[f.server];
    StepGrows(n, Deliver(f));
    PushKeepsFaithful(n, r, f.batch);
    forall i | i in w.rooms ensures Faithful(w, w.rooms[i]) {
      assert Faithful(n, w.rooms[i]);
      FaithfulInLaterNet(n, w, w.rooms[i]);
    }
    forall s ensures History(w, s) == History(n, s) && Increasing(History(w, s)) {
      assert Increasing(History(n, s));
    }
    InvariantFromRooms(n, w);
  }

  lemma RoomsUntouched(n: Net, w: Net)
    requires Invariant(n)
    requires n.rooms.Keys <= w.rooms.Keys
    requires forall i :: i in w.rooms ==>
      if i in n.rooms then w.rooms[i].log == n.rooms[i].log && w.rooms[i].sync == n.rooms[i].sync
      else w.rooms[i].log == [] && w.rooms[i].sync == map[]
    ensures Grows(n, w)
    ensures forall s :: History(w, s) == History(n, s)
    ensures forall i :: i in w.rooms ==> Faithful(w, w.rooms[i])
  {
    forall s ensures History(w, s) == History(n, s) {}
    forall i | i in w.rooms ensures Faithful(w, w.rooms[i]) {
      if i in n.rooms {
        assert Faithful(n, n.rooms[i]);
        assert forall s :: By(w.rooms[i].log, s) == By(n.rooms[i].log, s);
      } else {
        forall s ensures IndexedFor(By([], s), map[], s) {}
      }
    }
  }

  lemma ChooseKeepsInvariant(n: Net, h: Handshake)
    requires Invariant(n) && Enabled(n, Choose(h))
    ensures Invariant(After(n, Choose(h)))
  {
    var w := After(n, Choose(h));
    RoomsUntouched(n, w);
    assert Faithful(n, n.rooms[h.client]) && Faithful(n, n.rooms[h.server]);
    ChosenBatchLands(n, n.rooms[h.server], n.rooms[h.client].log, h.snapshot);
    forall f | f in w.flights ensures f.server in w.rooms && BatchLands(w, f.batch, w.rooms[f.server]) {
      FlightsStillLand(n, w, f.batch, f.server);
    }
  }

  lemma OpenKeepsInvariant(n: Net, client: string, server: string)
    requires Invariant(n) && Enabled(n, Open(client, server))
    ensures Invariant(After(n, Open(client, server)))
  {
    var w := After(n, Open(client, server));
    RoomsUntouched(n, w);
    forall f | f in w.flights ensures f.server in w.rooms && BatchLands(w, f.batch, w.rooms[f.server]) {
      FlightsStillLand(n, w, f.batch, f.server);
    }
  }

  lemma StepKeepsInvariant(n: Net, step: Step)
    requires Invariant(n) && Enabled(n, step)
    ensures Invariant(After(n, step))
  {
    match step
    case Send(m) => SendKeepsInvariant(n, m);
    case Deliver(f) => DeliverKeepsInvariant(n, f);
    case Choose(h) => ChooseKeepsInvariant(n, h);
    case Open(client, server) => OpenKeepsInvariant(n, client, server);
    case _ =>
      RoomsUntouched(n, After(n, step));
      InvariantFromRooms(n, After(n, step));
  }

  lemma {:induction false} RunKeepsInvariant(ns: seq<Net>, steps: seq<Step>, k: nat)
    requires Run(ns, steps) && k < |ns|
    ensures Invariant(ns[k])
  {
    if k > 0 {
      RunKeepsInvariant(ns, steps, k - 1);
      StepKeepsInvariant(ns[k - 1], steps[k - 1]);
    }
  }

  ghost predicate Growing(ns: seq<Net>) {
    forall k :: 0 <= k < |ns| - 1 ==> Grows(ns[k], ns[k + 1])
  }

  lemma RunIsGrowing(ns: seq<Net>, steps: seq<Step>)
    requires Run(ns, steps)
    ensures Growing(ns)
  {
    forall k | 0 <= k < |steps| ensures Grows(ns[k], ns[k + 1]) {
      StepGrows(ns[k], steps[k]);
    }
  }

  lemma {:induction false} ChainGrows(ns: seq<Net>, j: nat, k: nat)
    requires Growing(ns) && j <= k < |ns|
    ensures Grows(ns[j], ns[k])
    decreases k
  {
    if j < k {
      ChainGrows(ns, j, k - 1);
      GrowsIsTransitive(ns[j], ns[k - 1], ns[k]);
    }
  }

  lemma RunGrows(ns: seq<Net>, steps: seq<Step>, j: nat, k: nat)
    requires Run(ns, steps) && j <= k < |ns|
    ensures Grows(ns[j], ns[k])
  {
    RunIsGrowing(ns, steps);
    ChainGrows(ns, j, k);
  }

  lemma GrowsIsTransitive(a: Net, b: Net, c: Net)
    requires Grows(a, b) && Grows(b, c)
    ensures Grows(a, c)
  {
    forall i | i in a.rooms ensures a.rooms[i].log <= c.rooms[i].log {
      assert b.rooms[i].log <= c.rooms[i].log;
    }
  }

  // ---- Main results, for every run ----

  /**
   In every state of every run, what a room holds of a sender is a gap-free
   prefix of what that sender logged itself, no message is logged twice, and
   the marks are the times of the last messages held, which are the latest.
   */
  lemma PrefixInEveryRun(ns: seq<Net>, steps: seq<Step>, k: nat, i: string)
    requires Run(ns, steps) && k < |ns| && i in ns[k].rooms
    ensures forall s :: By(ns[k].rooms[i].log, s) <= History(ns[k], s)
    ensures NoDuplicates(ns[k].rooms[i].log)
    ensures Exact(ns[k].rooms[i])
    ensures forall m :: m in ns[k].rooms[i].log ==>
              m.sender in ns[k].rooms[i].sync && m.time <= ns[k].rooms[i].sync[m.sender]
  {
    RunKeepsInvariant(ns, steps, k);
    FaithfulIsOrdered(ns[k], ns[k].rooms[i]);
    OrderedHasNoDuplicates(ns[k].rooms[i].log);
    MarksAreMaxima(ns[k].rooms[i].log, ns[k].rooms[i].sync);
  }

  lemma FaithfulIsOrdered(n: Net, r: RoomState)
    requires (forall s :: Increasing(History(n, s))) && Faithful(n, r)
    ensures Ordered(r.log)
  {
    forall s ensures Increasing(By(r.log, s)) {
      assert Increasing(History(n, s)) && By(r.log, s) <= History(n, s);
    }
  }

  /** Pushing what q holds beyond old marks of r makes r, for every sender, the longer of r and q. */
  lemma PushOfDeltaJoins(n: Net, r: RoomState, q: RoomState, snapshot: SyncMap)
    requires (forall s :: Increasing(History(n, s))) && Faithful(n, r) && Faithful(n, q)
    requires Below(snapshot, r.sync)
    ensures var p := Push(r, Newer(snapshot, q.log));
            && (forall s :: By(p.log, s) == Longer(By(r.log, s), By(q.log, s)))
            && IsJoin(p.sync, r.sync, q.sync)
  {
    var batch := Newer(snapshot, q.log);
    var p := Push(r, batch);
    forall s ensures By(p.log, s) == Longer(By(r.log, s), By(q.log, s)) {
      var k := ChosenStretch(n, r, q.log, snapshot, s);
      PushOfStretch(n, r, batch, s, k);
      assert By(q.log, s) == History(n, s)[..|By(q.log, s)|];
    }
    PushKeepsIndex(r, batch);
    forall s
      ensures s in p.sync <==> s in r.sync || s in q.sync
      ensures s in p.sync ==> p.sync[s] == JoinAt(r.sync, q.sync, s)
    {
      MarksJoin(n, p, r, q, s);
    }
  }

  lemma MarksJoin(n: Net, p: RoomState, r: RoomState, q: RoomState, s: string)
    requires Increasing(History(n, s)) && Exact(p) && Faithful(n, r) && Faithful(n, q)
    requires By(p.log, s) == Longer(By(r.log, s), By(q.log, s))
    ensures s in p.sync <==> s in r.sync || s in q.sync
    ensures s in p.sync ==> p.sync[s] == JoinAt(r.sync, q.sync, s)
  {
    var a, pr, pq := History(n, s), By(r.log, s), By(q.log, s);
    assert IndexedFor(By(p.log, s), p.sync, s) && IndexedFor(pr, r.sync, s) && IndexedFor(pq, q.sync, s);
    if pr != [] && pq != [] {
      assert pr[|pr| - 1] == a[|pr| - 1] && pq[|pq| - 1] == a[|pq| - 1];
    }
  }

  /**
   Sync is a join of vector clocks, however stale. The marks of j are read at
   t0, i picks the batch at t1, and it is pushed at t2: j then has the pointwise
   maximum of its marks and those i had at t1, and per sender the longer log.
   */
  lemma StaleDeliveryIsJoin(ns: seq<Net>, steps: seq<Step>, t0: nat, t1: nat, t2: nat, i: string, j: string)
    requires Run(ns, steps) && t0 <= t1 <= t2 < |ns|
    requires j in ns[t0].rooms && i in ns[t1].rooms
    ensures j in ns[t2].rooms
    ensures var q, r := ns[t1].rooms[i], ns[t2].rooms[j];
            var p := Push(r, Newer(ns[t0].rooms[j].sync, q.log));
            && IsJoin(p.sync, r.sync, q.sync)
            && forall s :: By(p.log, s) == Longer(By(r.log, s), By(q.log, s))
  {
    RunKeepsInvariant(ns, steps, t2);
    RunKeepsInvariant(ns, steps, t1);
    RunGrows(ns, steps, t0, t2);
    RunGrows(ns, steps, t1, t2);
    FaithfulInLaterNet(ns[t1], ns[t2], ns[t1].rooms[i]);
    PushOfDeltaJoins(ns[t2], ns[t2].rooms[j], ns[t1].rooms[i], ns[t0].rooms[j].sync);
  }

  function NotIn(log: seq<Message>): Message -> bool {
    (m: Message) => m !in log
  }

  lemma AcceptsIffMissing(n: Net, q: RoomState, r: RoomState, m: Message)
    requires Increasing(History(n, m.sender)) && Faithful(n, r) && Faithful(n, q) && m in q.log
    ensures Accepts(r.sync, m) <==> m !in r.log
  {
    var s := m.sender;
    var a, p, own := History(n, s), By(r.log, s), By(q.log, s);
    ByMembers(q.log, s);
    ByMembers(r.log, s);
    var x :| 0 <= x < |own| && own[x] == m;
    assert a[x] == m;
    assert IndexedFor(p, r.sync, s);
    AcceptsBeyondPrefix(r.sync, s, a, p, x);
    if x < |p| {
      assert p[x] == m;
    } else {
      forall y | 0 <= y < |p| ensures p[y] != m {
        assert p[y] == a[y] && a[y].time < a[x].time;
      }
    }
  }

  /** The batch picked against a server's current marks is exactly what the server lacks, in order. */
  lemma DeltaIsExactlyMissing(ns: seq<Net>, steps: seq<Step>, k: nat, i: string, j: string)
    requires Run(ns, steps) && k < |ns| && i in ns[k].rooms && j in ns[k].rooms
    ensures var q, r := ns[k].rooms[i], ns[k].rooms[j];
            Newer(r.sync, q.log) == Filter(NotIn(r.log), q.log)
  {
    RunKeepsInvariant(ns, steps, k);
    var q, r := ns[k].rooms[i], ns[k].rooms[j];
    forall x | 0 <= x < |q.log| ensures Accepts(r.sync, q.log[x]) == (q.log[x] !in r.log) {
      AcceptsIffMissing(ns[k], q, r, q.log[x]);
    }
    FilterAgree(AcceptedBy(r.sync), NotIn(r.log), q.log);
  }

  /** After a delivery the client has nothing more to send, and delivering the batch again does nothing. */
  lemma NothingLeftAfterDelivery(ns: seq<Net>, steps: seq<Step>, k: nat, i: string, j: string)
    requires Run(ns, steps) && k < |ns| && i in ns[k].rooms && j in ns[k].rooms
    ensures var q, r := ns[k].rooms[i], ns[k].rooms[j];
            var batch := Newer(r.sync, q.log);
            var p := Push(r, batch);
            Newer(p.sync, q.log) == [] && Push(p, batch) == p
  {
    RunKeepsInvariant(ns, steps, k);
    var q, r := ns[k].rooms[i], ns[k].rooms[j];
    var batch := Newer(r.sync, q.log);
    PushOfDeltaJoins(ns[k], r, q, r.sync);
    var p := Push(r, batch);
    FaithfulIsOrdered(ns[k], q);
    MarksAreMaxima(q.log, q.sync);
    forall x | 0 <= x < |q.log| ensures !Accepts(p.sync, q.log[x]) {}
    FilterNone(AcceptedBy(p.sync), q.log);
    NewerMembers(r.sync, q.log);
    FilterNone(AcceptedBy(p.sync), batch);
    NothingNewNoEffect(p, batch);
  }

  ghost predicate SameContents(a: RoomState, b: RoomState) {
    && a.sync == b.sync
    && (forall s :: By(a.log, s) == By(b.log, s))
    && forall m :: m in a.log <==> m in b.log
  }

  lemma SameBySender(a: RoomState, b: RoomState)
    requires Exact(a) && Exact(b)
    requires forall s :: By(a.log, s) == By(b.log, s)
    ensures SameContents(a, b)
  {
    SameMembers(a.log, b.log);
    forall s ensures IndexedFor(By(a.log, s), b.sync, s) {
      assert IndexedFor(By(b.log, s), b.sync, s);
    }
    IndexIsUnique(a.log, a.sync, b.sync);
  }

  /** One sync in each direction makes a pair agree. */
  lemma ExchangeMakesPairAgree(ns: seq<Net>, steps: seq<Step>, k: nat, i: string, j: string)
    requires Run(ns, steps) && k < |ns| && i in ns[k].rooms && j in ns[k].rooms
    ensures var q, r := ns[k].rooms[i], ns[k].rooms[j];
            var p := Push(r, Newer(r.sync, q.log));
            SameContents(p, Push(q, Newer(q.sync, p.log)))
  {
    RunKeepsInvariant(ns, steps, k);
    var n, q, r := ns[k], ns[k].rooms[i], ns[k].rooms[j];
    var p := Push(r, Newer(r.sync, q.log));
    PushOfDeltaJoins(n, r, q, r.sync);
    ChosenBatchLands(n, r, q.log, r.sync);
    PushKeepsFaithful(n, r, Newer(r.sync, q.log));
    PushOfDeltaJoins(n, q, p, q.sync);
    PushKeepsIndex(q, Newer(q.sync, p.log));
    forall s ensures By(p.log, s) == Longer(By(q.log, s), By(p.log, s)) {}
    SameBySender(p, Push(q, Newer(q.sync, p.log)));
  }

  // ---- Where a batch under way comes from ----

  lemma {:induction false} HandshakeOrigin(ns: seq<Net>, steps: seq<Step>, k: nat, h: Handshake) returns (t0: nat)
    requires Run(ns, steps) && k < |ns| && h in ns[k].handshakes
    ensures t0 <= k && h.server in ns[t0].rooms && h.snapshot == ns[t0].rooms[h.server].sync
    decreases k
  {
    if h in ns[k - 1].handshakes {
      t0 := HandshakeOrigin(ns, steps, k - 1, h);
    } else {
      t0 := k - 1;
    }
  }

  lemma {:induction false} FlightOrigin(ns: seq<Net>, steps: seq<Step>, k: nat, f: Flight) returns (t0: nat, t1: nat)
    requires Run(ns, steps) && k < |ns| && f in ns[k].flights
    ensures t0 <= t1 <= k && f.server in ns[t0].rooms && f.client in ns[t1].rooms
    ensures f.batch == Newer(ns[t0].rooms[f.server].sync, ns[t1].rooms[f.client].log)
    decreases k
  {
    if f in ns[k - 1].flights {
      t0, t1 := FlightOrigin(ns, steps, k - 1, f);
    } else {
      assert steps[k - 1].Choose?;
      t0 := HandshakeOrigin(ns, steps, k - 1, steps[k - 1].h);
      t1 := k - 1;
    }
  }

  /** Every delivery of every run is the join of the server's state with one the client had since the handshake. */
  lemma EveryDeliveryIsJoin(ns: seq<Net>, steps: seq<Step>, k: nat) returns (t: nat)
    requires Run(ns, steps) && k < |steps| && steps[k].Deliver?
    ensures var f := steps[k].f;
            && t <= k && f.client in ns[t].rooms && f.server in ns[k].rooms && f.server in ns[k + 1].rooms
            && var q, r, p := ns[t].rooms[f.client], ns[k].rooms[f.server], ns[k + 1].rooms[f.server];
            && IsJoin(p.sync, r.sync, q.sync)
            && forall s :: By(p.log, s) == Longer(By(r.log, s), By(q.log, s))
  {
    var f := steps[k].f;
    var t0, t1 := FlightOrigin(ns, steps, k, f);
    StaleDeliveryIsJoin(ns, steps, t0, t1, k, f.client, f.server);
    t := t1;
  }
}
