/**
 A world of rooms and of any number of sessions between them that run at the
 same time, as the queues and handlers of the program do. Every peer may be
 client and server of several sessions at once; its room may send, list peers
 and receive other batches at any moment of them. All of it is a run of
 Replication.
 */
module World {
  import opened Sequences
  import opened Messages
  import opened SyncState
  import opened Commands
  import opened RoomModel
  import opened Sessions
  import opened SessionSafety
  import opened SessionAsSync
  import Blobs
  import R = Replication

  /**
   A session from client to server. What setup says of the client's log and of
   its membership is what turns out when the session comes to it. The room in st
   is out of date while others use it. picked is the client's room when it picked
   its batch.
   */
  datatype Link = Link(client: string, server: string, setup: Setup, st: Session, picked: Option<RoomState>)

  datatype State = State(rooms: map<string, RoomState>, links: seq<Link>)

  datatype Act =
    | Create(who: string, view: View)
    | Join(who: string, peer: Member)
    | Say(m: Message)
    | Begin(client: string, server: string, setup: Setup, files: Blobs.Files)
    | Move(x: nat, step: Step)

  predicate Lists(w: State, who: string, peer: string) {
    who in w.rooms && FindPeer(w.rooms[who].view.peers, peer).Some?
  }

  /** A session with the server's room as it is now. */
  function Now(w: State, x: nat): Session
    requires x < |w.links| && w.links[x].server in w.rooms
  {
    w.links[x].st.(room := w.rooms[w.links[x].server])
  }

  /** The client picks from its log as it is, and the server looks the client up in its peers as they are. */
  predicate AsItTurnsOut(w: State, l: Link, step: Step) {
    && (step.ClientMoves? && l.st.client == CGreet(7) ==>
          l.client in w.rooms && l.setup.log == w.rooms[l.client].log)
    && (step.ServerMoves? && l.st.server == SGreet(4) ==> (l.setup.admitted <==> Lists(w, l.server, l.client)))
  }

  predicate Possible(w: State, act: Act) {
    match act
    case Create(who, view) => who !in w.rooms && view.self.fp == who
    case Join(who, _) => who in w.rooms
    case Say(m) => m.sender in w.rooms
    case Begin(client, server, _, _) => Lists(w, client, server) && server in w.rooms
    case Move(x, step) =>
      && x < |w.links| && w.links[x].server in w.rooms && !Outside(step)
      && Enabled(w.links[x].setup, Now(w, x), step) && AsItTurnsOut(w, w.links[x], step)
  }

  /** The room that the client picks from, if this is where it picks. */
  function PickedAfter(w: State, l: Link, step: Step): Option<RoomState> {
    if step.ClientMoves? && l.st.client == CGreet(7) && l.client in w.rooms then Some(w.rooms[l.client]) else l.picked
  }

  function Next(w: State, act: Act): State
    requires Possible(w, act)
  {
    match act
    case Create(who, view) => w.(rooms := w.rooms[who := RoomState(view, [], map[])])
    case Join(who, peer) => w.(rooms := w.rooms[who := WithPeer(w.rooms[who], peer)])
    case Say(m) => w.(rooms := w.rooms[m.sender := Push(w.rooms[m.sender], [m])])
    case Begin(client, server, setup, files) =>
      w.(links := w.links + [Link(client, server, setup, Start(w.rooms[server], files), None)])
    case Move(x, step) =>
      var l := w.links[x];
      var st := After(l.setup, Now(w, x), step);
      State(w.rooms[l.server := st.room], w.links[x := l.(st := st, picked := PickedAfter(w, l, step))])
  }

  ghost predicate Run(ws: seq<State>, acts: seq<Act>) {
    && |ws| == |acts| + 1
    && ws[0] == State(map[], [])
    && forall k :: 0 <= k < |acts| ==> Possible(ws[k], acts[k]) && ws[k + 1] == Next(ws[k], acts[k])
  }

  // ---- The network that a world shows ----

  /** What is known of a session by itself. */
  ghost predicate LinkInv(l: Link) {
    MarksInv(l.setup, l.st) && BlobsInv(l.setup, l.st) && ChosenInv(l.setup, l.st)
  }

  predicate Carries(n: R.Net, l: Link, batch: seq<Message>) {
    l.picked.Some? && R.Flight(l.client, l.server, batch) in n.flights
  }

  /** The marks of a session are a handshake of the network, and its batch, wherever it is, is one under way there. */
  ghost predicate InNet(n: R.Net, l: Link) {
    && l.client in n.rooms && l.server in n.rooms
    && (l.st.marks.Some? ==> R.Handshake(l.client, l.server, l.st.marks.value) in n.handshakes)
    && (BatchOf(l.st.client).Some? ==> Carries(n, l, BatchOf(l.st.client).value))
    && (forall f :: InChan(l.st.up, f) && f.Batch? ==> Carries(n, l, f.msgs))
    && (l.st.newMsgs.Some? && l.st.newMsgs.value != [] ==> Carries(n, l, l.st.newMsgs.value))
    && (l.picked.Some? ==> l.picked.value.log == l.setup.log && R.Faithful(n, l.picked.value))
  }

  ghost predicate Shows(n: R.Net, w: State) {
    && n.rooms == w.rooms
    && forall x :: 0 <= x < |w.links| ==> LinkInv(w.links[x]) && InNet(n, w.links[x])
  }

  lemma StepKeepsLinkInv(l: Link, room: RoomState, step: Step)
    requires LinkInv(l) && Enabled(l.setup, l.st.(room := room), step)
    ensures LinkInv(l.(st := After(l.setup, l.st.(room := room), step)))
  {
    var st := l.st.(room := room);
    assert MarksInv(l.setup, st) && BlobsInv(l.setup, st) && ChosenInv(l.setup, st);
    StepKeepsSizes(l.setup, st, step);
    StepKeepsChosen(l.setup, st, step);
  }

  lemma InLaterNet(n: R.Net, m: R.Net, l: Link)
    requires InNet(n, l) && R.Grows(n, m) && n.handshakes <= m.handshakes && n.flights <= m.flights
    ensures InNet(m, l)
  {
    if l.picked.Some? {
      R.FaithfulInLaterNet(n, m, l.picked.value);
    }
  }

  /** The step of the network that a move of a session amounts to, if any. */
  function NetStep(w: State, act: Act): Option<R.Step>
    requires Possible(w, act)
  {
    match act
    case Create(who, view) => Some(R.Create(who, view))
    case Join(who, peer) => Some(R.AddPeer(who, peer))
    case Say(m) => Some(R.Send(m))
    case Begin(_, _, _, _) => None
    case Move(x, step) =>
      var l, st := w.links[x], Now(w, x);
      var next := After(l.setup, st, step);
      if next.marks != st.marks then Some(R.Open(l.client, l.server))
      else if BatchOf(next.client).Some? && st.client.CGreet? && st.marks.Some? then
        Some(R.Choose(R.Handshake(l.client, l.server, st.marks.value)))
      else if next.pushes != st.pushes && st.newMsgs.Some? && st.newMsgs.value != [] then
        Some(R.Deliver(R.Flight(l.client, l.server, st.newMsgs.value)))
      else None
  }

  function NetAfter(n: R.Net, step: Option<R.Step>): R.Net
    requires step.Some? ==> R.Enabled(n, step.value)
  {
    if step.None? then n else R.After(n, step.value)
  }

  /** What a step of a session does to the parts that the network sees. */
  lemma MoveIs(setup: Setup, st: Session, step: Step)
    requires MarksInv(setup, st) && Enabled(setup, st, step) && !Outside(step)
    ensures var next := After(setup, st, step);
            && (next.marks != st.marks ==>
                  next.marks == Some(st.room.sync) && next.pushes == st.pushes && next.client == st.client)
            && (BatchOf(next.client).Some? ==>
                  BatchOf(next.client) == BatchOf(st.client)
                  || (step.ClientMoves? && st.client == CGreet(7) && st.marks.Some? && next.marks == st.marks
                      && next.pushes == st.pushes
                      && BatchOf(next.client).value == Newer(st.marks.value, setup.log)))
            && (forall f :: InChan(next.up, f) && f.Batch? ==> InChan(st.up, f) || BatchOf(st.client) == Some(f.msgs))
            && (next.newMsgs.Some? && next.newMsgs.value != [] ==>
                  next.newMsgs == st.newMsgs || InChan(st.up, Batch(next.newMsgs.value)))
  {
    match step
    case ClientMoves => ClientMoveIs(setup, st);
    case ServerMoves => ServerMoveIs(setup, st);
    case _ =>
  }

  lemma ClientMoveIs(setup: Setup, st: Session)
    requires MarksInv(setup, st) && ClientCanMove(setup, st)
    ensures var next := ClientMove(setup, st);
            && (BatchOf(next.client).Some? ==>
                  BatchOf(next.client) == BatchOf(st.client)
                  || (st.client == CGreet(7) && st.marks.Some?
                      && BatchOf(next.client).value == Newer(st.marks.value, setup.log)))
            && (forall f :: InChan(next.up, f) && f.Batch? ==> InChan(st.up, f) || BatchOf(st.client) == Some(f.msgs))
  {
    match ClientAct(setup, st.client)
    case Read =>
      if st.down.wire != [] {
        assert InChan(st.down, st.down.wire[0]);
        BatchAfterRead(setup, st.client, st.down.wire[0]);
      }
    case Work(_) =>
    case Halt =>
    case _ => BatchAfterAct(setup, st.client);
  }

  lemma ServerMoveIs(setup: Setup, st: Session)
    requires ServerCanMove(st)
    ensures var next := ServerMove(setup, st);
            && (next.marks != st.marks ==> next.marks == Some(st.room.sync) && next.pushes == st.pushes)
            && (next.newMsgs.Some? && next.newMsgs.value != [] ==>
                  next.newMsgs == st.newMsgs || InChan(st.up, Batch(next.newMsgs.value)))
  {
    if ServerAct(st.server, st.room.sync).Read? && st.up.wire != [] {
      assert InChan(st.up, st.up.wire[0]);
    }
  }

  /** The step of the network can be made, and does to the rooms what the move does. */
  lemma RoomsMoved(n: R.Net, w: State, x: nat, step: Step)
    requires Shows(n, w) && Possible(w, Move(x, step))
    ensures NetStep(w, Move(x, step)).Some? ==> R.Enabled(n, NetStep(w, Move(x, step)).value)
    ensures NetAfter(n, NetStep(w, Move(x, step))).rooms == Next(w, Move(x, step)).rooms
  {
    var l, st := w.links[x], Now(w, x);
    var next := After(l.setup, st, step);
    assert LinkInv(l) && InNet(n, l) && MarksInv(l.setup, st);
    StepsAreRoomSteps(l.setup, st, step);
    MoveIs(l.setup, st, step);
    if next.pushes != st.pushes && st.newMsgs.value == [] {
      NothingNewNoEffect(st.room, []);
    }
    if next.room == st.room {
      assert w.rooms[l.server := next.room] == w.rooms;
    }
  }

  lemma NetGrows(n: R.Net, step: Option<R.Step>)
    requires step.Some? ==> R.Enabled(n, step.value) && !step.value.Forget? && !step.value.Lose?
    ensures var m := NetAfter(n, step); R.Grows(n, m) && n.handshakes <= m.handshakes && n.flights <= m.flights
  {
    if step.Some? {
      R.StepGrows(n, step.value);
    }
  }

  /** Marks that the session has written are a handshake afterwards, and a batch that it has picked is a flight. */
  lemma NewsIsInNet(n: R.Net, w: State, x: nat, step: Step)
    requires Shows(n, w) && Possible(w, Move(x, step))
    requires NetStep(w, Move(x, step)).Some? ==> R.Enabled(n, NetStep(w, Move(x, step)).value)
    ensures var l, m := w.links[x], NetAfter(n, NetStep(w, Move(x, step)));
            var next := After(l.setup, Now(w, x), step);
            && (next.marks.Some? ==> R.Handshake(l.client, l.server, next.marks.value) in m.handshakes)
            && (BatchOf(next.client).Some? && l.st.client.CGreet? ==>
                  R.Flight(l.client, l.server, BatchOf(next.client).value) in m.flights)
  {
    var l, st := w.links[x], Now(w, x);
    assert LinkInv(l) && InNet(n, l) && MarksInv(l.setup, st);
    MoveIs(l.setup, st, step);
  }

  /** The session that moved is in any later network that has its marks, its batch and the room it picked from. */
  lemma LinkMoved(n: R.Net, m: R.Net, l: Link, st: Session, step: Step, picked: Option<RoomState>)
    requires InNet(n, l) && R.Grows(n, m) && n.handshakes <= m.handshakes && n.flights <= m.flights
    requires MarksInv(l.setup, st) && Enabled(l.setup, st, step) && !Outside(step) && st == l.st.(room := st.room)
    requires var next := After(l.setup, st, step);
             && (next.marks.Some? ==> R.Handshake(l.client, l.server, next.marks.value) in m.handshakes)
             && (BatchOf(next.client).Some? && st.client.CGreet? ==>
                   R.Flight(l.client, l.server, BatchOf(next.client).value) in m.flights)
    requires if step.ClientMoves? && st.client == CGreet(7) then picked.Some? else picked == l.picked
    requires picked.Some? ==> picked.value.log == l.setup.log && R.Faithful(m, picked.value)
    ensures InNet(m, l.(st := After(l.setup, st, step), picked := picked))
  {
    MoveIs(l.setup, st, step);
    assert l.client in m.rooms && l.server in m.rooms;
  }

  lemma PickedIsFaithful(n: R.Net, m: R.Net, w: State, l: Link, step: Step)
    requires n.rooms == w.rooms && R.Invariant(n) && R.Grows(n, m) && InNet(n, l) && AsItTurnsOut(w, l, step)
    ensures var picked := PickedAfter(w, l, step);
            picked.Some? ==> picked.value.log == l.setup.log && R.Faithful(m, picked.value)
  {
    assert R.Faithful(n, n.rooms[l.client]);
    if PickedAfter(w, l, step).Some? {
      R.FaithfulInLaterNet(n, m, PickedAfter(w, l, step).value);
    }
  }

  lemma MoveShown(n: R.Net, w: State, x: nat, step: Step)
    requires Shows(n, w) && R.Invariant(n) && Possible(w, Move(x, step))
    ensures var net := NetStep(w, Move(x, step));
            && (net.Some? ==> R.Enabled(n, net.value))
            && NetAfter(n, net).rooms == Next(w, Move(x, step)).rooms
            && LinkInv(Next(w, Move(x, step)).links[x])
            && InNet(NetAfter(n, net), Next(w, Move(x, step)).links[x])
  {
    var l := w.links[x];
    assert LinkInv(l) && InNet(n, l) && MarksInv(l.setup, Now(w, x));
    StepKeepsLinkInv(l, w.rooms[l.server], step);
    RoomsMoved(n, w, x, step);
    NewsIsInNet(n, w, x, step);
    var m := NetAfter(n, NetStep(w, Move(x, step)));
    NetGrows(n, NetStep(w, Move(x, step)));
    PickedIsFaithful(n, m, w, l, step);
    LinkMoved(n, m, l, Now(w, x), step, PickedAfter(w, l, step));
  }

  /** What is done outside the sessions is a step of the network, or begins a session that nothing is known of yet. */
  lemma OtherActShown(n: R.Net, w: State, act: Act)
    requires Shows(n, w) && Possible(w, act) && !act.Move?
    ensures NetStep(w, act).Some? ==> R.Enabled(n, NetStep(w, act).value)
    ensures NetAfter(n, NetStep(w, act)).rooms == Next(w, act).rooms && w.links <= Next(w, act).links
    ensures forall x :: |w.links| <= x < |Next(w, act).links| ==>
              LinkInv(Next(w, act).links[x]) && InNet(n, Next(w, act).links[x])
  {}

  lemma ActShown(n: R.Net, w: State, act: Act)
    requires Shows(n, w) && R.Invariant(n) && Possible(w, act)
    ensures NetStep(w, act).Some? ==> R.Enabled(n, NetStep(w, act).value)
    ensures Shows(NetAfter(n, NetStep(w, act)), Next(w, act))
  {
    if act.Move? {
      MoveShown(n, w, act.x, act.step);
    } else {
      OtherActShown(n, w, act);
    }
    var m, next := NetAfter(n, NetStep(w, act)), Next(w, act);
    NetGrows(n, NetStep(w, act));
    forall x | 0 <= x < |next.links| ensures LinkInv(next.links[x]) && InNet(m, next.links[x]) {
      if !(act.Move? && x == act.x) {
        InLaterNet(n, m, next.links[x]);
      }
    }
  }

  lemma NetRunAndStep(ns: seq<R.Net>, steps: seq<R.Step>, step: R.Step)
    requires R.Run(ns, steps) && R.Enabled(ns[|steps|], step)
    ensures R.Run(ns + [R.After(ns[|steps|], step)], steps + [step])
  {
    var longer, more := ns + [R.After(ns[|steps|], step)], steps + [step];
    forall k | 0 <= k < |more| ensures R.Enabled(longer[k], more[k]) && longer[k + 1] == R.After(longer[k], more[k]) {
      assert longer[k] == ns[k];
    }
  }

  /**
   Every world is a run of the network: in each of its states the rooms are those
   of a reachable net, and the marks and batches of its sessions are handshakes
   and flights there.
   */
  lemma {:induction false} WorldIsNetwork(ws: seq<State>, acts: seq<Act>, k: nat)
    returns (ns: seq<R.Net>, steps: seq<R.Step>)
    requires Run(ws, acts) && k < |ws|
    ensures R.Run(ns, steps) && Shows(ns[|steps|], ws[k])
  {
    if k == 0 {
      ns, steps := [R.Net(map[], {}, {})], [];
    } else {
      ns, steps := WorldIsNetwork(ws, acts, k - 1);
      var n, step := ns[|steps|], NetStep(ws[k - 1], acts[k - 1]);
      R.RunKeepsInvariant(ns, steps, |steps|);
      ActShown(n, ws[k - 1], acts[k - 1]);
      if step.Some? {
        NetRunAndStep(ns, steps, step.value);
        ns, steps := ns + [R.After(n, step.value)], steps + [step.value];
      }
    }
  }

  /** What a room itself has logged of its own messages. */
  function OwnMessages(w: State, s: string): seq<Message> {
    if s in w.rooms then By(w.rooms[s].log, s) else []
  }

  /**
   In every state of every world, however many sessions overlap, fail and are
   retried: no room has logged a message twice, its marks are the times of the
   last and latest messages of their senders, and what it holds of a sender is a
   gap-free prefix of what that sender has logged itself.
   */
  lemma EveryRoomIsFaithful(ws: seq<State>, acts: seq<Act>, k: nat, i: string)
    requires Run(ws, acts) && k < |ws| && i in ws[k].rooms
    ensures NoDuplicates(ws[k].rooms[i].log) && Exact(ws[k].rooms[i])
    ensures forall s :: By(ws[k].rooms[i].log, s) <= OwnMessages(ws[k], s)
    ensures forall m :: m in ws[k].rooms[i].log ==>
              m.sender in ws[k].rooms[i].sync && m.time <= ws[k].rooms[i].sync[m.sender]
  {
    var ns, steps := WorldIsNetwork(ws, acts, k);
    R.PrefixInEveryRun(ns, steps, |steps|, i);
  }
}
