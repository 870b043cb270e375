/**
 The sessions of a world, one by one: each is a run of Sessions, in which what
 everybody else does to the server's room are steps from outside. So all that is
 proved of sessions holds of them, and a client that is done has been heard.
 */
module WorldSessions {
  import opened Sequences
  import opened Messages
  import opened SyncState
  import opened RoomModel
  import opened Sessions
  import opened SessionSafety
  import opened SessionAsSync
  import opened World
  import R = Replication

  predicate AllServed(w: State) {
    forall x :: 0 <= x < |w.links| ==> w.links[x].server in w.rooms
  }

  /** What an act of the world is to session x, if anything. */
  function SeenBy(w: State, act: World.Act, x: nat): Option<Step>
    requires Possible(w, act) && x < |w.links|
  {
    match act
    case Join(who, peer) => if who == w.links[x].server then Some(OtherJoin(peer)) else None
    case Say(m) => if m.sender == w.links[x].server then Some(OtherPush([m])) else None
    case Move(y, step) =>
      var st := Now(w, y);
      if y == x then Some(step)
      else if w.links[y].server == w.links[x].server && After(w.links[y].setup, st, step).pushes != st.pushes
              && st.newMsgs.Some? then Some(OtherPush(st.newMsgs.value))
      else None
    case _ => None
  }

  lemma SeenAct(w: State, act: World.Act, x: nat)
    requires Possible(w, act) && x < |w.links| && AllServed(w)
    ensures AllServed(Next(w, act)) && x < |Next(w, act).links|
    ensures var seen, l, before, after := SeenBy(w, act, x), w.links[x], Now(w, x), Now(Next(w, act), x);
            && Next(w, act).links[x].setup == l.setup
            && if seen.None? then after == before
               else Enabled(l.setup, before, seen.value) && after == After(l.setup, before, seen.value)
  {
    if act.Move? {
      StepsAreRoomSteps(w.links[act.x].setup, Now(w, act.x), act.step);
    }
  }

  lemma {:induction false} EveryStateServes(ws: seq<State>, acts: seq<World.Act>, k: nat)
    requires World.Run(ws, acts) && k < |ws|
    ensures AllServed(ws[k])
  {
    if k > 0 {
      EveryStateServes(ws, acts, k - 1);
      if ws[k - 1].links != [] {
        SeenAct(ws[k - 1], acts[k - 1], 0);
      }
    }
  }

  lemma RunAndStep(setup: Setup, sts: seq<Session>, steps: seq<Step>, step: Step)
    requires Sessions.Run(setup, sts, steps) && Enabled(setup, sts[|steps|], step)
    ensures Sessions.Run(setup, sts + [After(setup, sts[|steps|], step)], steps + [step])
  {
    var longer, more := sts + [After(setup, sts[|steps|], step)], steps + [step];
    forall k | 0 <= k < |more|
      ensures Enabled(setup, longer[k], more[k]) && longer[k + 1] == After(setup, longer[k], more[k])
    {
      assert longer[k] == sts[k];
    }
  }

  /**
   Every session of every world is a run of Sessions, with the server's room as
   it is in the world: others may push into that room and add peers to it
   whenever they like.
   */
  lemma {:induction false} SessionOfWorldIsRun(ws: seq<State>, acts: seq<World.Act>, k: nat, x: nat)
    returns (sts: seq<Session>, steps: seq<Step>)
    requires World.Run(ws, acts) && k < |ws| && x < |ws[k].links|
    ensures AllServed(ws[k])
    ensures Sessions.Run(ws[k].links[x].setup, sts, steps) && sts[|steps|] == Now(ws[k], x)
    decreases k
  {
    EveryStateServes(ws, acts, k);
    EveryStateServes(ws, acts, k - 1);
    var w, act := ws[k - 1], acts[k - 1];
    if x < |w.links| {
      sts, steps := SessionOfWorldIsRun(ws, acts, k - 1, x);
      SeenAct(w, act, x);
      var seen := SeenBy(w, act, x);
      if seen.Some? {
        RunAndStep(w.links[x].setup, sts, steps, seen.value);
        sts, steps := sts + [After(w.links[x].setup, Now(w, x), seen.value)], steps + [seen.value];
      }
    } else {
      sts, steps := [Now(ws[k], x)], [];
    }
  }

  // ---- A client that is done has been heard ----

  predicate HoldsAll(w: State, who: string, log: seq<Message>) {
    who in w.rooms && forall m :: m in log ==> m in w.rooms[who].log
  }

  /** The server has pushed what its marks ask for of the client's log. */
  predicate PushedDelta(l: Link) {
    && l.st.marks.Some? && l.picked.Some?
    && l.st.pushes == [Newer(l.st.marks.value, l.setup.log)]
  }

  predicate HeldInv(w: State, x: nat)
    requires x < |w.links|
  {
    PushedDelta(w.links[x]) ==> HoldsAll(w, w.links[x].server, w.links[x].setup.log)
  }

  lemma DeltaCompletes(n: R.Net, r: RoomState, q: RoomState, marks: SyncMap)
    requires R.Invariant(n) && R.Faithful(n, r) && R.Faithful(n, q) && Below(marks, r.sync)
    ensures forall m :: m in q.log ==> m in Push(r, Newer(marks, q.log)).log
  {
    var p := Push(r, Newer(marks, q.log));
    R.PushOfDeltaJoins(n, r, q, marks);
    forall m | m in q.log ensures m in p.log {
      var s := m.sender;
      ByMembers(q.log, s);
      ByMembers(p.log, s);
      var x :| 0 <= x < |By(q.log, s)| && By(q.log, s)[x] == m;
      assert By(r.log, s) <= R.History(n, s) && By(q.log, s) <= R.History(n, s);
      assert By(p.log, s) == R.Longer(By(r.log, s), By(q.log, s));
      assert By(p.log, s)[x] == m;
    }
  }

  lemma StillHolds(n: R.Net, w: State, act: World.Act, who: string, log: seq<Message>)
    requires Shows(n, w) && R.Invariant(n) && Possible(w, act) && HoldsAll(w, who, log)
    ensures HoldsAll(Next(w, act), who, log)
  {
    ActShown(n, w, act);
    NetGrows(n, NetStep(w, act));
    assert w.rooms[who].log <= Next(w, act).rooms[who].log;
  }

  /** At its push, and after it, a session writes no marks. */
  lemma MarksAtPush(setup: Setup, st: Session, step: Step)
    requires SafetyInv(setup, st) && Enabled(setup, st, step) && !Outside(step)
    ensures var next := After(setup, st, step);
            && (next.pushes != st.pushes ==>
                  step.ServerMoves? && st.newMsgs.Some? && next.pushes == [st.newMsgs.value]
                  && next.room == Push(st.room, st.newMsgs.value))
            && (next.pushes != [] ==> next.marks == st.marks)
  {}

  /** The server pushes what its marks asked for: then it holds all that the client picked from. */
  lemma HeldAtPush(n: R.Net, l: Link)
    requires InNet(n, l) && R.Invariant(n) && l.st.marks.Some? && l.picked.Some?
    ensures forall m :: m in l.setup.log ==> m in Push(n.rooms[l.server], Newer(l.st.marks.value, l.setup.log)).log
  {
    var h := R.Handshake(l.client, l.server, l.st.marks.value);
    assert h in n.handshakes && Below(h.snapshot, n.rooms[h.server].sync);
    assert R.Faithful(n, n.rooms[l.server]);
    DeltaCompletes(n, n.rooms[l.server], l.picked.value, l.st.marks.value);
  }

  /** The client picks nothing: then the server holds all that it picked from. */
  lemma HeldAtPick(n: R.Net, l: Link)
    requires InNet(n, l) && R.Invariant(n) && l.st.marks.Some?
    requires n.rooms[l.client].log == l.setup.log && Newer(l.st.marks.value, l.setup.log) == []
    ensures forall m :: m in l.setup.log ==> m in n.rooms[l.server].log
  {
    var r, q := n.rooms[l.server], n.rooms[l.client];
    assert R.Handshake(l.client, l.server, l.st.marks.value) in n.handshakes;
    assert R.Faithful(n, r) && R.Faithful(n, q);
    DeltaCompletes(n, r, q, l.st.marks.value);
    NothingNewNoEffect(r, []);
  }

  lemma MoveKeepsHeld(n: R.Net, w: State, x: nat, step: Step)
    requires Shows(n, w) && R.Invariant(n) && Possible(w, Move(x, step))
    requires SafetyInv(w.links[x].setup, Now(w, x)) && HeldInv(w, x)
    ensures HeldInv(Next(w, Move(x, step)), x)
  {
    var l, next := w.links[x], Next(w, Move(x, step));
    MarksAtPush(l.setup, Now(w, x), step);
    assert InNet(n, l);
    if PushedDelta(next.links[x]) {
      if next.links[x].st.pushes != l.st.pushes {
        HeldAtPush(n, l);
      } else {
        if l.picked.None? {
          HeldAtPick(n, l);
        }
        StillHolds(n, w, Move(x, step), l.server, l.setup.log);
      }
    }
  }

  lemma ActKeepsHeld(n: R.Net, w: State, act: World.Act, x: nat)
    requires Shows(n, w) && R.Invariant(n) && Possible(w, act) && x < |w.links|
    requires SafetyInv(w.links[x].setup, Now(w, x)) && HeldInv(w, x)
    ensures x < |Next(w, act).links| && HeldInv(Next(w, act), x)
  {
    var l := w.links[x];
    if act.Move? && act.x == x {
      MoveKeepsHeld(n, w, x, act.step);
    } else if PushedDelta(l) {
      StillHolds(n, w, act, l.server, l.setup.log);
    }
  }

  lemma {:induction false} RunKeepsHeld(ws: seq<State>, acts: seq<World.Act>, k: nat, x: nat)
    requires World.Run(ws, acts) && k < |ws| && x < |ws[k].links|
    ensures HeldInv(ws[k], x)
  {
    var w, act := ws[k - 1], acts[k - 1];
    if x < |w.links| {
      RunKeepsHeld(ws, acts, k - 1, x);
      var ns, steps := WorldIsNetwork(ws, acts, k - 1);
      R.RunKeepsInvariant(ns, steps, |steps|);
      var sts, own := SessionOfWorldIsRun(ws, acts, k - 1, x);
      RunKeepsSafety(w.links[x].setup, sts, own, |own|);
      ActKeepsHeld(ns[|steps|], w, act, x);
    }
  }

  /** The room that a client picked from is one that it had. */
  lemma {:induction false} PickOrigin(ws: seq<State>, acts: seq<World.Act>, k: nat, x: nat) returns (t: nat)
    requires World.Run(ws, acts) && k < |ws| && x < |ws[k].links| && ws[k].links[x].picked.Some?
    ensures t < k && ws[k].links[x].client in ws[t].rooms
    ensures ws[k].links[x].picked.value == ws[t].rooms[ws[k].links[x].client]
    decreases k
  {
    var w := ws[k - 1];
    if x < |w.links| && w.links[x].picked == ws[k].links[x].picked {
      t := PickOrigin(ws, acts, k - 1, x);
    } else {
      t := k - 1;
    }
  }

  /**
   End to end, with any number of other sessions, sends and failures around it:
   when a client is done, the server's log holds every message of the log that
   the client had when it picked its batch, and keeps them from then on.
   */
  lemma DoneMeansHeld(ws: seq<State>, acts: seq<World.Act>, k: nat, x: nat) returns (t: nat)
    requires World.Run(ws, acts) && k < |ws| && x < |ws[k].links| && ws[k].links[x].st.client.CDone?
    ensures t < k && ws[k].links[x].client in ws[t].rooms
    ensures HoldsAll(ws[k], ws[k].links[x].server, ws[t].rooms[ws[k].links[x].client].log)
  {
    var l := ws[k].links[x];
    var ns, steps := WorldIsNetwork(ws, acts, k);
    assert LinkInv(l) && InNet(ns[|steps|], l);
    var sts, own := SessionOfWorldIsRun(ws, acts, k, x);
    SuccessMeansPushed(l.setup, sts, own, |own|);
    RunKeepsHeld(ws, acts, k, x);
    t := PickOrigin(ws, acts, k, x);
  }
}
