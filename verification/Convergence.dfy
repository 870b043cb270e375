/** Syncs that change anything use up what is missing, and when none is left to make, linked rooms agree. */
module Convergence {
  import opened Sequences
  import opened Messages
  import opened SyncState
  import opened Commands
  import opened RoomModel
  import opened Replication

  ghost function AllMessages(n: Net): set<Message> {
    set i, m | i in n.rooms && m in n.rooms[i].log :: m
  }

  /** The pairs of a room and a message that exists somewhere but not in that room. */
  ghost function Missing(n: Net): set<(string, Message)> {
    set i, m | i in n.rooms && m in AllMessages(n) && m !in n.rooms[i].log :: (i, m)
  }

  /** Neither new rooms nor new messages. */
  predicate Quiescing(step: Step) {
    !step.Create? && !step.Send?
  }

  predicate LogsDiffer(n: Net, w: Net) {
    exists i :: i in n.rooms && i in w.rooms && n.rooms[i].log != w.rooms[i].log
  }

  /** What a batch under way carries is in some log. */
  lemma BatchIsKnown(n: Net, batch: seq<Message>, r: RoomState)
    requires BatchLands(n, batch, r)
    ensures forall m :: m in batch ==> m in AllMessages(n)
  {
    forall m | m in batch ensures m in AllMessages(n) {
      var s := m.sender;
      ByMembers(batch, s);
      assert Lands(By(batch, s), History(n, s), By(r.log, s));
      var x :| 0 <= x < |By(batch, s)| && By(batch, s)[x] == m;
      assert m in History(n, s);
      ByMembers(n.rooms[s].log, s);
    }
  }

  lemma DeliverKeepsMessages(n: Net, f: Flight)
    requires Invariant(n) && f in n.flights
    ensures AllMessages(After(n, Deliver(f))) == AllMessages(n)
  {
    var w, r := After(n, Deliver(f)), n.rooms[f.server];
    BatchIsKnown(n, f.batch, r);
    NewerMembers(r.sync, f.batch);
    assert w.rooms[f.server].log == r.log + Newer(r.sync, f.batch);
    forall i, m | i in n.rooms && m in n.rooms[i].log ensures m in AllMessages(w) {
      assert m in w.rooms[i].log;
    }
    forall i, m | i in w.rooms && m in w.rooms[i].log ensures m in AllMessages(n) {
      if i == f.server && m !in r.log {
        assert m in f.batch;
      } else {
        assert m in n.rooms[i].log;
      }
    }
  }

  /** A delivery that changes a log strictly shrinks what is missing. */
  lemma EffectiveDeliveryShrinksMissing(n: Net, f: Flight)
    requires Invariant(n) && f in n.flights
    ensures Missing(After(n, Deliver(f))) <= Missing(n)
    ensures After(n, Deliver(f)).rooms[f.server].log != n.rooms[f.server].log ==>
              |Missing(After(n, Deliver(f)))| < |Missing(n)|
  {
    var w, r := After(n, Deliver(f)), n.rooms[f.server];
    DeliverKeepsMessages(n, f);
    var accepted := Newer(r.sync, f.batch);
    assert w.rooms[f.server].log == r.log + accepted;
    if w.rooms[f.server].log != r.log {
      assert accepted == [] ==> r.log + accepted == r.log;
      NewerMembers(r.sync, f.batch);
      var m := accepted[0];
      assert m in accepted;
      BatchIsKnown(n, f.batch, r);
      NewIsMissing(n, r, m);
      assert (f.server, m) in Missing(n) && (f.server, m) !in Missing(w);
      SmallerSet(Missing(w), Missing(n));
    }
  }

  lemma NewIsMissing(n: Net, r: RoomState, m: Message)
    requires (forall s :: Increasing(History(n, s))) && Faithful(n, r) && Accepts(r.sync, m)
    ensures m !in r.log
  {
    FaithfulIsOrdered(n, r);
    MarksAreMaxima(r.log, r.sync);
  }

  lemma SmallerSet<T>(a: set<T>, b: set<T>)
    requires a < b
    ensures |a| < |b|
  {
    var rest := b - a;
    assert b == a + rest;
  }

  lemma QuietStepKeepsMissing(n: Net, step: Step)
    requires Enabled(n, step) && Quiescing(step) && !step.Deliver?
    ensures Missing(After(n, step)) == Missing(n)
    ensures !LogsDiffer(n, After(n, step))
  {
    var w := After(n, step);
    forall i ensures i in n.rooms <==> i in w.rooms {}
    assert forall i :: i in n.rooms ==> w.rooms[i].log == n.rooms[i].log;
    assert AllMessages(w) == AllMessages(n);
  }

  /** How many steps from a on, up to b, change a log. */
  function EffectiveSteps(ns: seq<Net>, a: nat, b: nat): nat
    requires a <= b < |ns|
  {
    if a == b then 0
    else EffectiveSteps(ns, a, b - 1) + if LogsDiffer(ns[b - 1], ns[b]) then 1 else 0
  }

  lemma StepUsesUpMissing(n: Net, step: Step)
    requires Invariant(n) && Enabled(n, step) && Quiescing(step)
    ensures |Missing(After(n, step))| + (if LogsDiffer(n, After(n, step)) then 1 else 0) <= |Missing(n)|
  {
    if step.Deliver? {
      EffectiveDeliveryShrinksMissing(n, step.f);
      SubsetIsNoLarger(Missing(After(n, step)), Missing(n));
    } else {
      QuietStepKeepsMissing(n, step);
    }
  }

  lemma SubsetIsNoLarger<T>(a: set<T>, b: set<T>)
    requires a <= b
    ensures |a| <= |b|
  {
    assert b == a + (b - a);
  }

  /** Once nobody sends any more, at most as many steps have an effect as there are missing pairs. */
  lemma {:induction false} EffectiveSyncsAreBounded(ns: seq<Net>, steps: seq<Step>, a: nat, b: nat)
    requires Run(ns, steps) && a <= b < |ns|
    requires forall k :: a <= k < b ==> Quiescing(steps[k])
    ensures EffectiveSteps(ns, a, b) + |Missing(ns[b])| <= |Missing(ns[a])|
    decreases b
  {
    if a < b {
      EffectiveSyncsAreBounded(ns, steps, a, b - 1);
      RunKeepsInvariant(ns, steps, b - 1);
      StepUsesUpMissing(ns[b - 1], steps[b - 1]);
    }
  }

  // ---- When no sync can change anything ----

  /** The step from n, then the next, and the next, of a whole sync from client to server. */
  function SyncSteps(n: Net, client: string, server: string): (steps: (Step, Step, Step))
    requires Linked(n, client, server)
  {
    var h := Handshake(client, server, n.rooms[server].sync);
    (Open(client, server), Choose(h), Deliver(Flight(client, server, Newer(h.snapshot, n.rooms[client].log))))
  }

  /** A sync between linked rooms can always be made, and it changes the server's log exactly if it misses something. */
  lemma SyncIsPossible(n: Net, client: string, server: string)
    requires Invariant(n) && Linked(n, client, server)
    ensures var (open, choose, deliver) := SyncSteps(n, client, server);
            && Enabled(n, open) && Enabled(After(n, open), choose)
            && Enabled(After(After(n, open), choose), deliver)
            && var w := After(After(After(n, open), choose), deliver);
            && server in w.rooms
            && (w.rooms[server].log != n.rooms[server].log <==>
                exists m :: m in n.rooms[client].log && m !in n.rooms[server].log)
  {
    var q, r := n.rooms[client], n.rooms[server];
    var delta := Newer(r.sync, q.log);
    var (open, choose, deliver) := SyncSteps(n, client, server);
    var w := After(After(After(n, open), choose), deliver);
    var p := Push(r, delta);
    assert w.rooms[server] == p;
    NewerMembers(r.sync, q.log);
    FilterAll(AcceptedBy(r.sync), delta) by {
      forall x | 0 <= x < |delta| ensures Accepts(r.sync, delta[x]) {
        assert delta[x] in delta;
      }
    }
    assert p.log == r.log + delta;
    if p.log != r.log {
      assert delta == [] ==> r.log + delta == r.log;
      assert delta[0] in delta;
      AcceptsIffMissing(n, q, r, delta[0]);
    }
    if m :| m in q.log && m !in r.log {
      AcceptsIffMissing(n, q, r, m);
      assert m in delta;
      assert |p.log| > |r.log|;
    }
  }

  /** No sync between linked rooms would change anything. */
  ghost predicate Settled(n: Net) {
    forall i, j :: Linked(n, i, j) ==> Newer(n.rooms[j].sync, n.rooms[i].log) == []
  }

  lemma LinkedAgree(n: Net, i: string, j: string)
    requires Invariant(n) && Settled(n) && Linked(n, i, j)
    ensures SameContents(n.rooms[i], n.rooms[j])
  {
    assert Linked(n, j, i);
    HoldsAllOf(n, n.rooms[i], n.rooms[j]);
    HoldsAllOf(n, n.rooms[j], n.rooms[i]);
    SameBySender(n.rooms[i], n.rooms[j]);
  }

  lemma HoldsAllOf(n: Net, q: RoomState, r: RoomState)
    requires (forall s :: Increasing(History(n, s))) && Faithful(n, q) && Faithful(n, r)
    requires Newer(r.sync, q.log) == []
    ensures forall s :: By(q.log, s) <= By(r.log, s)
  {
    NothingNewNoEffect(r, q.log);
    PushOfDeltaJoins(n, r, q, r.sync);
    NothingNewNoEffect(r, []);
    forall s ensures By(q.log, s) <= By(r.log, s) {
      assert By(r.log, s) == Longer(By(r.log, s), By(q.log, s));
      assert By(q.log, s) <= History(n, s) && By(r.log, s) <= History(n, s);
    }
  }

  /** A path of linked rooms. */
  ghost predicate Path(n: Net, path: seq<string>) {
    && |path| > 0
    && (forall k :: 0 <= k < |path| ==> path[k] in n.rooms)
    && forall k :: 0 <= k < |path| - 1 ==> Linked(n, path[k], path[k + 1])
  }

  /** In a settled state of a run, all rooms joined by links hold the same messages and the same marks. */
  lemma {:induction false} SettledRoomsAgree(ns: seq<Net>, steps: seq<Step>, k: nat, path: seq<string>)
    requires Run(ns, steps) && k < |ns| && Settled(ns[k]) && Path(ns[k], path)
    ensures SameContents(ns[k].rooms[path[0]], ns[k].rooms[path[|path| - 1]])
    decreases |path|
  {
    if |path| > 1 {
      var shorter := path[..|path| - 1];
      assert Linked(ns[k], path[|path| - 2], path[|path| - 1]);
      assert Path(ns[k], shorter) by {
        forall x | 0 <= x < |shorter| - 1 ensures Linked(ns[k], shorter[x], shorter[x + 1]) {
          assert Linked(ns[k], path[x], path[x + 1]);
        }
      }
      SettledRoomsAgree(ns, steps, k, shorter);
      RunKeepsInvariant(ns, steps, k);
      LinkedAgree(ns[k], path[|path| - 2], path[|path| - 1]);
    }
  }

  // ---- Syncs alone lead to a settled state ----

  predicate SyncStep(step: Step) {
    step.Open? || step.Choose? || step.Deliver?
  }

  ghost predicate GoesOnBySyncs(ns: seq<Net>, steps: seq<Step>, ms: seq<Net>, more: seq<Step>) {
    && Run(ms, more) && ns <= ms && steps <= more
    && forall k :: |steps| <= k < |more| ==> SyncStep(more[k])
  }

  lemma OneSyncMore(ns: seq<Net>, steps: seq<Step>, ms: seq<Net>, more: seq<Step>, step: Step)
    requires |ns| > 0 && GoesOnBySyncs(ns, steps, ms, more)
    requires Enabled(ms[|ms| - 1], step) && SyncStep(step)
    ensures GoesOnBySyncs(ns, steps, ms + [After(ms[|ms| - 1], step)], more + [step])
  {}

  /** A sync that has something to send leaves less missing. */
  lemma UsefulSync(n: Net, i: string, j: string)
    requires Invariant(n) && Linked(n, i, j) && Newer(n.rooms[j].sync, n.rooms[i].log) != []
    ensures var (open, choose, deliver) := SyncSteps(n, i, j);
            && Enabled(n, open) && Enabled(After(n, open), choose) && Enabled(After(After(n, open), choose), deliver)
            && |Missing(After(After(After(n, open), choose), deliver))| < |Missing(n)|
  {
    var (open, choose, deliver) := SyncSteps(n, i, j);
    var q, r := n.rooms[i], n.rooms[j];
    var m := Newer(r.sync, q.log)[0];
    NewerMembers(r.sync, q.log);
    assert m in Newer(r.sync, q.log);
    AcceptsIffMissing(n, q, r, m);
    SyncIsPossible(n, i, j);
    StepKeepsInvariant(n, open);
    StepKeepsInvariant(After(n, open), choose);
    QuietStepKeepsMissing(n, open);
    QuietStepKeepsMissing(After(n, open), choose);
    EffectiveDeliveryShrinksMissing(After(After(n, open), choose), deliver.f);
  }

  lemma UsefulSyncMore(ns: seq<Net>, steps: seq<Step>, i: string, j: string) returns (ms: seq<Net>, more: seq<Step>)
    requires Run(ns, steps) && Linked(ns[|ns| - 1], i, j)
    requires Newer(ns[|ns| - 1].rooms[j].sync, ns[|ns| - 1].rooms[i].log) != []
    ensures GoesOnBySyncs(ns, steps, ms, more) && |Missing(ms[|ms| - 1])| < |Missing(ns[|ns| - 1])|
  {
    var n := ns[|ns| - 1];
    RunKeepsInvariant(ns, steps, |ns| - 1);
    UsefulSync(n, i, j);
    var (open, choose, deliver) := SyncSteps(n, i, j);
    OneSyncMore(ns, steps, ns, steps, open);
    ms, more := ns + [After(n, open)], steps + [open];
    OneSyncMore(ns, steps, ms, more, choose);
    ms, more := ms + [After(After(n, open), choose)], more + [choose];
    OneSyncMore(ns, steps, ms, more, deliver);
    ms, more := ms + [After(After(After(n, open), choose), deliver)], more + [deliver];
  }

  lemma GoesOnFurther(ns: seq<Net>, steps: seq<Step>, us: seq<Net>, some: seq<Step>, ms: seq<Net>, more: seq<Step>)
    requires GoesOnBySyncs(ns, steps, us, some) && GoesOnBySyncs(us, some, ms, more)
    ensures GoesOnBySyncs(ns, steps, ms, more)
  {
    forall k | |steps| <= k < |more| ensures SyncStep(more[k]) {
      assert k < |some| ==> more[k] == some[k];
    }
  }

  function Last(ns: seq<Net>): Net
    requires ns != []
  {
    ns[|ns| - 1]
  }

  lemma NoSyncs(ns: seq<Net>, steps: seq<Step>)
    requires Run(ns, steps)
    ensures GoesOnBySyncs(ns, steps, ns, steps)
  {}

  /** If something is left to sync, some syncs leave less missing. */
  lemma SomeSyncs(ns: seq<Net>, steps: seq<Step>) returns (ms: seq<Net>, more: seq<Step>)
    requires Run(ns, steps) && ns != [] && !Settled(Last(ns))
    ensures GoesOnBySyncs(ns, steps, ms, more) && ms != [] && |Missing(Last(ms))| < |Missing(Last(ns))|
  {
    var n := Last(ns);
    var i, j :| Linked(n, i, j) && Newer(n.rooms[j].sync, n.rooms[i].log) != [];
    ms, more := UsefulSyncMore(ns, steps, i, j);
  }

  lemma {:induction false} SettlesWithin(ns: seq<Net>, steps: seq<Step>, budget: nat)
    returns (ms: seq<Net>, more: seq<Step>)
    requires Run(ns, steps) && ns != [] && |Missing(Last(ns))| <= budget
    ensures GoesOnBySyncs(ns, steps, ms, more) && ms != [] && Settled(Last(ms))
    decreases budget
  {
    if Settled(Last(ns)) {
      ms, more := ns, steps;
      NoSyncs(ns, steps);
    } else {
      var us, some := SomeSyncs(ns, steps);
      ms, more := SettlesWithin(us, some, budget - 1);
      GoesOnFurther(ns, steps, us, some, ms, more);
    }
  }

  /**
   From every reachable state, some syncs, with nothing else in between, lead to
   one in which no sync has anything to send.
   */
  lemma SettledIsReachable(ns: seq<Net>, steps: seq<Step>) returns (ms: seq<Net>, more: seq<Step>)
    requires Run(ns, steps) && ns != []
    ensures GoesOnBySyncs(ns, steps, ms, more) && ms != [] && Settled(Last(ms))
  {
    ms, more := SettlesWithin(ns, steps, |Missing(Last(ns))|);
  }
}
