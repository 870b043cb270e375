/**
 Pushes as concurrent threads run them: the marks are copied before the lock is
 taken, messages are taken one by one under the lock, and the copy is published
 at the end. Replication treats a push as one atomic step; here is when it is.
 */
module PushInterleaving {
  import opened Sequences
  import opened Messages
  import opened SyncState
  import opened Commands
  import opened RoomModel

  datatype Phase =
    | Idle
    | Snapped(snapshot: SyncMap)
    | Locked(snapshot: SyncMap, taken: nat, newSync: SyncMap)
    | Done

  datatype Thread = Thread(batch: seq<Message>, phase: Phase)

  /** A push that has been published: the marks it had copied, and its batch. */
  datatype Commit = Commit(snapshot: SyncMap, batch: seq<Message>)

  datatype Shared = Shared(room: RoomState, threads: seq<Thread>, holder: Option<nat>, commits: seq<Commit>)

  datatype Step = Snapshot(t: nat) | Lock(t: nat) | Take(t: nat) | Publish(t: nat)

  predicate Enabled(s: Shared, step: Step) {
    && step.t < |s.threads|
    && var th := s.threads[step.t];
       match step
       case Snapshot(_) => th.phase.Idle?
       case Lock(_) => th.phase.Snapped? && s.holder == None
       case Take(_) => th.phase.Locked? && th.phase.taken < |th.batch|
       case Publish(_) => th.phase.Locked? && th.phase.taken == |th.batch|
  }

  function WithPhase(s: Shared, t: nat, phase: Phase): Shared
    requires t < |s.threads|
  {
    s.(threads := s.threads[t := s.threads[t].(phase := phase)])
  }

  function After(s: Shared, step: Step): Shared
    requires Enabled(s, step)
  {
    var th := s.threads[step.t];
    match step
    case Snapshot(t) => WithPhase(s, t, Snapped(s.room.sync))
    case Lock(t) => WithPhase(s, t, Locked(th.phase.snapshot, 0, th.phase.snapshot)).(holder := Some(t))
    case Take(t) =>
      var m := th.batch[th.phase.taken];
      if Accepts(s.room.sync, m) then
        WithPhase(s, t, th.phase.(taken := th.phase.taken + 1, newSync := th.phase.newSync[m.sender := m.time]))
        .(room := s.room.(view := Apply(s.room.view, m), log := s.room.log + [m]))
      else WithPhase(s, t, th.phase.(taken := th.phase.taken + 1))
    case Publish(t) =>
      WithPhase(s, t, Done).(room := s.room.(sync := th.phase.newSync), holder := None,
                             commits := s.commits + [Commit(th.phase.snapshot, th.batch)])
  }

  ghost predicate Run(ss: seq<Shared>, steps: seq<Step>) {
    && |ss| == |steps| + 1
    && ss[0].holder == None && ss[0].commits == []
    && (forall t :: 0 <= t < |ss[0].threads| ==> ss[0].threads[t].phase == Idle)
    && forall k :: 0 <= k < |steps| ==> Enabled(ss[k], steps[k]) && ss[k + 1] == After(ss[k], steps[k])
  }

  /** The effect of one push whose copy of the marks was taken at some other time. */
  function PushWith(r: RoomState, snapshot: SyncMap, batch: seq<Message>): RoomState {
    Push(r, batch).(sync := Record(snapshot, Newer(r.sync, batch)))
  }

  function CommitAll(r: RoomState, commits: seq<Commit>): RoomState {
    if |commits| == 0 then r
    else
      var last := commits[|commits| - 1];
      PushWith(CommitAll(r, commits[..|commits| - 1]), last.snapshot, last.batch)
  }

  /** The lock holder has taken part of its batch on top of the commits so far; nobody else is past the lock. */
  ghost predicate Consistent(s: Shared, start: RoomState) {
    var base := CommitAll(start, s.commits);
    && (forall t :: 0 <= t < |s.threads| && s.threads[t].phase.Locked? ==> s.holder == Some(t))
    && match s.holder
       case None => s.room == base
       case Some(t) => t < |s.threads| && HolderConsistent(s, base, s.threads[t])
  }

  ghost predicate HolderConsistent(s: Shared, base: RoomState, th: Thread) {
    && th.phase.Locked? && th.phase.taken <= |th.batch|
    && var done := th.batch[..th.phase.taken];
       && s.room == Push(base, done).(sync := base.sync)
       && th.phase.newSync == Record(th.phase.snapshot, Newer(base.sync, done))
  }

  lemma RecordOneMore(sync: SyncMap, snapshot: SyncMap, batch: seq<Message>, k: nat)
    requires k < |batch|
    ensures var newSync := Record(snapshot, Newer(sync, batch[..k]));
            Record(snapshot, Newer(sync, batch[..k + 1]))
            == if Accepts(sync, batch[k]) then newSync[batch[k].sender := batch[k].time] else newSync
  {
    assert batch[..k + 1] == batch[..k] + [batch[k]];
    FilterSnoc(AcceptedBy(sync), batch[..k], batch[k]);
    RecordSnoc(snapshot, Newer(sync, batch[..k]), batch[k]);
  }

  lemma HolderTakes(s: Shared, base: RoomState, t: nat)
    requires Enabled(s, Take(t)) && HolderConsistent(s, base, s.threads[t])
    ensures HolderConsistent(After(s, Take(t)), base, After(s, Take(t)).threads[t])
  {
    var th := s.threads[t];
    PushOneMore(base, th.batch, th.phase.taken);
    RecordOneMore(base.sync, th.phase.snapshot, th.batch, th.phase.taken);
  }

  /** What a take leaves as it was. */
  lemma TakeIs(s: Shared, t: nat)
    requires Enabled(s, Take(t))
    ensures var w := After(s, Take(t));
            && w.commits == s.commits && w.holder == s.holder && |w.threads| == |s.threads|
            && w.threads[t].phase.Locked? && w.threads[t].phase.snapshot == s.threads[t].phase.snapshot
            && forall u :: 0 <= u < |s.threads| && u != t ==> w.threads[u] == s.threads[u]
  {}

  lemma TakeKeepsConsistent(s: Shared, start: RoomState, t: nat)
    requires Consistent(s, start) && Enabled(s, Take(t))
    ensures Consistent(After(s, Take(t)), start)
  {
    assert s.holder == Some(t);
    HolderTakes(s, CommitAll(start, s.commits), t);
    TakeIs(s, t);
  }

  lemma PublishKeepsConsistent(s: Shared, start: RoomState, t: nat)
    requires Consistent(s, start) && Enabled(s, Publish(t))
    ensures Consistent(After(s, Publish(t)), start)
  {
    var base, th := CommitAll(start, s.commits), s.threads[t];
    assert s.holder == Some(t) && HolderConsistent(s, base, th);
    assert th.batch[..|th.batch|] == th.batch;
    var w := After(s, Publish(t));
    assert w.commits[..|w.commits| - 1] == s.commits;
  }

  lemma StepKeepsConsistent(s: Shared, start: RoomState, step: Step)
    requires Consistent(s, start) && Enabled(s, step)
    ensures Consistent(After(s, step), start)
  {
    match step
    case Snapshot(t) =>
    case Lock(t) =>
      var base, w := CommitAll(start, s.commits), After(s, step);
      assert w.threads[t].batch[..0] == [];
      assert base.log + [] == base.log;
      assert HolderConsistent(w, base, w.threads[t]);
    case Take(t) => TakeKeepsConsistent(s, start, t);
    case Publish(t) => PublishKeepsConsistent(s, start, t);
  }

  /** In every schedule, the room is the result of whole pushes in publishing order, each with its own copied marks. */
  lemma {:induction false} LockedPushesAreWhole(ss: seq<Shared>, steps: seq<Step>, k: nat)
    requires Run(ss, steps) && k < |ss|
    ensures Consistent(ss[k], ss[0].room)
    ensures ss[k].holder == None ==> ss[k].room == CommitAll(ss[0].room, ss[k].commits)
  {
    if k > 0 {
      LockedPushesAreWhole(ss, steps, k - 1);
      StepKeepsConsistent(ss[k - 1], ss[0].room, steps[k - 1]);
    }
  }

  /** Every commit was made with a copy of the marks that the commits before it had left. */
  ghost predicate FreshCommits(r: RoomState, commits: seq<Commit>) {
    forall i :: 0 <= i < |commits| ==> commits[i].snapshot == CommitAll(r, commits[..i]).sync
  }

  /** Whenever a thread takes the lock, the room's marks are still those that it has copied. */
  ghost predicate LocksFresh(ss: seq<Shared>, steps: seq<Step>, k: nat)
    requires Run(ss, steps) && k < |ss|
  {
    forall j :: 0 <= j < k && steps[j].Lock? ==> ss[j].threads[steps[j].t].phase.snapshot == ss[j].room.sync
  }

  /** The lock holder's copy is current too. */
  ghost predicate FreshSoFar(s: Shared, start: RoomState) {
    && FreshCommits(start, s.commits)
    && forall t :: 0 <= t < |s.threads| && s.threads[t].phase.Locked? ==>
         s.threads[t].phase.snapshot == CommitAll(start, s.commits).sync
  }

  lemma OneCommitMore(start: RoomState, commits: seq<Commit>, commit: Commit)
    requires FreshCommits(start, commits) && commit.snapshot == CommitAll(start, commits).sync
    ensures FreshCommits(start, commits + [commit])
  {
    var more := commits + [commit];
    forall i | 0 <= i < |more| ensures more[i].snapshot == CommitAll(start, more[..i]).sync {
      assert more[..i] == commits[..i];
      assert i == |commits| ==> commits[..i] == commits;
    }
  }

  lemma PublishKeepsFresh(s: Shared, start: RoomState, t: nat)
    requires Consistent(s, start) && FreshSoFar(s, start) && Enabled(s, Publish(t))
    ensures FreshSoFar(After(s, Publish(t)), start)
  {
    OneCommitMore(start, s.commits, Commit(s.threads[t].phase.snapshot, s.threads[t].batch));
    assert forall u :: 0 <= u < |s.threads| && u != t ==> !After(s, Publish(t)).threads[u].phase.Locked?;
  }

  lemma LockKeepsFresh(s: Shared, start: RoomState, t: nat)
    requires Consistent(s, start) && FreshSoFar(s, start) && Enabled(s, Lock(t))
    requires s.threads[t].phase.snapshot == s.room.sync
    ensures FreshSoFar(After(s, Lock(t)), start)
  {}

  lemma TakeKeepsFresh(s: Shared, start: RoomState, t: nat)
    requires FreshSoFar(s, start) && Enabled(s, Take(t))
    ensures FreshSoFar(After(s, Take(t)), start)
  {
    TakeIs(s, t);
  }

  lemma SnapshotKeepsFresh(s: Shared, start: RoomState, t: nat)
    requires FreshSoFar(s, start) && Enabled(s, Snapshot(t))
    ensures FreshSoFar(After(s, Snapshot(t)), start)
  {}

  lemma StepKeepsFresh(s: Shared, start: RoomState, step: Step)
    requires Consistent(s, start) && FreshSoFar(s, start) && Enabled(s, step)
    requires step.Lock? ==> s.threads[step.t].phase.snapshot == s.room.sync
    ensures FreshSoFar(After(s, step), start)
  {
    match step
    case Snapshot(t) => SnapshotKeepsFresh(s, start, t);
    case Lock(t) => LockKeepsFresh(s, start, t);
    case Take(t) => TakeKeepsFresh(s, start, t);
    case Publish(t) => PublishKeepsFresh(s, start, t);
  }

  lemma {:induction false} LocksFreshMeansCommitsFresh(ss: seq<Shared>, steps: seq<Step>, k: nat)
    requires Run(ss, steps) && k < |ss| && LocksFresh(ss, steps, k)
    ensures FreshSoFar(ss[k], ss[0].room)
  {
    if k > 0 {
      LocksFreshMeansCommitsFresh(ss, steps, k - 1);
      LockedPushesAreWhole(ss, steps, k - 1);
      StepKeepsFresh(ss[k - 1], ss[0].room, steps[k - 1]);
    }
  }

  function Batches(commits: seq<Commit>): seq<seq<Message>> {
    seq(|commits|, i requires 0 <= i < |commits| => commits[i].batch)
  }

  lemma {:induction false} FreshCommitsAreSerial(r: RoomState, commits: seq<Commit>)
    requires FreshCommits(r, commits)
    ensures CommitAll(r, commits) == PushAll(r, Batches(commits))
  {
    if |commits| != 0 {
      var front := commits[..|commits| - 1];
      assert forall i :: 0 <= i < |front| ==> front[..i] == commits[..i];
      FreshCommitsAreSerial(r, front);
      assert Batches(commits)[..|commits| - 1] == Batches(front);
    }
  }

  /** A schedule whose copies were all current when the lock was taken is serialisable, and keeps the index exact. */
  lemma FreshSchedulesAreSerial(ss: seq<Shared>, steps: seq<Step>, k: nat)
    requires Run(ss, steps) && k < |ss| && ss[k].holder == None && Exact(ss[0].room)
    requires LocksFresh(ss, steps, k)
    ensures ss[k].room == PushAll(ss[0].room, Batches(ss[k].commits))
    ensures Exact(ss[k].room)
  {
    LockedPushesAreWhole(ss, steps, k);
    LocksFreshMeansCommitsFresh(ss, steps, k);
    FreshCommitsAreSerial(ss[0].room, ss[k].commits);
    ViewIsReplayOfLog(ss[0].room, Batches(ss[k].commits));
  }

  // ---- What a stale copy costs ----

  lemma {:induction false} RecordAt(sync: SyncMap, msgs: seq<Message>, s: string)
    ensures MarkOf(Record(sync, msgs), s)
         == if By(msgs, s) == [] then MarkOf(sync, s) else Some(By(msgs, s)[|By(msgs, s)| - 1].time)
  {
    if |msgs| != 0 {
      var front, last := msgs[..|msgs| - 1], msgs[|msgs| - 1];
      assert msgs == front + [last];
      RecordAt(sync, front, s);
      FilterSnoc(SentBy(s), front, last);
    }
  }

  /**
   A published push leaves the index exact exactly when its copy agreed with the
   room's marks on every sender it accepted nothing from.
   */
  lemma PublishIsExactIff(r: RoomState, snapshot: SyncMap, batch: seq<Message>)
    requires Exact(r)
    ensures Exact(PushWith(r, snapshot, batch))
            <==> forall s :: By(Newer(r.sync, batch), s) == [] ==> MarkOf(snapshot, s) == MarkOf(r.sync, s)
  {
    var accepted, p := Newer(r.sync, batch), PushWith(r, snapshot, batch);
    forall s
      ensures IndexedFor(By(p.log, s), p.sync, s)
              <==> (By(accepted, s) == [] ==> MarkOf(snapshot, s) == MarkOf(r.sync, s))
    {
      ByConcat(r.log, accepted, s);
      RecordAt(snapshot, accepted, s);
      assert IndexedFor(By(r.log, s), r.sync, s);
    }
  }

  /** A sender forgotten by the marks gets its messages logged twice. */
  lemma ForgottenSenderIsLoggedTwice(r: RoomState, m: Message)
    requires m in r.log && m.sender !in r.sync
    ensures Push(r, [m]).log == r.log + [m] && !NoDuplicates(Push(r, [m]).log)
  {
    OneMessage(r.sync, m);
    var i :| 0 <= i < |r.log| && r.log[i] == m;
    var log := Push(r, [m]).log;
    assert log[i] == m && log[|r.log|] == m;
  }

  /** A push of one new message, as its thread runs it from the lock on. */
  function RunToEnd(s: Shared, t: nat): (Shared, Shared, Shared)
    requires t < |s.threads| && s.threads[t].phase.Snapped? && s.holder == None && |s.threads[t].batch| == 1
  {
    var locked := After(s, Lock(t));
    var taken := After(locked, Take(t));
    (locked, taken, After(taken, Publish(t)))
  }

  lemma RunToEndEffect(s: Shared, t: nat)
    requires t < |s.threads| && s.threads[t].phase.Snapped? && s.holder == None
    requires |s.threads[t].batch| == 1 && Accepts(s.room.sync, s.threads[t].batch[0])
    ensures var (w, th, m) := (RunToEnd(s, t).2, s.threads[t], s.threads[t].batch[0]);
            && w.holder == None && w.threads == s.threads[t := Thread(th.batch, Done)]
            && w.room == RoomState(Apply(s.room.view, m), s.room.log + [m], th.phase.snapshot[m.sender := m.time])
  {}

  lemma RunAndStep(ss: seq<Shared>, steps: seq<Step>, step: Step)
    requires Run(ss, steps) && Enabled(ss[|steps|], step)
    ensures Run(ss + [After(ss[|steps|], step)], steps + [step])
  {
    var longer, more := ss + [After(ss[|steps|], step)], steps + [step];
    forall k | 0 <= k < |more| ensures Enabled(longer[k], more[k]) && longer[k + 1] == After(longer[k], more[k]) {
      assert longer[k] == ss[k];
    }
  }

  /** A run in which t goes on to its end. */
  lemma RunAndPush(ss: seq<Shared>, steps: seq<Step>, t: nat) returns (us: seq<Shared>, more: seq<Step>)
    requires Run(ss, steps) && var s := ss[|steps|]; t < |s.threads| && s.threads[t].phase.Snapped? && s.holder == None
                                                     && |s.threads[t].batch| == 1
    ensures Run(us, more) && us[0] == ss[0] && us[|more|] == RunToEnd(ss[|steps|], t).2
  {
    var (locked, taken, done) := RunToEnd(ss[|steps|], t);
    RunAndStep(ss, steps, Lock(t));
    RunAndStep(ss + [locked], steps + [Lock(t)], Take(t));
    RunAndStep(ss + [locked] + [taken], steps + [Lock(t)] + [Take(t)], Publish(t));
    us, more := ss + [locked] + [taken] + [done], steps + [Lock(t)] + [Take(t)] + [Publish(t)];
  }

  /** Two threads copy the marks before either takes the lock: the second to publish drops the first one's sender. */
  lemma TwoPushesLoseASender(r: RoomState, a: Message, b: Message) returns (ss: seq<Shared>, steps: seq<Step>)
    requires a.sender != b.sender && a.sender !in r.sync && b.sender !in r.sync
    ensures Run(ss, steps) && ss[0].room == r
    ensures var w := ss[|ss| - 1];
            && w.holder == None && w.room.log == r.log + [a] + [b]
            && a.sender !in w.room.sync
  {
    var s0 := Shared(r, [Thread([a], Idle), Thread([b], Idle)], None, []);
    var s1 := After(s0, Snapshot(0));
    var s2 := After(s1, Snapshot(1));
    RunAndStep([s0], [], Snapshot(0));
    RunAndStep([s0] + [s1], [] + [Snapshot(0)], Snapshot(1));
    ss, steps := RunAndPush([s0] + [s1] + [s2], [] + [Snapshot(0)] + [Snapshot(1)], 0);
    RunToEndEffect(s2, 0);
    var s5 := RunToEnd(s2, 0).2;
    RunToEndEffect(s5, 1);
    ss, steps := RunAndPush(ss, steps, 1);
  }
}
