/**
 The per-sender high-water marks of a log, and what they say about it.
 A mark map plays the part of a vector clock: Newer picks what a holder of the
 marks has not seen, Record moves the marks, and Indexed says that the marks
 describe a log exactly.
 */
module SyncState {
  import opened Sequences
  import opened Messages

  type SyncMap = map<string, int>

  /** A message is new to the holder of sync if it is later than the sender's mark. */
  predicate Accepts(sync: SyncMap, m: Message) {
    m.sender !in sync || m.time > sync[m.sender]
  }

  function AcceptedBy(sync: SyncMap): Message -> bool {
    (m: Message) => Accepts(sync, m)
  }

  /** The messages that are new to the holder of sync, in order. */
  function Newer(sync: SyncMap, msgs: seq<Message>): seq<Message> {
    Filter(AcceptedBy(sync), msgs)
  }

  /** The marks after msgs were logged one by one: the last message of a sender wins. */
  function Record(sync: SyncMap, msgs: seq<Message>): SyncMap {
    if |msgs| == 0 then sync
    else Record(sync, msgs[..|msgs| - 1])[msgs[|msgs| - 1].sender := msgs[|msgs| - 1].time]
  }

  function SentBy(s: string): Message -> bool {
    (m: Message) => m.sender == s
  }

  /** The messages of one sender, in order. */
  function By(log: seq<Message>, s: string): seq<Message> {
    Filter(SentBy(s), log)
  }

  predicate Increasing(msgs: seq<Message>) {
    forall i, j :: 0 <= i < j < |msgs| ==> msgs[i].time < msgs[j].time
  }

  /** Every sender's messages carry strictly increasing times. */
  ghost predicate Ordered(log: seq<Message>) {
    forall s :: Increasing(By(log, s))
  }

  /** sync holds a mark for exactly the senders in log, and it is the time of their last message. */
  ghost predicate Indexed(log: seq<Message>, sync: SyncMap) {
    forall s :: IndexedFor(By(log, s), sync, s)
  }

  predicate IndexedFor(own: seq<Message>, sync: SyncMap, s: string) {
    if own == [] then s !in sync else s in sync && sync[s] == own[|own| - 1].time
  }

  function MarkOf(sync: SyncMap, s: string): Option<int> {
    if s in sync then Some(sync[s]) else None
  }

  ghost predicate NoDuplicates<T(!new)>(xs: seq<T>) {
    forall i, j :: 0 <= i < j < |xs| ==> xs[i] != xs[j]
  }

  /** a is nowhere ahead of b. */
  ghost predicate Below(a: SyncMap, b: SyncMap) {
    forall s :: s in a ==> s in b && a[s] <= b[s]
  }

  /** r is the pointwise maximum of a and b. */
  ghost predicate IsJoin(r: SyncMap, a: SyncMap, b: SyncMap) {
    && (forall s :: s in r <==> s in a || s in b)
    && (forall s :: s in r ==> r[s] == JoinAt(a, b, s))
  }

  function JoinAt(a: SyncMap, b: SyncMap, s: string): int
    requires s in a || s in b
  {
    if s !in a then b[s] else if s !in b then a[s] else if a[s] < b[s] then b[s] else a[s]
  }

  // ---- Splitting a log by sender ----

  lemma ByConcat(a: seq<Message>, b: seq<Message>, s: string)
    ensures By(a + b, s) == By(a, s) + By(b, s)
  {
    FilterConcat(SentBy(s), a, b);
  }

  lemma ByMembers(log: seq<Message>, s: string)
    ensures forall m :: m in By(log, s) <==> m in log && m.sender == s
  {
    FilterMembers(SentBy(s), log);
  }

  lemma NewerBy(sync: SyncMap, msgs: seq<Message>, s: string)
    ensures By(Newer(sync, msgs), s) == Newer(sync, By(msgs, s))
  {
    FilterCommutes(SentBy(s), AcceptedBy(sync), msgs);
  }

  lemma NewerMembers(sync: SyncMap, msgs: seq<Message>)
    ensures forall m :: m in Newer(sync, msgs) <==> m in msgs && Accepts(sync, m)
  {
    FilterMembers(AcceptedBy(sync), msgs);
  }

  /** Two logs with the same messages of every sender have the same messages. */
  lemma SameMembers(a: seq<Message>, b: seq<Message>)
    requires forall s :: By(a, s) == By(b, s)
    ensures forall m :: m in a <==> m in b
  {
    forall m: Message ensures m in a <==> m in b {
      ByMembers(a, m.sender);
      ByMembers(b, m.sender);
      assert By(a, m.sender) == By(b, m.sender);
    }
  }

  lemma BySnoc(log: seq<Message>, m: Message, s: string)
    ensures By(log + [m], s) == By(log, s) + if s == m.sender then [m] else []
  {
    FilterSnoc(SentBy(s), log, m);
  }

  lemma IncreasingSnoc(own: seq<Message>, m: Message)
    ensures Increasing(own + [m]) <==> Increasing(own) && forall x :: x in own ==> x.time < m.time
  {
    var more := own + [m];
    if Increasing(more) {
      assert forall k :: 0 <= k < |own| ==> own[k] == more[k];
      assert forall k :: 0 <= k < |own| ==> more[k].time < more[|own|].time;
    }
    if forall x :: x in own ==> x.time < m.time {
      assert forall k :: 0 <= k < |own| ==> own[k] in own && more[k] == own[k];
    }
  }

  /** Adding a message keeps a log ordered exactly when it is later than all of its sender's others. */
  lemma OrderedSnoc(log: seq<Message>, m: Message)
    ensures Ordered(log + [m]) <==>
            Ordered(log) && forall x :: x in log && x.sender == m.sender ==> x.time < m.time
  {
    var own := By(log, m.sender);
    ByMembers(log, m.sender);
    IncreasingSnoc(own, m);
    BySnoc(log, m, m.sender);
    if Ordered(log + [m]) {
      assert Increasing(own + [m]);
      forall s ensures Increasing(By(log, s)) {
        assert Increasing(By(log + [m], s));
        BySnoc(log, m, s);
      }
    }
    if Ordered(log) && forall x :: x in own ==> x.time < m.time {
      assert Increasing(own);
      forall s ensures Increasing(By(log + [m], s)) {
        assert Increasing(By(log, s));
        BySnoc(log, m, s);
      }
    }
  }

  ghost predicate PairwiseOrdered(log: seq<Message>) {
    forall i, j :: 0 <= i < j < |log| && log[i].sender == log[j].sender ==> log[i].time < log[j].time
  }

  /** In an ordered log, of two messages of one sender the later is logged later. */
  lemma {:induction false} OrderedPairwise(log: seq<Message>)
    ensures Ordered(log) <==> PairwiseOrdered(log)
  {
    if |log| != 0 {
      var front, last := log[..|log| - 1], log[|log| - 1];
      assert log == front + [last];
      OrderedPairwise(front);
      OrderedSnoc(front, last);
      if PairwiseOrdered(front) && (forall x :: x in front && x.sender == last.sender ==> x.time < last.time) {
        assert PairwiseOrdered(log);
      }
      if PairwiseOrdered(log) {
        assert PairwiseOrdered(front);
        forall x | x in front && x.sender == last.sender ensures x.time < last.time {
          var i :| 0 <= i < |front| && front[i] == x;
          assert log[i] == x;
        }
      }
    }
  }

  lemma OrderedHasNoDuplicates(log: seq<Message>)
    requires Ordered(log)
    ensures NoDuplicates(log)
  {
    OrderedPairwise(log);
  }

  // ---- Marks and the log they describe ----

  lemma RecordSnoc(sync: SyncMap, msgs: seq<Message>, m: Message)
    ensures Record(sync, msgs + [m]) == Record(sync, msgs)[m.sender := m.time]
  {
    assert (msgs + [m])[..|msgs|] == msgs;
  }

  lemma {:induction false} RecordConcat(sync: SyncMap, a: seq<Message>, b: seq<Message>)
    ensures Record(sync, a + b) == Record(Record(sync, a), b)
  {
    if |b| == 0 {
      assert a + b == a;
    } else {
      var front, last := b[..|b| - 1], b[|b| - 1];
      assert a + b == (a + front) + [last];
      RecordSnoc(sync, a + front, last);
      RecordConcat(sync, a, front);
    }
  }

  /** Logging messages while recording them keeps the marks exact, for any messages at all. */
  lemma {:induction false} RecordKeepsIndex(log: seq<Message>, sync: SyncMap, msgs: seq<Message>)
    requires Indexed(log, sync)
    ensures Indexed(log + msgs, Record(sync, msgs))
  {
    if |msgs| == 0 {
      assert log + msgs == log;
    } else {
      var front, last := msgs[..|msgs| - 1], msgs[|msgs| - 1];
      RecordKeepsIndex(log, sync, front);
      assert log + msgs == (log + front) + [last];
      forall s ensures IndexedFor(By(log + msgs, s), Record(sync, msgs), s) {
        FilterSnoc(SentBy(s), log + front, last);
        assert IndexedFor(By(log + front, s), Record(sync, front), s);
      }
    }
  }

  /** A log has at most one exact index. */
  lemma IndexIsUnique(log: seq<Message>, a: SyncMap, b: SyncMap)
    requires Indexed(log, a) && Indexed(log, b)
    ensures a == b
  {
    forall s ensures s in a <==> s in b {
      assert IndexedFor(By(log, s), a, s) && IndexedFor(By(log, s), b, s);
    }
    forall s | s in a ensures a[s] == b[s] {
      assert IndexedFor(By(log, s), a, s) && IndexedFor(By(log, s), b, s);
    }
  }

  /** Of an increasing history, the holder of the prefix p accepts exactly what follows p. */
  lemma AcceptsBeyondPrefix(sync: SyncMap, s: string, a: seq<Message>, p: seq<Message>, i: nat)
    requires Increasing(a) && p <= a && IndexedFor(p, sync, s)
    requires i < |a| && a[i].sender == s
    ensures Accepts(sync, a[i]) <==> i >= |p|
  {
    if p != [] {
      assert p[|p| - 1] == a[|p| - 1];
      if i < |p| - 1 {
        assert a[i].time < a[|p| - 1].time;
      } else if i > |p| - 1 {
        assert a[|p| - 1].time < a[i].time;
      }
    }
  }

  lemma SegmentSnoc<T>(a: seq<T>, k: nat, end: nat)
    requires k < end <= |a|
    ensures a[k..end] == a[k..end - 1] + [a[end - 1]]
  {}

  /**
   The heart of replication. p is what a node holds of the history a of one
   sender, and segment is a stretch of a that starts no later than where p ends.
   Then exactly the part of the segment beyond p is new.
   */
  lemma {:induction false} NewerOfSegment(sync: SyncMap, s: string, a: seq<Message>, p: seq<Message>,
                                          k: nat, end: nat)
    requires Increasing(a) && p <= a && IndexedFor(p, sync, s)
    requires forall i :: 0 <= i < |a| ==> a[i].sender == s
    requires k <= |p| && k <= end <= |a|
    ensures Newer(sync, a[k..end]) == if end <= |p| then [] else a[|p|..end]
    decreases end
  {
    if k < end {
      NewerOfSegment(sync, s, a, p, k, end - 1);
      AcceptsBeyondPrefix(sync, s, a, p, end - 1);
      SegmentSnoc(a, k, end);
      FilterSnoc(AcceptedBy(sync), a[k..end - 1], a[end - 1]);
      if end > |p| {
        SegmentSnoc(a, |p|, end);
      }
    }
  }

  /** What a holder of marks below its own index would be sent is a stretch of the history. */
  lemma {:induction false} NewerOfPrefix(sync: SyncMap, s: string, q: seq<Message>)
    returns (k: nat)
    requires Increasing(q)
    requires forall i :: 0 <= i < |q| ==> q[i].sender == s
    ensures k <= |q| && Newer(sync, q) == q[k..]
    ensures forall i :: 0 <= i < |q| ==> (i >= k <==> Accepts(sync, q[i]))
  {
    if |q| == 0 {
      k := 0;
    } else {
      var front, last := q[..|q| - 1], q[|q| - 1];
      k := NewerOfPrefix(sync, s, front);
      if k < |front| {
        assert Accepts(sync, front[k]);
      } else if !Accepts(sync, last) {
        k := |q|;
      }
    }
  }

  // ---- Copying and comparing marks, as loops over the map ----

  method CopySyncMap(m: SyncMap) returns (cp: SyncMap)
    ensures cp == m
  {
    cp := map[];
    var todo := m.Keys;
    while todo != {}
      invariant todo <= m.Keys
      invariant cp.Keys == m.Keys - todo
      invariant forall k :: k in cp ==> cp[k] == m[k]
      decreases |todo|
    {
      var k :| k in todo;
      cp := cp[k := m[k]];
      todo := todo - {k};
    }
  }

  /** The comparison only walks the first map. */
  method SyncMapsEqual(m1: SyncMap, m2: SyncMap) returns (equal: bool)
    ensures equal <==> Contained(m1, m2)
  {
    var todo := m1.Keys;
    while todo != {}
      invariant todo <= m1.Keys
      invariant forall k :: k in m1.Keys - todo ==> k in m2 && m2[k] == m1[k]
      decreases |todo|
    {
      var k :| k in todo;
      if k !in m2 || m2[k] != m1[k] {
        return false;
      }
      todo := todo - {k};
    }
    return true;
  }

  predicate Contained(m1: SyncMap, m2: SyncMap) {
    forall k :: k in m1 ==> k in m2 && m2[k] == m1[k]
  }

  /** The one-sided comparison decides equality exactly when no sender of the second map is missing in the first. */
  lemma ContainedIsEqualityIff(m1: SyncMap, m2: SyncMap)
    requires Contained(m1, m2)
    ensures m1 == m2 <==> m2.Keys <= m1.Keys
  {
    if m2.Keys <= m1.Keys {
      assert m1.Keys == m2.Keys;
    }
  }
}
