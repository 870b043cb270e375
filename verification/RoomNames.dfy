/**
 The name of a room is the word of the last name_room message in its log. Syncs
 bring rooms to the same messages, but each in its own order: this says when the
 names agree as well.
 */
module RoomNames {
  import opened Sequences
  import opened Messages
  import opened SyncState
  import opened Commands
  import opened RoomModel
  import opened Replication
  import opened Convergence

  function NameWord(m: Message): Option<string> {
    ArgumentOf(m, "name_room")
  }

  /** The word of the last name_room message in log, or the name before. */
  function NameBy(log: seq<Message>, before: string): string {
    if |log| == 0 then before
    else match NameWord(log[|log| - 1])
         case Some(word) => word
         case None => NameBy(log[..|log| - 1], before)
  }

  lemma ApplyName(v: View, m: Message)
    ensures Apply(v, m).name == match NameWord(m) case Some(word) => word case None => v.name
  {
    if NameWord(m).Some? {
      NameRoomEffect(v, m);
    }
  }

  lemma {:induction false} ReplayName(v: View, msgs: seq<Message>)
    ensures Replay(v, msgs).name == NameBy(msgs, v.name)
  {
    if |msgs| != 0 {
      ReplayName(v, msgs[..|msgs| - 1]);
      ApplyName(Replay(v, msgs[..|msgs| - 1]), msgs[|msgs| - 1]);
    }
  }

  lemma {:induction false} NameByConcat(a: seq<Message>, b: seq<Message>, before: string)
    ensures NameBy(a + b, before) == NameBy(b, NameBy(a, before))
  {
    if |b| == 0 {
      assert a + b == a;
    } else {
      assert (a + b)[..|a + b| - 1] == a + b[..|b| - 1];
      NameByConcat(a, b[..|b| - 1], before);
    }
  }

  // ---- In a network ----

  /** Both ways of making a room leave it without a name. */
  predicate Nameless(steps: seq<Step>) {
    forall k :: 0 <= k < |steps| && steps[k].Create? ==> steps[k].view.name == ""
  }

  ghost predicate NamedByLog(n: Net) {
    forall i :: i in n.rooms ==> n.rooms[i].view.name == NameBy(n.rooms[i].log, "")
  }

  lemma PushKeepsNamedByLog(r: RoomState, batch: seq<Message>)
    requires r.view.name == NameBy(r.log, "")
    ensures Push(r, batch).view.name == NameBy(Push(r, batch).log, "")
  {
    ReplayName(r.view, Newer(r.sync, batch));
    NameByConcat(r.log, Newer(r.sync, batch), "");
  }

  lemma StepKeepsNamedByLog(n: Net, step: Step)
    requires NamedByLog(n) && Enabled(n, step) && (step.Create? ==> step.view.name == "")
    ensures NamedByLog(After(n, step))
  {
    match step
    case Send(m) => PushKeepsNamedByLog(n.rooms[m.sender], [m]);
    case Deliver(f) => PushKeepsNamedByLog(n.rooms[f.server], f.batch);
    case _ =>
  }

  /** In every state of every run a room has the name that its own log gives it last. */
  lemma {:induction false} NameIsLastWord(ns: seq<Net>, steps: seq<Step>, k: nat)
    requires Run(ns, steps) && Nameless(steps) && k < |ns|
    ensures NamedByLog(ns[k])
  {
    if k > 0 {
      NameIsLastWord(ns, steps, k - 1);
      StepKeepsNamedByLog(ns[k - 1], steps[k - 1]);
    }
  }

  // ---- When the order does not matter ----

  ghost predicate SameBySenders(a: seq<Message>, b: seq<Message>) {
    forall s :: By(a, s) == By(b, s)
  }

  predicate Names(log: seq<Message>) {
    exists m :: m in log && NameWord(m).Some?
  }

  /** A log that names the room ends, for some sender, in the word that it ends in. */
  lemma {:induction false} LastNamer(log: seq<Message>, before: string) returns (s: string)
    requires Names(log)
    ensures Names(By(log, s))
    ensures forall other :: NameBy(By(log, s), other) == NameBy(log, before)
  {
    var front, last := log[..|log| - 1], log[|log| - 1];
    assert log == front + [last];
    if NameWord(last).Some? {
      s := last.sender;
      FilterSnoc(SentBy(s), front, last);
      assert last in By(log, s);
    } else {
      assert Names(front);
      s := LastNamer(front, before);
      FilterSnoc(SentBy(s), front, last);
      forall other ensures NameBy(By(log, s), other) == NameBy(log, before) {
        if last.sender == s {
          assert By(log, s) == By(front, s) + [last];
        }
      }
      var m :| m in By(front, s) && NameWord(m).Some?;
      assert m in By(log, s);
    }
  }

  lemma {:induction false} NotNamed(log: seq<Message>, before: string)
    requires !Names(log)
    ensures NameBy(log, before) == before
  {
    if |log| != 0 {
      assert log[|log| - 1] in log;
      forall m | m in log[..|log| - 1] ensures NameWord(m).None? {
        assert m in log;
      }
      NotNamed(log[..|log| - 1], before);
    }
  }

  lemma {:induction false} NamedAnyway(log: seq<Message>, a: string, b: string)
    requires Names(log)
    ensures NameBy(log, a) == NameBy(log, b)
  {
    var front, last := log[..|log| - 1], log[|log| - 1];
    assert log == front + [last];
    if NameWord(last).None? {
      assert Names(front);
      NamedAnyway(front, a, b);
    }
  }

  /** All senders that name the room in log end up with the same word. */
  ghost predicate NamersAgree(log: seq<Message>) {
    forall s, t :: Names(By(log, s)) && Names(By(log, t)) ==> NameBy(By(log, s), "") == NameBy(By(log, t), "")
  }

  lemma NameOfOtherOrder(log: seq<Message>, other: seq<Message>)
    requires NamersAgree(log) && SameBySenders(log, other)
    ensures NameBy(log, "") == NameBy(other, "")
  {
    SameMembers(log, other);
    if Names(log) {
      var m :| m in log && NameWord(m).Some?;
      assert m in other;
      var s := LastNamer(log, "");
      var t := LastNamer(other, "");
      assert By(log, t) == By(other, t);
    } else {
      NotNamed(log, "");
      NotNamed(other, "");
    }
  }

  function NotBy(s: string): Message -> bool {
    (m: Message) => m.sender != s
  }

  /** The same messages, with those of s moved to the end. */
  function HeardLast(log: seq<Message>, s: string): seq<Message> {
    Filter(NotBy(s), log) + By(log, s)
  }

  lemma HeardLastIsSame(log: seq<Message>, s: string)
    ensures SameBySenders(log, HeardLast(log, s))
  {
    forall u ensures By(log, u) == By(HeardLast(log, s), u) {
      var others := Filter(NotBy(s), log);
      FilterConcat(SentBy(u), others, By(log, s));
      FilterCommutes(SentBy(u), NotBy(s), log);
      FilterCommutes(SentBy(u), SentBy(s), log);
      ByMembers(log, u);
      if u == s {
        FilterNone(NotBy(s), By(log, s));
        FilterAll(SentBy(s), By(log, s));
        assert [] + By(log, s) == By(log, s);
      } else {
        FilterAll(NotBy(s), By(log, u));
        FilterNone(SentBy(s), By(log, u));
        assert By(log, u) + [] == By(log, u);
      }
    }
  }

  /**
   Rooms with the same messages of every sender have the same name, whatever the
   order they heard them in, exactly when all senders that name the room end up
   with the same word.
   */
  lemma NameIsOrderFreeIff(log: seq<Message>)
    ensures (forall other :: SameBySenders(log, other) ==> NameBy(other, "") == NameBy(log, "")) <==> NamersAgree(log)
  {
    if NamersAgree(log) {
      forall other | SameBySenders(log, other) ensures NameBy(other, "") == NameBy(log, "") {
        NameOfOtherOrder(log, other);
      }
    } else {
      var s, t :| Names(By(log, s)) && Names(By(log, t)) && NameBy(By(log, s), "") != NameBy(By(log, t), "");
      forall u | u == s || u == t
        ensures SameBySenders(log, HeardLast(log, u)) && NameBy(HeardLast(log, u), "") == NameBy(By(log, u), "")
      {
        HeardLastIsSame(log, u);
        NameByConcat(Filter(NotBy(u), log), By(log, u), "");
        NamedAnyway(By(log, u), NameBy(Filter(NotBy(u), log), ""), "");
      }
    }
  }

  /** In a settled state linked rooms have the same name if the senders that name the room agree. */
  lemma SettledNamesAgree(ns: seq<Net>, steps: seq<Step>, k: nat, path: seq<string>)
    requires Run(ns, steps) && Nameless(steps) && k < |ns| && Settled(ns[k]) && Path(ns[k], path)
    requires NamersAgree(ns[k].rooms[path[0]].log)
    ensures ns[k].rooms[path[0]].view.name == ns[k].rooms[path[|path| - 1]].view.name
  {
    SettledRoomsAgree(ns, steps, k, path);
    NameIsLastWord(ns, steps, k);
    NameOfOtherOrder(ns[k].rooms[path[0]].log, ns[k].rooms[path[|path| - 1]].log);
  }

  // ---- Two rooms that name the conversation at the same time ----

  function RaceHistory(a: Message, b: Message, s: string): seq<Message> {
    if s == a.sender then [a] else if s == b.sender then [b] else []
  }

  /** Two linked rooms, each with a name_room message of its own that it heard first, and no other message anywhere. */
  ghost predicate Race(n: Net, a: Message, b: Message) {
    && a.sender != b.sender && NameWord(a).Some? && NameWord(b).Some?
    && Linked(n, a.sender, b.sender)
    && (forall s :: History(n, s) == RaceHistory(a, b, s))
    && [a] <= n.rooms[a.sender].log && [b] <= n.rooms[b.sender].log
  }

  lemma HeldIsInHistory(n: Net, r: RoomState, m: Message)
    requires Faithful(n, r) && m in r.log
    ensures m in History(n, m.sender)
  {
    ByMembers(r.log, m.sender);
    assert By(r.log, m.sender) <= History(n, m.sender);
  }

  lemma OnlyRaceMessages(n: Net, a: Message, b: Message)
    requires Race(n, a, b) && Invariant(n)
    ensures forall m :: m in AllMessages(n) ==> m == a || m == b
  {
    forall i, m | i in n.rooms && m in n.rooms[i].log ensures m == a || m == b {
      assert Faithful(n, n.rooms[i]);
      HeldIsInHistory(n, n.rooms[i], m);
      assert m in RaceHistory(a, b, m.sender);
    }
  }

  lemma {:induction false} NamesKeepPeers(v: View, msgs: seq<Message>)
    requires forall m :: m in msgs ==> NameWord(m).Some?
    ensures Replay(v, msgs).peers == v.peers
  {
    if |msgs| != 0 {
      NamesKeepPeers(v, msgs[..|msgs| - 1]);
      assert msgs[|msgs| - 1] in msgs;
      NameRoomEffect(Replay(v, msgs[..|msgs| - 1]), msgs[|msgs| - 1]);
    }
  }

  /** What arrives are names, so it changes no list of peers. */
  lemma DeliverKeepsPeers(n: Net, f: Flight, a: Message, b: Message)
    requires Race(n, a, b) && Invariant(n) && f in n.flights
    ensures Push(n.rooms[f.server], f.batch).view.peers == n.rooms[f.server].view.peers
  {
    var r := n.rooms[f.server];
    BatchIsKnown(n, f.batch, r);
    OnlyRaceMessages(n, a, b);
    NewerMembers(r.sync, f.batch);
    NamesKeepPeers(r.view, Newer(r.sync, f.batch));
  }

  lemma SyncKeepsRace(n: Net, step: Step, a: Message, b: Message)
    requires Race(n, a, b) && Invariant(n) && Enabled(n, step) && SyncStep(step)
    ensures Race(After(n, step), a, b)
  {
    if step.Deliver? {
      DeliverKeepsPeers(n, step.f, a, b);
      DeliverKeepsInvariant(n, step.f);
      StepGrows(n, step);
    } else {
      RoomsUntouched(n, After(n, step));
    }
  }

  lemma {:induction false} SyncsKeepRace(ns: seq<Net>, steps: seq<Step>, from: nat, k: nat, a: Message, b: Message)
    requires Run(ns, steps) && from <= k < |ns| && Race(ns[from], a, b)
    requires forall j :: from <= j < |steps| ==> SyncStep(steps[j])
    ensures Race(ns[k], a, b)
    decreases k
  {
    if from < k {
      SyncsKeepRace(ns, steps, from, k - 1, a, b);
      RunKeepsInvariant(ns, steps, k - 1);
      SyncKeepsRace(ns[k - 1], steps[k - 1], a, b);
    }
  }

  /** A log of the two messages that starts with the first ends with the second. */
  lemma TwoMessages(log: seq<Message>, a: Message, b: Message)
    requires a != b && [a] <= log && b in log && NoDuplicates(log) && forall m :: m in log ==> m == a || m == b
    ensures log == [a, b]
  {
    assert log[0] == a;
    var x :| 0 <= x < |log| && log[x] == b;
    var last := |log| - 1;
    assert log[1] in log && log[last] in log;
    assert log[1] == b && log[last] == b;
  }

  lemma RaceEndsAt(n: Net, a: Message, b: Message)
    requires Race(n, a, b) && Invariant(n) && Settled(n)
    ensures n.rooms[a.sender].log == [a, b]
    ensures SameContents(n.rooms[a.sender], n.rooms[b.sender])
  {
    var q := n.rooms[a.sender];
    LinkedAgree(n, a.sender, b.sender);
    assert n.rooms[b.sender].log[0] == b;
    assert Faithful(n, q);
    FaithfulIsOrdered(n, q);
    OrderedHasNoDuplicates(q.log);
    forall m | m in q.log ensures m == a || m == b {
      HeldIsInHistory(n, q, m);
      assert m in RaceHistory(a, b, m.sender);
    }
    TwoMessages(q.log, a, b);
  }

  lemma RaceNames(n: Net, a: Message, b: Message)
    requires Race(n, a, b) && Invariant(n) && Settled(n) && NamedByLog(n)
    ensures Some(n.rooms[a.sender].view.name) == NameWord(b)
    ensures SameContents(n.rooms[a.sender], n.rooms[b.sender])
  {
    RaceEndsAt(n, a, b);
    assert n.rooms[a.sender].view.name == NameBy([a, b], "");
  }

  /**
   However two such rooms go on to sync: once no sync has anything left to send
   they hold the same messages and marks, and each has the other's name for the
   room.
   */
  lemma RaceSwapsNames(ns: seq<Net>, steps: seq<Step>, from: nat, k: nat, a: Message, b: Message)
    requires Run(ns, steps) && Nameless(steps) && from <= k < |ns| && Race(ns[from], a, b)
    requires (forall j :: from <= j < |steps| ==> SyncStep(steps[j])) && Settled(ns[k])
    ensures a.sender in ns[k].rooms && b.sender in ns[k].rooms
    ensures SameContents(ns[k].rooms[a.sender], ns[k].rooms[b.sender])
    ensures Some(ns[k].rooms[a.sender].view.name) == NameWord(b)
    ensures Some(ns[k].rooms[b.sender].view.name) == NameWord(a)
  {
    SyncsKeepRace(ns, steps, from, k, a, b);
    RunKeepsInvariant(ns, steps, k);
    NameIsLastWord(ns, steps, k);
    RaceNames(ns[k], a, b);
    RaceNames(ns[k], b, a);
  }

  function NamingMessage(self: string, word: string): Message {
    Message(self, 1, Content(Cmd, None, None, ConstructCommand(word, "name_room")), [])
  }

  lemma NamingWord(self: string, word: string)
    requires word != "" && DELIMITER !in word
    ensures NameWord(NamingMessage(self, word)) == Some(word)
  {
    ConstructThenSplit(word, "name_room");
    SplitWhole(word, DELIMITER);
    assert Split(ConstructCommand(word, "name_room"), DELIMITER) == ["name_room", word];
  }

  function Acquainted(self: string, peer: string): View {
    View(Member(self, "", true), [Member(peer, "", false)], "")
  }

  function RaceSteps(a: Message, b: Message): seq<Step> {
    [Create(a.sender, Acquainted(a.sender, b.sender)), Create(b.sender, Acquainted(b.sender, a.sender)),
     Send(a), Send(b)]
  }

  lemma RaceStarts(a: Message, b: Message) returns (ns: seq<Net>)
    requires a.sender != b.sender && NameWord(a).Some? && NameWord(b).Some?
    ensures Run(ns, RaceSteps(a, b)) && Race(ns[4], a, b)
  {
    var steps := RaceSteps(a, b);
    var n0 := Net(map[], {}, {});
    var n1 := After(n0, steps[0]);
    var n2 := After(n1, steps[1]);
    var n3 := After(n2, steps[2]);
    var n4 := After(n3, steps[3]);
    ns := [n0, n1, n2, n3, n4];
    FirstSend(Acquainted(a.sender, b.sender), a);
    FirstSend(Acquainted(b.sender, a.sender), b);
  }

  lemma FirstSend(v: View, m: Message)
    requires NameWord(m).Some?
    ensures var r := Push(RoomState(v, [], map[]), [m]);
            r.log == [m] && By(r.log, m.sender) == [m] && r.view.peers == v.peers
  {
    OneMessage(map[], m);
    NamesKeepPeers(v, [m]);
    assert [] + [m] == [m];
    FilterAll(SentBy(m.sender), [m]);
  }

  /**
   So the names of a conversation can stay apart for good: for any two rooms and
   any two words there is a run that ends with all marks and messages the same,
   nothing left to sync, and these two names.
   */
  lemma NamesCanStayApart(i: string, j: string, x: string, y: string) returns (ns: seq<Net>, steps: seq<Step>)
    requires i != j && x != "" && y != "" && DELIMITER !in x && DELIMITER !in y
    ensures Run(ns, steps) && ns != [] && Settled(Last(ns)) && Linked(Last(ns), i, j)
    ensures SameContents(Last(ns).rooms[i], Last(ns).rooms[j])
    ensures Last(ns).rooms[i].view.name == x && Last(ns).rooms[j].view.name == y
  {
    var a, b := NamingMessage(i, y), NamingMessage(j, x);
    NamingWord(i, y);
    NamingWord(j, x);
    var start := RaceStarts(a, b);
    ns, steps := SettledIsReachable(start, RaceSteps(a, b));
    RaceSwapsNames(ns, steps, 4, |ns| - 1, a, b);
    SyncsKeepRace(ns, steps, 4, |ns| - 1, a, b);
  }
}
