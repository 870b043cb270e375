/** Adding peers to a room, announcing them, and how a newcomer learns who is in it. */
module Membership {
  import opened Sequences
  import opened Base64Url
  import opened Messages
  import opened SyncState
  import opened Commands
  import opened RoomModel

  /** Ed25519 signing with the room's own key is a parameter. */
  type Signer = SignedPart -> seq<byte>

  predicate IsFingerprint(s: string) {
    Canonical(s) == Some(s)
  }

  predicate CarryFingerprints(peers: seq<Member>) {
    forall i :: 0 <= i < |peers| ==> IsFingerprint(peers[i].fp)
  }

  lemma FingerprintHasNoSpace(s: string)
    requires IsFingerprint(s)
    ensures DELIMITER !in s
  {
    EncodeAlphabet(Decode(s).value);
  }

  function NewMessage(content: Content, sender: string, now: int, sign: Signer): Message {
    Message(sender, now, content, sign(SignedPart(sender, now, content)))
  }

  function InviteContent(fp: string): Content {
    Content(Cmd, None, None, "invite" + [DELIMITER] + fp)
  }

  function InviteMessage(self: string, fp: string, now: int, sign: Signer): Message {
    NewMessage(InviteContent(fp), self, now, sign)
  }

  /** One invite for each listed fingerprint, sent at the k-th reading of the clock. */
  function Invites(self: string, fps: seq<string>, clock: seq<int>, sign: Signer): seq<Message>
    requires |fps| == |clock|
  {
    seq(|fps|, k requires 0 <= k < |fps| => InviteMessage(self, fps[k], clock[k], sign))
  }

  /** Each message pushed as a batch of its own, as local sends are. */
  function SendEach(r: RoomState, msgs: seq<Message>): RoomState {
    if |msgs| == 0 then r else Push(SendEach(r, msgs[..|msgs| - 1]), [msgs[|msgs| - 1]])
  }

  function PeerFingerprints(peers: seq<Member>): seq<string> {
    seq(|peers|, k requires 0 <= k < |peers| => peers[k].fp)
  }

  function NewPeers(fps: seq<string>): seq<Member> {
    seq(|fps|, k requires 0 <= k < |fps| => Member(fps[k], "", false))
  }

  function SyncPeerLists(r: RoomState, clock: seq<int>, sign: Signer): RoomState
    requires |clock| == |r.view.peers|
  {
    SendEach(r, Invites(r.view.self.fp, PeerFingerprints(r.view.peers), clock, sign))
  }

  function WithPeers(r: RoomState, fps: seq<string>): RoomState {
    r.(view := r.view.(peers := r.view.peers + NewPeers(fps)))
  }

  function AddPeers(r: RoomState, fps: seq<string>, clock: seq<int>, sign: Signer): RoomState
    requires |clock| == |r.view.peers| + |fps|
  {
    SyncPeerLists(WithPeers(r, fps), clock, sign)
  }

  // ---- Members of a room, read off its log ----

  /** The keys that the invites in msgs name. */
  ghost function Invited(msgs: seq<Message>): set<string> {
    set m | m in msgs && InvitedBy(m).Some? :: InvitedBy(m).value
  }

  function InvitedBy(m: Message): Option<string> {
    match ArgumentOf(m, "invite") case None => None case Some(arg) => Canonical(arg)
  }

  /** Invites are spelled canonically, and nothing is removed. */
  ghost predicate OnlyAdds(msgs: seq<Message>) {
    forall m :: m in msgs ==> CanonicalInvite(m) && ArgumentOf(m, "remove_peer") == None
  }

  lemma ApplyMembers(v: View, m: Message)
    requires CanonicalInvite(m) && ArgumentOf(m, "remove_peer") == None
    ensures Fingerprints(Apply(v, m)) == Fingerprints(v) + if InvitedBy(m).Some? then {InvitedBy(m).value} else {}
  {
    var w := Apply(v, m);
    if HandleCommand(m, v).Ok? && REGISTERED_COMMANDS[CommandName(m)] != Invite {
      assert w.self.fp == v.self.fp && |w.peers| == |v.peers|;
      SameFingerprints(v, w);
    } else if HandleCommand(m, v).Ok? {
      var p := Member(InvitedBy(m).value, "", false);
      assert w == v.(peers := v.peers + [p]);
      assert (set q | q in w.peers :: q.fp) == (set q | q in v.peers :: q.fp) + {p.fp} by {
        assert p in w.peers;
      }
    } else if InvitedBy(m).Some? {
      var arg := ArgumentOf(m, "invite").value;
      if arg != v.self.fp {
        var i := FindPeer(v.peers, arg).value;
        assert v.peers[i] in v.peers;
      }
    }
  }

  lemma SameFingerprints(v: View, w: View)
    requires w.self.fp == v.self.fp && |w.peers| == |v.peers|
    requires forall i :: 0 <= i < |v.peers| ==> w.peers[i].fp == v.peers[i].fp
    ensures Fingerprints(v) == Fingerprints(w)
  {
    forall fp | fp in Fingerprints(v) && fp != v.self.fp ensures fp in Fingerprints(w) {
      var i :| 0 <= i < |v.peers| && v.peers[i].fp == fp;
      assert w.peers[i] in w.peers;
    }
    forall fp | fp in Fingerprints(w) && fp != v.self.fp ensures fp in Fingerprints(v) {
      var i :| 0 <= i < |w.peers| && w.peers[i].fp == fp;
      assert v.peers[i] in v.peers;
    }
  }

  /** Replaying a log without removals adds to the members exactly those it invites. */
  lemma {:induction false} ReplayMembers(v: View, msgs: seq<Message>)
    requires OnlyAdds(msgs)
    ensures Fingerprints(Replay(v, msgs)) == Fingerprints(v) + Invited(msgs)
  {
    if |msgs| != 0 {
      var front, last := msgs[..|msgs| - 1], msgs[|msgs| - 1];
      assert msgs == front + [last];
      ReplayMembers(v, front);
      ApplyMembers(Replay(v, front), last);
      InvitedSnoc(front, last);
    }
  }

  lemma InvitedSnoc(msgs: seq<Message>, m: Message)
    ensures Invited(msgs + [m]) == Invited(msgs) + if InvitedBy(m).Some? then {InvitedBy(m).value} else {}
  {
    if InvitedBy(m).Some? {
      assert m in msgs + [m];
    }
    forall x | x in msgs ensures x in msgs + [m] {}
  }

  lemma InvitedConcat(a: seq<Message>, b: seq<Message>)
    ensures Invited(a + b) == Invited(a) + Invited(b)
  {
    forall m ensures m in a + b <==> m in a || m in b {}
    forall fp | fp in Invited(a) + Invited(b) ensures fp in Invited(a + b) {
      var m :| m in a + b && InvitedBy(m) == Some(fp);
    }
  }

  // ---- Announcing the peers ----

  lemma InviteOf(self: string, fp: string, now: int, sign: Signer)
    requires IsFingerprint(fp)
    ensures var m := InviteMessage(self, fp, now, sign);
            && ArgumentOf(m, "invite") == Some(fp) && InvitedBy(m) == Some(fp)
            && CanonicalInvite(m) && ArgumentOf(m, "remove_peer") == None
            && CommandName(m) == "invite"
  {
    FingerprintHasNoSpace(fp);
    SplitConcat("invite", DELIMITER, fp);
    SplitWhole(fp, DELIMITER);
    assert Split("invite" + [DELIMITER] + fp, DELIMITER) == ["invite"] + [fp];
  }

  /** Inviting a peer that the room already has changes nothing but the log. */
  lemma InviteOfPeerKeepsView(v: View, m: Message, fp: string)
    requires ArgumentOf(m, "invite") == Some(fp) && FindPeer(v.peers, fp).Some?
    ensures Apply(v, m) == v
  {}

  /** The sends that the push logs: those whose clock reading is ahead of all earlier ones. */
  lemma {:induction false} SendEachEffect(r: RoomState, msgs: seq<Message>)
    requires Exact(r)
    requires forall i :: 0 <= i < |msgs| ==> msgs[i].sender == r.view.self.fp && Apply(r.view, msgs[i]) == r.view
    ensures var p := SendEach(r, msgs);
            && p.view == r.view && r.log <= p.log && Exact(p)
            && (forall m :: m in p.log[|r.log|..] ==> m in msgs)
  {
    if |msgs| == 0 {
      assert r.log[|r.log|..] == [];
    } else {
      var front, last := msgs[..|msgs| - 1], msgs[|msgs| - 1];
      SendEachEffect(r, front);
      var before, p := SendEach(r, front), SendEach(r, msgs);
      OneMessage(before.sync, last);
      PushKeepsIndex(before, [last]);
      assert Replay(before.view, [last]) == before.view by { ReplaySnoc(before.view, [], last); }
      var sent := Newer(before.sync, [last]);
      assert p.log[|r.log|..] == before.log[|r.log|..] + sent;
    }
  }

  /** The clock readings are strictly increasing, the first later than the room's own mark. */
  ghost predicate Advancing(sync: SyncMap, self: string, clock: seq<int>) {
    |clock| == 0 ||
    (Advancing(sync, self, clock[..|clock| - 1]) && Ahead(sync, self, clock[..|clock| - 1], clock[|clock| - 1]))
  }

  predicate Ahead(sync: SyncMap, self: string, ticks: seq<int>, now: int) {
    if |ticks| == 0 then self !in sync || sync[self] < now else ticks[|ticks| - 1] < now
  }

  ghost predicate SentAt(msgs: seq<Message>, self: string, clock: seq<int>) {
    && |clock| == |msgs|
    && forall i :: 0 <= i < |msgs| ==> msgs[i].sender == self && msgs[i].time == clock[i]
  }

  lemma {:induction false} AdvancingClockLogsAll(r: RoomState, self: string, msgs: seq<Message>, clock: seq<int>)
    requires SentAt(msgs, self, clock) && Advancing(r.sync, self, clock)
    ensures var p := SendEach(r, msgs);
            && p.log == r.log + msgs
            && (if |msgs| == 0 then p == r else self in p.sync && p.sync[self] == clock[|clock| - 1])
  {
    if |msgs| == 0 {
      assert r.log + msgs == r.log;
    } else {
      var front, last := msgs[..|msgs| - 1], msgs[|msgs| - 1];
      AdvancingClockLogsAll(r, self, front, clock[..|clock| - 1]);
      OneMessage(SendEach(r, front).sync, last);
      assert r.log + msgs == (r.log + front) + [last];
    }
  }

  lemma {:induction false} StalledClockLosesASend(r: RoomState, self: string, msgs: seq<Message>, clock: seq<int>)
    requires SentAt(msgs, self, clock)
    ensures |SendEach(r, msgs).log| <= |r.log| + |msgs|
    ensures !Advancing(r.sync, self, clock) ==> |SendEach(r, msgs).log| < |r.log| + |msgs|
  {
    if |msgs| != 0 {
      var front, last, ticks := msgs[..|msgs| - 1], msgs[|msgs| - 1], clock[..|clock| - 1];
      StalledClockLosesASend(r, self, front, ticks);
      OneMessage(SendEach(r, front).sync, last);
      if Advancing(r.sync, self, ticks) && !Advancing(r.sync, self, clock) {
        AdvancingClockLogsAll(r, self, front, ticks);
      }
    }
  }

  /** All sends are logged exactly when the clock strictly advances from the room's own mark. */
  lemma AllSendsLoggedIff(r: RoomState, msgs: seq<Message>, clock: seq<int>)
    requires SentAt(msgs, r.view.self.fp, clock)
    ensures SendEach(r, msgs).log == r.log + msgs <==> Advancing(r.sync, r.view.self.fp, clock)
  {
    if Advancing(r.sync, r.view.self.fp, clock) {
      AdvancingClockLogsAll(r, r.view.self.fp, msgs, clock);
    } else {
      StalledClockLosesASend(r, r.view.self.fp, msgs, clock);
    }
  }

  lemma InvitesOfOwnPeers(v: View, clock: seq<int>, sign: Signer, i: nat)
    requires |clock| == |v.peers| && i < |v.peers| && IsFingerprint(v.peers[i].fp)
    ensures var m := Invites(v.self.fp, PeerFingerprints(v.peers), clock, sign)[i];
            && Apply(v, m) == v && InvitedBy(m) == Some(v.peers[i].fp)
            && CanonicalInvite(m) && ArgumentOf(m, "remove_peer") == None
            && m.sender == v.self.fp && m.time == clock[i]
  {
    InviteOf(v.self.fp, v.peers[i].fp, clock[i], sign);
    InviteOfPeerKeepsView(v, InviteMessage(v.self.fp, v.peers[i].fp, clock[i], sign), v.peers[i].fp);
  }

  lemma InvitesNamePeers(v: View, clock: seq<int>, sign: Signer)
    requires |clock| == |v.peers|
    requires CarryFingerprints(v.peers)
    ensures var msgs := Invites(v.self.fp, PeerFingerprints(v.peers), clock, sign);
            Invited(msgs) + {v.self.fp} == Fingerprints(v)
  {
    var msgs := Invites(v.self.fp, PeerFingerprints(v.peers), clock, sign);
    forall fp | fp in Fingerprints(v) && fp != v.self.fp ensures fp in Invited(msgs) {
      var i :| 0 <= i < |v.peers| && v.peers[i].fp == fp;
      InvitesOfOwnPeers(v, clock, sign, i);
      assert msgs[i] in msgs;
    }
    forall fp | fp in Invited(msgs) ensures fp in Fingerprints(v) {
      var i :| 0 <= i < |msgs| && InvitedBy(msgs[i]) == Some(fp);
      InvitesOfOwnPeers(v, clock, sign, i);
      assert v.peers[i] in v.peers;
    }
  }

  lemma FewerInvites(sent: seq<Message>, msgs: seq<Message>)
    requires forall m :: m in sent ==> m in msgs
    requires forall i :: 0 <= i < |msgs| ==> CanonicalInvite(msgs[i]) && ArgumentOf(msgs[i], "remove_peer") == None
    ensures OnlyAdds(sent) && Invited(sent) <= Invited(msgs)
  {
    forall fp | fp in Invited(sent) ensures fp in Invited(msgs) {
      var m :| m in sent && InvitedBy(m) == Some(fp);
      assert m in msgs;
    }
  }

  lemma OwnInvites(r: RoomState, clock: seq<int>, sign: Signer)
    requires |clock| == |r.view.peers| && CarryFingerprints(r.view.peers)
    ensures var msgs := Invites(r.view.self.fp, PeerFingerprints(r.view.peers), clock, sign);
            && SentAt(msgs, r.view.self.fp, clock)
            && forall i :: 0 <= i < |msgs| ==> Apply(r.view, msgs[i]) == r.view && CanonicalInvite(msgs[i])
                                               && ArgumentOf(msgs[i], "remove_peer") == None
  {
    forall i | 0 <= i < |r.view.peers| {
      InvitesOfOwnPeers(r.view, clock, sign, i);
    }
  }

  /** Announcing the peers leaves the room's own view alone, and logs nothing but invites of its peers. */
  lemma SyncPeerListsEffect(r: RoomState, clock: seq<int>, sign: Signer)
    requires |clock| == |r.view.peers| && Exact(r)
    requires CarryFingerprints(r.view.peers)
    ensures var p := SyncPeerLists(r, clock, sign);
            && p.view == r.view && r.log <= p.log && Exact(p)
            && OnlyAdds(p.log[|r.log|..]) && Invited(p.log[|r.log|..]) <= Fingerprints(r.view)
  {
    var msgs := Invites(r.view.self.fp, PeerFingerprints(r.view.peers), clock, sign);
    OwnInvites(r, clock, sign);
    SendEachEffect(r, msgs);
    FewerInvites(SyncPeerLists(r, clock, sign).log[|r.log|..], msgs);
    InvitesNamePeers(r.view, clock, sign);
  }

  /** Every peer is announced exactly when the clock advances at every send. */
  lemma AllPeersAnnouncedIff(r: RoomState, clock: seq<int>, sign: Signer)
    requires |clock| == |r.view.peers| && CarryFingerprints(r.view.peers)
    ensures var p, msgs := SyncPeerLists(r, clock, sign),
                           Invites(r.view.self.fp, PeerFingerprints(r.view.peers), clock, sign);
            && (p.log == r.log + msgs <==> Advancing(r.sync, r.view.self.fp, clock))
            && Invited(msgs) + {r.view.self.fp} == Fingerprints(r.view)
  {
    OwnInvites(r, clock, sign);
    AllSendsLoggedIff(r, Invites(r.view.self.fp, PeerFingerprints(r.view.peers), clock, sign), clock);
    InvitesNamePeers(r.view, clock, sign);
  }

  // ---- A newcomer ends with the inviter's members ----

  datatype Op = PushOp(batch: seq<Message>) | AddOp(fps: seq<string>, clock: seq<int>)

  /** Removal-free batches, and additions of peers under real fingerprints. */
  ghost predicate OpAllowed(r: RoomState, op: Op) {
    match op
    case PushOp(batch) => OnlyAdds(batch)
    case AddOp(fps, clock) =>
      |clock| == |r.view.peers| + |fps| && forall i :: 0 <= i < |fps| ==> IsFingerprint(fps[i])
  }

  function Do(r: RoomState, op: Op, sign: Signer): RoomState
    requires op.AddOp? ==> |op.clock| == |r.view.peers| + |op.fps|
  {
    match op
    case PushOp(batch) => Push(r, batch)
    case AddOp(fps, clock) => AddPeers(r, fps, clock, sign)
  }

  /** rs is the life of a room: it starts without messages, and each state follows by an operation. */
  ghost predicate Life(rs: seq<RoomState>, ops: seq<Op>, self: string, sign: Signer) {
    && |rs| == |ops| + 1
    && rs[0].log == [] && rs[0].sync == map[] && rs[0].view.self.fp == self
    && CarryFingerprints(rs[0].view.peers)
    && forall k :: 0 <= k < |ops| ==> OpAllowed(rs[k], ops[k]) && rs[k + 1] == Do(rs[k], ops[k], sign)
  }

  /** Every key invited in the log is a member, peers carry fingerprints, and the log only adds. */
  ghost predicate Announced(r: RoomState) {
    && Exact(r)
    && OnlyAdds(r.log)
    && Invited(r.log) <= Fingerprints(r.view)
    && CarryFingerprints(r.view.peers)
  }

  lemma PushKeepsAnnounced(r: RoomState, batch: seq<Message>)
    requires Announced(r) && OnlyAdds(batch)
    ensures Announced(Push(r, batch))
  {
    var accepted := Newer(r.sync, batch);
    NewerMembers(r.sync, batch);
    PushKeepsIndex(r, batch);
    ReplayMembers(r.view, accepted);
    InvitedConcat(r.log, accepted);
    ReplayKeepsFingerprints(r.view, accepted);
  }

  lemma NickStoresNoKey(v: View, m: Message)
    requires CarryFingerprints(v.peers) && NickCallback(CommandName(m), m, v).Ok?
    ensures CarryFingerprints(NickCallback(CommandName(m), m, v).value.peers)
  {
    SameFingerprintsCarry(v.peers, NickCallback(CommandName(m), m, v).value.peers);
  }

  lemma PromoteStoresNoKey(v: View, m: Message)
    requires CarryFingerprints(v.peers) && PromoteCallback(CommandName(m), m, v).Ok?
    ensures CarryFingerprints(PromoteCallback(CommandName(m), m, v).value.peers)
  {
    SameFingerprintsCarry(v.peers, PromoteCallback(CommandName(m), m, v).value.peers);
  }

  lemma RemovalStoresNoKey(v: View, m: Message)
    requires CarryFingerprints(v.peers) && RemovePeerCallback(CommandName(m), m, v).Ok?
    ensures CarryFingerprints(RemovePeerCallback(CommandName(m), m, v).value.peers)
  {}

  lemma ApplyKeepsFingerprints(v: View, m: Message)
    requires CarryFingerprints(v.peers)
    ensures CarryFingerprints(Apply(v, m).peers)
  {
    if HandleCommand(m, v).Ok? {
      match REGISTERED_COMMANDS[CommandName(m)]
      case Invite => InviteStoresFingerprint(v, m);
      case NameRoom =>
      case Nick => NickStoresNoKey(v, m);
      case Promote => PromoteStoresNoKey(v, m);
      case RemovePeer => RemovalStoresNoKey(v, m);
    }
  }

  lemma SameFingerprintsCarry(ps: seq<Member>, qs: seq<Member>)
    requires CarryFingerprints(ps) && |ps| == |qs|
    requires forall i :: 0 <= i < |ps| ==> ps[i].fp == qs[i].fp
    ensures CarryFingerprints(qs)
  {}

  lemma InviteStoresFingerprint(v: View, m: Message)
    requires CarryFingerprints(v.peers) && InviteCallback(CommandName(m), m, v).Ok?
    ensures CarryFingerprints(InviteCallback(CommandName(m), m, v).value.peers)
  {
    var arg := Split(m.content.data, DELIMITER)[1];
    CanonicalIsStable(arg);
    assert InviteCallback(CommandName(m), m, v).value.peers == v.peers + [Member(Canonical(arg).value, "", false)];
  }

  lemma {:induction false} ReplayKeepsFingerprints(v: View, msgs: seq<Message>)
    requires CarryFingerprints(v.peers)
    ensures CarryFingerprints(Replay(v, msgs).peers)
  {
    if |msgs| != 0 {
      var front, last := msgs[..|msgs| - 1], msgs[|msgs| - 1];
      ReplayKeepsFingerprints(v, front);
      var u := Replay(v, front);
      ApplyKeepsFingerprints(u, last);
    }
  }

  lemma WithPeersMembers(r: RoomState, fps: seq<string>)
    ensures Fingerprints(WithPeers(r, fps).view) == Fingerprints(r.view) + (set i | 0 <= i < |fps| :: fps[i])
  {
    var v, w := r.view, WithPeers(r, fps).view;
    forall fp | fp in Fingerprints(v) && fp != v.self.fp ensures fp in Fingerprints(w) {
      var p :| p in v.peers && p.fp == fp;
      assert p in w.peers;
    }
    forall i | 0 <= i < |fps| ensures fps[i] in Fingerprints(w) {
      assert w.peers[|v.peers| + i].fp == fps[i];
      assert w.peers[|v.peers| + i] in w.peers;
    }
    forall p | p in w.peers ensures p.fp in Fingerprints(v) + (set i | 0 <= i < |fps| :: fps[i]) {
      var k :| 0 <= k < |w.peers| && w.peers[k] == p;
      if k < |v.peers| {
        assert v.peers[k] in v.peers;
      } else {
        assert p.fp == fps[k - |v.peers|];
      }
    }
  }

  lemma AddGrowsLog(r: RoomState, fps: seq<string>, clock: seq<int>, sign: Signer)
    requires Announced(r) && OpAllowed(r, AddOp(fps, clock))
    ensures AddPeers(r, fps, clock, sign).view == WithPeers(r, fps).view
    ensures r.log <= AddPeers(r, fps, clock, sign).log
  {
    SyncPeerListsEffect(WithPeers(r, fps), clock, sign);
  }

  lemma AddKeepsAnnounced(r: RoomState, fps: seq<string>, clock: seq<int>, sign: Signer)
    requires Announced(r) && OpAllowed(r, AddOp(fps, clock))
    ensures Announced(AddPeers(r, fps, clock, sign))
  {
    WithPeersMembers(r, fps);
    var p := AddPeers(r, fps, clock, sign);
    SyncPeerListsEffect(WithPeers(r, fps), clock, sign);
    assert p.log == r.log + p.log[|r.log|..];
    InvitedConcat(r.log, p.log[|r.log|..]);
  }

  /** With an advancing clock the log names every member. */
  lemma AddAnnouncesAll(r: RoomState, fps: seq<string>, clock: seq<int>, sign: Signer)
    requires Announced(r) && OpAllowed(r, AddOp(fps, clock)) && Advancing(r.sync, r.view.self.fp, clock)
    ensures var p := AddPeers(r, fps, clock, sign);
            Fingerprints(p.view) == Invited(p.log) + {r.view.self.fp}
  {
    var mid, p := WithPeers(r, fps), AddPeers(r, fps, clock, sign);
    var msgs := Invites(mid.view.self.fp, PeerFingerprints(mid.view.peers), clock, sign);
    AddGrowsLog(r, fps, clock, sign);
    AllPeersAnnouncedIff(mid, clock, sign);
    assert p.log == r.log + msgs;
    InvitedConcat(r.log, msgs);
    WithPeersMembers(r, fps);
  }

  lemma {:induction false} LifeIsAnnounced(rs: seq<RoomState>, ops: seq<Op>, self: string, sign: Signer, k: nat)
    requires Life(rs, ops, self, sign) && k < |rs|
    ensures Announced(rs[k]) && rs[k].view.self.fp == self
  {
    if k == 0 {
      forall s ensures IndexedFor(By([], s), rs[0].sync, s) {}
    } else {
      LifeIsAnnounced(rs, ops, self, sign, k - 1);
      var r := rs[k - 1];
      match ops[k - 1]
      case PushOp(batch) =>
        PushKeepsAnnounced(r, batch);
        ReplayKeepsSelf(r.view, Newer(r.sync, batch));
      case AddOp(fps, clock) =>
        AddGrowsLog(r, fps, clock, sign);
        AddKeepsAnnounced(r, fps, clock, sign);
    }
  }

  lemma {:induction false} ReplayKeepsSelf(v: View, msgs: seq<Message>)
    ensures Replay(v, msgs).self.fp == v.self.fp
  {
    if |msgs| != 0 {
      ReplayKeepsSelf(v, msgs[..|msgs| - 1]);
    }
  }

  /** The room a contact creates on request: no messages, and the inviter, as an admin, its only peer. */
  function Newcomer(fp: string, inviter: string): RoomState {
    RoomState(View(Member(fp, "", false), [Member(inviter, "", true)], ""), [], map[])
  }

  /**
   At any point of a life without removals, the room adds peers while its clock
   advances. Its own peers are then those it had and the added ones, and any
   added newcomer that receives the log ends with exactly the same members.
   */
  lemma NewcomerLearnsMembers(rs: seq<RoomState>, ops: seq<Op>, self: string, sign: Signer,
                              fps: seq<string>, clock: seq<int>, n: nat)
    requires Life(rs, ops, self, sign) && n < |fps|
    requires OpAllowed(rs[|rs| - 1], AddOp(fps, clock)) && Advancing(rs[|rs| - 1].sync, self, clock)
    ensures var r := rs[|rs| - 1];
            var p := AddPeers(r, fps, clock, sign);
            && p.view == WithPeers(r, fps).view
            && Fingerprints(Push(Newcomer(fps[n], self), p.log).view) == Fingerprints(p.view)
  {
    var r := rs[|rs| - 1];
    var p := AddPeers(r, fps, clock, sign);
    LifeIsAnnounced(rs, ops, self, sign, |rs| - 1);
    AddGrowsLog(r, fps, clock, sign);
    AddKeepsAnnounced(r, fps, clock, sign);
    AddAnnouncesAll(r, fps, clock, sign);
    WithPeersMembers(r, fps);
    NewcomerReplays(fps[n], self, p.log);
    assert fps[n] in Fingerprints(p.view);
  }

  lemma NewcomerReplays(fp: string, inviter: string, log: seq<Message>)
    requires OnlyAdds(log)
    ensures Fingerprints(Push(Newcomer(fp, inviter), log).view) == {fp, inviter} + Invited(log)
  {
    var start := Newcomer(fp, inviter);
    FilterAll(AcceptedBy(map[]), log);
    ReplayMembers(start.view, log);
    assert start.view.peers[0] in start.view.peers;
    assert Fingerprints(start.view) == {fp, inviter};
  }
}
