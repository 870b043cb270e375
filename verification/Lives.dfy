/** What holds over the whole life of a room, whatever batches it receives and whatever peers it adds. */
module Lives {
  import opened Messages
  import opened SyncState
  import opened Commands
  import opened RoomModel
  import opened Membership

  /** Any life at all: batches of any messages, and additions of any peers. */
  ghost predicate AnyLife(rs: seq<RoomState>, ops: seq<Op>, sign: Signer) {
    && |rs| == |ops| + 1
    && forall k :: 0 <= k < |ops| ==>
         && (ops[k].AddOp? ==> |ops[k].clock| == |rs[k].view.peers| + |ops[k].fps|)
         && rs[k + 1] == Do(rs[k], ops[k], sign)
  }

  function LoggedIn(es: seq<Moment>): seq<Message> {
    if |es| == 0 then []
    else LoggedIn(es[..|es| - 1]) + match es[|es| - 1] case Logged(m) => [m] case Joined(_) => []
  }

  lemma {:induction false} LoggedInConcat(a: seq<Moment>, b: seq<Moment>)
    ensures LoggedIn(a + b) == LoggedIn(a) + LoggedIn(b)
  {
    if |b| == 0 {
      assert a + b == a;
    } else {
      assert (a + b)[..|a + b| - 1] == a + b[..|b| - 1];
      LoggedInConcat(a, b[..|b| - 1]);
    }
  }

  lemma {:induction false} LoggedInLogs(msgs: seq<Message>)
    ensures LoggedIn(Logs(msgs)) == msgs
  {
    if |msgs| != 0 {
      assert Logs(msgs)[..|msgs| - 1] == Logs(msgs[..|msgs| - 1]);
      LoggedInLogs(msgs[..|msgs| - 1]);
    }
  }

  function Joins(fps: seq<string>): seq<Moment> {
    seq(|fps|, i requires 0 <= i < |fps| => Joined(fps[i]))
  }

  lemma {:induction false} LiveOfJoins(v: View, fps: seq<string>)
    ensures Live(v, Joins(fps)) == v.(peers := v.peers + NewPeers(fps)) && LoggedIn(Joins(fps)) == []
  {
    if |fps| == 0 {
      assert v.peers + NewPeers(fps) == v.peers;
    } else {
      var front := fps[..|fps| - 1];
      assert Joins(fps)[..|fps| - 1] == Joins(front);
      LiveOfJoins(v, front);
      assert NewPeers(fps) == NewPeers(front) + [Member(fps[|fps| - 1], "", false)];
    }
  }

  lemma {:induction false} SendEachReplays(r: RoomState, msgs: seq<Message>) returns (sent: seq<Message>)
    ensures SendEach(r, msgs).view == Replay(r.view, sent) && SendEach(r, msgs).log == r.log + sent
  {
    if |msgs| == 0 {
      sent := [];
    } else {
      var front, last := msgs[..|msgs| - 1], msgs[|msgs| - 1];
      sent := SendEachReplays(r, front);
      var more := Newer(SendEach(r, front).sync, [last]);
      ReplayConcat(r.view, sent, more);
      sent := sent + more;
    }
  }

  /** An operation is a stretch of moments, and logs what is logged in them. */
  lemma OpMoments(r: RoomState, op: Op, sign: Signer) returns (es: seq<Moment>)
    requires op.AddOp? ==> |op.clock| == |r.view.peers| + |op.fps|
    ensures Do(r, op, sign).view == Live(r.view, es) && Do(r, op, sign).log == r.log + LoggedIn(es)
  {
    match op
    case PushOp(batch) =>
      es := Logs(Newer(r.sync, batch));
      LiveOfLogs(r.view, Newer(r.sync, batch));
      LoggedInLogs(Newer(r.sync, batch));
    case AddOp(fps, clock) =>
      var mid := WithPeers(r, fps);
      LiveOfJoins(r.view, fps);
      var sent := SendEachReplays(mid, Invites(mid.view.self.fp, PeerFingerprints(mid.view.peers), clock, sign));
      LiveOfLogs(mid.view, sent);
      LoggedInLogs(sent);
      es := Joins(fps) + Logs(sent);
      LiveConcat(r.view, Joins(fps), Logs(sent));
      LoggedInConcat(Joins(fps), Logs(sent));
      assert [] + sent == sent;
  }

  lemma {:induction false} LifeMoments(rs: seq<RoomState>, ops: seq<Op>, sign: Signer, k: nat) returns (es: seq<Moment>)
    requires AnyLife(rs, ops, sign) && k < |rs|
    ensures rs[k].view == Live(rs[0].view, es) && rs[k].log == rs[0].log + LoggedIn(es)
  {
    if k == 0 {
      es := [];
    } else {
      var before := LifeMoments(rs, ops, sign, k - 1);
      var more := OpMoments(rs[k - 1], ops[k - 1], sign);
      LiveConcat(rs[0].view, before, more);
      LoggedInConcat(before, more);
      es := before + more;
    }
  }

  // ---- Admins ----

  /**
   At any point of the life of a room, with pushes of any batches and additions
   of peers in between: an admin was one at the beginning, or is the end of a
   chain of promotions that the room has logged, each by a member that was an
   admin at that moment.
   */
  lemma AdminOfALife(rs: seq<RoomState>, ops: seq<Op>, sign: Signer, k: nat, fp: string)
    returns (es: seq<Moment>, ks: seq<nat>)
    requires AnyLife(rs, ops, sign) && k < |rs| && fp in Admins(rs[k].view)
    ensures rs[k].view == Live(rs[0].view, es) && rs[k].log == rs[0].log + LoggedIn(es)
    ensures PromotionChain(rs[0].view, es, ks, fp)
  {
    es := LifeMoments(rs, ops, sign, k);
    ks := AdminProvenance(rs[0].view, es, fp);
  }

  /**
   A room that has no admin never gets one, and never loses a member, by any
   batches that it receives and any peers that it adds.
   */
  lemma NoAdminInALife(rs: seq<RoomState>, ops: seq<Op>, sign: Signer, k: nat)
    requires AnyLife(rs, ops, sign) && k < |rs| && Admins(rs[0].view) == {}
    ensures Admins(rs[k].view) == {} && Fingerprints(rs[0].view) <= Fingerprints(rs[k].view)
  {
    var es := LifeMoments(rs, ops, sign, k);
    NoAdminNoPower(rs[0].view, es);
  }

  // ---- Peer lists without repetitions ----

  /** No fingerprint to be added is a member's already, and none is there twice. */
  ghost predicate NewAndDistinct(v: View, fps: seq<string>) {
    forall i :: 0 <= i < |fps| ==>
      fps[i] !in Fingerprints(v) && forall j :: i < j < |fps| ==> fps[i] != fps[j]
  }

  lemma WithPeersWellFormedIff(r: RoomState, fps: seq<string>)
    requires WellFormed(r.view)
    ensures WellFormed(WithPeers(r, fps).view) <==> NewAndDistinct(r.view, fps)
  {
    var had, n := r.view.peers, |r.view.peers|;
    var all := WithPeers(r, fps).view.peers;
    if WellFormed(WithPeers(r, fps).view) {
      forall i | 0 <= i < |fps|
        ensures fps[i] !in Fingerprints(r.view) && forall j :: i < j < |fps| ==> fps[i] != fps[j]
      {
        assert all[n + i].fp == fps[i];
        forall j | i < j < |fps| ensures fps[i] != fps[j] {
          assert all[n + j].fp == fps[j];
        }
        forall p | p in had ensures p.fp != fps[i] {
          var k :| 0 <= k < n && had[k] == p;
          assert all[k] == p;
        }
      }
    }
    if NewAndDistinct(r.view, fps) {
      forall k | 0 <= k < n ensures all[k].fp in Fingerprints(r.view) && all[k].fp != r.view.self.fp {
        assert all[k] == had[k] && had[k] in had;
      }
      forall k | n <= k < |all| ensures all[k].fp == fps[k - n] {}
    }
  }

  /**
   Adding peers checks nothing, and a contact chooses what it answers: a
   well-formed room stays so exactly when the answers are new and distinct.
   */
  lemma AddPeersKeepsWellFormedIff(r: RoomState, fps: seq<string>, clock: seq<int>, sign: Signer)
    requires WellFormed(r.view) && CarryFingerprints(r.view.peers) && Exact(r)
    requires OpAllowed(r, AddOp(fps, clock))
    ensures WellFormed(AddPeers(r, fps, clock, sign).view) <==> NewAndDistinct(r.view, fps)
  {
    WithPeersWellFormedIff(r, fps);
    SyncPeerListsEffect(WithPeers(r, fps), clock, sign);
  }

  /** The life starts in good order, its invites are canonical, and added peers have fingerprints; Room sees to that. */
  ghost predicate CanonicalLife(rs: seq<RoomState>, ops: seq<Op>, sign: Signer) {
    && AnyLife(rs, ops, sign)
    && WellFormed(rs[0].view) && CarryFingerprints(rs[0].view.peers) && Exact(rs[0])
    && forall k :: 0 <= k < |ops| ==>
         match ops[k]
         case PushOp(batch) => forall m :: m in batch ==> CanonicalInvite(m)
         case AddOp(fps, _) => forall i :: 0 <= i < |fps| ==> IsFingerprint(fps[i])
  }

  lemma {:induction false} CanonicalLifeCarries(rs: seq<RoomState>, ops: seq<Op>, sign: Signer, k: nat)
    requires CanonicalLife(rs, ops, sign) && k < |rs|
    ensures CarryFingerprints(rs[k].view.peers) && Exact(rs[k])
  {
    if k > 0 {
      CanonicalLifeCarries(rs, ops, sign, k - 1);
      var r := rs[k - 1];
      match ops[k - 1]
      case PushOp(batch) =>
        PushKeepsIndex(r, batch);
        ReplayKeepsFingerprints(r.view, Newer(r.sync, batch));
      case AddOp(fps, clock) =>
        SyncPeerListsEffect(WithPeers(r, fps), clock, sign);
    }
  }

  lemma OpKeepsWellFormedIff(rs: seq<RoomState>, ops: seq<Op>, sign: Signer, k: nat)
    requires CanonicalLife(rs, ops, sign) && k < |ops| && WellFormed(rs[k].view)
    ensures WellFormed(rs[k + 1].view) <==> (ops[k].AddOp? ==> NewAndDistinct(rs[k].view, ops[k].fps))
  {
    CanonicalLifeCarries(rs, ops, sign, k);
    match ops[k]
    case PushOp(batch) =>
      NewerMembers(rs[k].sync, batch);
      ReplayKeepsWellFormed(rs[k].view, Newer(rs[k].sync, batch));
    case AddOp(fps, clock) => AddPeersKeepsWellFormedIff(rs[k], fps, clock, sign);
  }

  /** Up to its k-th state, every peer that the room adds is new. */
  ghost predicate AddsNewPeers(rs: seq<RoomState>, ops: seq<Op>, k: nat)
    requires k <= |ops| <= |rs|
  {
    forall j :: 0 <= j < k ==> ops[j].AddOp? ==> NewAndDistinct(rs[j].view, ops[j].fps)
  }

  lemma {:induction false} NewPeersKeepWellFormed(rs: seq<RoomState>, ops: seq<Op>, sign: Signer, k: nat)
    requires CanonicalLife(rs, ops, sign) && k < |rs| && AddsNewPeers(rs, ops, k)
    ensures forall j :: 0 <= j <= k ==> WellFormed(rs[j].view)
  {
    if k > 0 {
      NewPeersKeepWellFormed(rs, ops, sign, k - 1);
      OpKeepsWellFormedIff(rs, ops, sign, k - 1);
    }
  }

  /**
   Over a life with canonical invites the peers of a room stay distinct, and
   different from the room itself, exactly when all peers that it adds are new
   and distinct when they are added.
   */
  lemma WellFormedLifeIff(rs: seq<RoomState>, ops: seq<Op>, sign: Signer, k: nat)
    requires CanonicalLife(rs, ops, sign) && k < |rs|
    ensures (forall j :: 0 <= j <= k ==> WellFormed(rs[j].view)) <==> AddsNewPeers(rs, ops, k)
  {
    if AddsNewPeers(rs, ops, k) {
      NewPeersKeepWellFormed(rs, ops, sign, k);
    } else {
      var j :| 0 <= j < k && ops[j].AddOp? && !NewAndDistinct(rs[j].view, ops[j].fps);
      if WellFormed(rs[j].view) {
        OpKeepsWellFormedIff(rs, ops, sign, j);
        assert !WellFormed(rs[j + 1].view);
      }
    }
  }
}
