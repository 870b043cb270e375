/**
 A room as the program holds it: an object whose peers carry shared, mutable
 name-and-admin records, updated in place by pushes and commands. Every method
 is tied to the value model of Commands, RoomModel and Membership.
 */
module Rooms {
  import opened Sequences
  import opened Base64Url
  import opened Messages
  import opened SyncState
  import opened RoomModel
  import opened Membership
  import C = Commands

  class IdentityMeta {
    var nick: string
    var admin: bool

    constructor (admin: bool)
      ensures nick == "" && this.admin == admin
    {
      nick, this.admin := "", admin;
    }
  }

  /** Copied by value, but every copy points at the same record. */
  datatype Identity = Identity(fp: string, meta: IdentityMeta)

  class MessagingPeer {
    const identity: Identity
    var stopped: bool

    constructor (identity: Identity)
      ensures this.identity == identity && !stopped
    {
      this.identity := identity;
      stopped := false;
    }

    method Stop()
      modifies this
      ensures stopped
    {
      stopped := true;
    }
  }

  function MemberOf(id: Identity): C.Member
    reads id.meta
  {
    C.Member(id.fp, id.meta.nick, id.meta.admin)
  }

  class Room {
    const self: Identity
    var peers: seq<MessagingPeer>
    var name: string
    var messages: seq<Message>
    var syncState: SyncMap

    ghost var view: C.View
    ghost var Repr: set<object>

    /** Members do not share records, and view is what the fields and records show. */
    ghost predicate Valid()
      reads this, Repr
    {
      && this in Repr && self.meta in Repr
      && (forall i :: 0 <= i < |peers| ==> peers[i] in Repr && peers[i].identity.meta in Repr)
      && (forall i :: 0 <= i < |peers| ==> peers[i].identity.meta != self.meta)
      && (forall i, j :: 0 <= i < j < |peers| ==> peers[i].identity.meta != peers[j].identity.meta)
      && view.name == name && view.self == MemberOf(self)
      && |view.peers| == |peers|
      && forall i :: 0 <= i < |peers| ==> view.peers[i] == MemberOf(peers[i].identity)
    }

    ghost function State(): RoomState
      reads this
    {
      RoomState(view, messages, syncState)
    }

    /** The identity kept at a slot of the view. */
    ghost function IdentityAt(slot: C.Slot): Identity
      reads this
      requires slot.PeerSlot? ==> slot.i < |peers|
    {
      match slot case PeerSlot(i) => peers[i].identity case SelfSlot => self
    }

    constructor (self: Identity)
      ensures Valid() && fresh(Repr - {self.meta}) && this.self == self && peers == []
      ensures State() == RoomState(C.View(MemberOf(self), [], ""), [], map[])
    {
      this.self := self;
      peers, name, messages, syncState := [], "", [], map[];
      view := C.View(C.Member(self.fp, self.meta.nick, self.meta.admin), [], "");
      Repr := {this, self.meta};
    }

    /** The index of the first peer with the fingerprint, if there is one. */
    method FindPeer(fp: string) returns (found: Option<nat>)
      requires Valid()
      ensures found == C.FindPeer(view.peers, fp)
    {
      var i := 0;
      while i < |peers|
        invariant i <= |peers|
        invariant forall j :: 0 <= j < i ==> view.peers[j].fp != fp
      {
        if peers[i].identity.fp == fp {
          assert view.peers[i].fp == fp;
          return Some(i);
        }
        i := i + 1;
      }
      return None;
    }

    method PeerByFingerprint(fp: string) returns (id: Option<Identity>)
      requires Valid()
      ensures match C.FindPeer(view.peers, fp)
              case None => id == None
              case Some(i) => id == Some(peers[i].identity)
    {
      var i := FindPeer(fp);
      id := if i.Some? then Some(peers[i.value].identity) else None;
    }

    method RemovePeer(toRemove: string) returns (err: Option<C.CommandError>)
      requires Valid()
      modifies Repr
      ensures Valid() && Repr == old(Repr)
      ensures match C.FindPeer(old(view).peers, toRemove)
              case None => err == Some(C.PeerNotFound) && State() == old(State())
              case Some(i) =>
                && err == None && old(peers[i]).stopped
                && State() == old(State()).(view := old(view).(peers := C.RemovePeerAt(old(view).peers, i)))
    {
      var found := FindPeer(toRemove);
      if found.None? {
        return Some(C.PeerNotFound);
      }
      DropPeerAt(found.value);
      return None;
    }

    /** Stops the peer's queue and closes the gap it leaves. */
    method DropPeerAt(i: nat)
      requires Valid() && i < |peers|
      modifies this`peers, this`view, peers[i]
      ensures Valid() && old(peers[i]).stopped
      ensures view == old(view).(peers := C.RemovePeerAt(old(view).peers, i))
    {
      peers[i].Stop();
      peers := peers[..i] + peers[i + 1..];
      view := view.(peers := C.RemovePeerAt(view.peers, i));
      assert forall k :: 0 <= k < |peers| ==> peers[k] == old(peers)[if k < i then k else k + 1];
    }

    method GetSender(m: Message, shouldBeAdmin: bool) returns (sender: C.Result<Identity>)
      requires Valid()
      ensures match C.GetSender(m, view, shouldBeAdmin)
              case Err(e) => sender == C.Err(e)
              case Ok(slot) => sender == C.Ok(IdentityAt(slot))
    {
      var found := PeerByFingerprint(m.sender);
      if found.None? && self.fp != m.sender {
        return C.Err(C.PeerNotFound);
      }
      var id := if found.Some? then found.value else self;
      if shouldBeAdmin && !id.meta.admin {
        return C.Err(C.NotAdmin);
      }
      return C.Ok(id);
    }

    /** Writes through the record that all copies of the identity share. */
    method WriteMeta(id: Identity, nick: string, admin: bool, ghost slot: C.Slot)
      requires Valid() && C.SlotIn(slot, view) && id == IdentityAt(slot)
      modifies this`view, id.meta
      ensures Valid()
      ensures view == C.Put(old(view), slot, C.Member(id.fp, nick, admin))
    {
      id.meta.nick, id.meta.admin := nick, admin;
      view := C.Put(view, slot, C.Member(id.fp, nick, admin));
    }

    /** Appends peers whose records the room does not hold yet; added holds their objects. */
    method AppendPeers(newPeers: seq<MessagingPeer>, ghost members: seq<C.Member>, ghost added: set<object>)
      requires Valid() && |members| == |newPeers|
      requires forall i :: 0 <= i < |newPeers| ==>
                 && newPeers[i] in added && newPeers[i].identity.meta in added - Repr
                 && members[i] == MemberOf(newPeers[i].identity)
      requires forall i, j :: 0 <= i < j < |newPeers| ==> newPeers[i].identity.meta != newPeers[j].identity.meta
      modifies this`peers, this`view, this`Repr
      ensures Valid() && peers == old(peers) + newPeers && Repr == old(Repr) + added
      ensures view == old(view).(peers := old(view).peers + members)
    {
      assert forall i :: 0 <= i < |peers| ==> peers[i].identity.meta in Repr;
      peers := peers + newPeers;
      view := view.(peers := view.peers + members);
      Repr := Repr + added;
    }

    /** What a command leaves behind: the model's view on success, nothing new on failure. */
    ghost predicate Outcome(before: RoomState, err: Option<C.CommandError>, expected: C.Result<C.View>)
      reads this, Repr
    {
      && Valid()
      && match expected
         case Ok(v) => err == None && State() == before.(view := v)
         case Err(e) => err == Some(e) && State() == before
    }

    method InviteCallback(command: string, m: Message) returns (err: Option<C.CommandError>)
      requires Valid()
      modifies Repr
      ensures Outcome(old(State()), err, C.InviteCallback(command, m, old(view))) && fresh(Repr - old(Repr))
    {
      var args := C.ParseCommand(m, command, "invite", 2);
      if args.Err? {
        return Some(args.error);
      }
      var fp := args.value[1];
      var found := PeerByFingerprint(fp);
      if found.Some? || fp == self.fp {
        return Some(C.AlreadyMember);
      }
      var stored := Canonical(fp);
      if stored.None? {
        return Some(C.BadFingerprint);
      }
      var meta := new IdentityMeta(false);
      var peer := new MessagingPeer(Identity(stored.value, meta));
      AppendPeers([peer], [C.Member(stored.value, "", false)], {peer, meta});
      return None;
    }

    method NameRoomCallback(command: string, m: Message) returns (err: Option<C.CommandError>)
      requires Valid()
      modifies Repr
      ensures Outcome(old(State()), err, C.NameRoomCallback(command, m, old(view))) && Repr == old(Repr)
    {
      var args := C.ParseCommand(m, command, "name_room", 2);
      if args.Err? {
        return Some(args.error);
      }
      name := args.value[1];
      view := view.(name := name);
      return None;
    }

    method NickCallback(command: string, m: Message) returns (err: Option<C.CommandError>)
      requires Valid()
      modifies Repr
      ensures Outcome(old(State()), err, C.NickCallback(command, m, old(view))) && Repr == old(Repr)
    {
      var args := C.ParseCommand(m, command, "nick", 2);
      if args.Err? {
        return Some(args.error);
      }
      var sender := GetSender(m, false);
      if sender.Err? {
        return Some(sender.error);
      }
      ghost var slot := C.GetSender(m, view, false).value;
      WriteMeta(sender.value, args.value[1], sender.value.meta.admin, slot);
      return None;
    }

    method PromoteCallback(command: string, m: Message) returns (err: Option<C.CommandError>)
      requires Valid()
      modifies Repr
      ensures Outcome(old(State()), err, C.PromoteCallback(command, m, old(view))) && Repr == old(Repr)
    {
      var args := C.ParseCommand(m, command, "promote", 2);
      if args.Err? {
        return Some(args.error);
      }
      var sender := GetSender(m, true);
      if sender.Err? {
        return Some(sender.error);
      }
      var toPromote := PeerByFingerprint(args.value[1]);
      if toPromote.None? && args.value[1] != self.fp {
        return Some(C.PeerNotFound);
      }
      ghost var slot := C.Lookup(view, args.value[1]).value;
      var id := if toPromote.Some? then toPromote.value else self;
      WriteMeta(id, id.meta.nick, true, slot);
      return None;
    }

    method RemovePeerCallback(command: string, m: Message) returns (err: Option<C.CommandError>)
      requires Valid()
      modifies Repr
      ensures Outcome(old(State()), err, C.RemovePeerCallback(command, m, old(view))) && Repr == old(Repr)
    {
      var args := C.ParseCommand(m, command, "remove_peer", 2);
      if args.Err? {
        return Some(args.error);
      }
      var sender := GetSender(m, true);
      if sender.Err? {
        return Some(sender.error);
      }
      err := RemovePeer(args.value[1]);
    }

    method HandleCommand(m: Message) returns (err: Option<C.CommandError>)
      requires Valid()
      modifies Repr
      ensures Outcome(old(State()), err, C.HandleCommand(m, old(view))) && fresh(Repr - old(Repr))
      ensures State() == old(State()).(view := C.Apply(old(view), m))
    {
      var command := C.CommandName(m);
      if !m.content.ctype.Cmd? {
        return Some(C.NotACommand);
      }
      if command !in C.REGISTERED_COMMANDS {
        return Some(C.NotRegistered);
      }
      match C.REGISTERED_COMMANDS[command]
      case Invite => err := InviteCallback(command, m);
      case NameRoom => err := NameRoomCallback(command, m);
      case Nick => err := NickCallback(command, m);
      case Promote => err := PromoteCallback(command, m);
      case RemovePeer => err := RemovePeerCallback(command, m);
    }

    /** Carries out a command, whatever comes of it, and logs the message. */
    method LogMessage(m: Message)
      requires Valid()
      modifies Repr
      ensures Valid() && fresh(Repr - old(Repr))
      ensures State() == old(State()).(view := C.Apply(old(view), m), log := old(messages) + [m])
    {
      if m.content.ctype.Cmd? {
        var _ := HandleCommand(m);
      }
      messages := messages + [m];
    }

    method PushMessages(msgs: seq<Message>)
      requires Valid()
      modifies Repr
      ensures Valid() && fresh(Repr - old(Repr))
      ensures State() == Push(old(State()), msgs)
    {
      var newSyncState := CopySyncMap(syncState);
      ghost var before := State();
      for i := 0 to |msgs|
        invariant Valid() && fresh(Repr - old(Repr))
        invariant State() == Push(before, msgs[..i]).(sync := before.sync)
        invariant newSyncState == Push(before, msgs[..i]).sync
      {
        var m := msgs[i];
        PushOneMore(before, msgs, i);
        if m.sender !in syncState || m.time > syncState[m.sender] {
          newSyncState := newSyncState[m.sender := m.time];
          LogMessage(m);
        }
      }
      assert msgs[..|msgs|] == msgs;
      syncState := newSyncState;
    }

    method SendMessageToAllPeers(content: Content, now: int, sign: Signer)
      requires Valid()
      modifies Repr
      ensures Valid() && fresh(Repr - old(Repr))
      ensures State() == Push(old(State()), [NewMessage(content, self.fp, now, sign)])
    {
      PushMessages([NewMessage(content, self.fp, now, sign)]);
    }

    method FindMessagesToSync(remoteSyncTimes: SyncMap) returns (msgs: seq<Message>)
      ensures msgs == Newer(remoteSyncTimes, messages)
    {
      msgs := [];
      for i := 0 to |messages|
        invariant msgs == Newer(remoteSyncTimes, messages[..i])
      {
        assert messages[..i + 1] == messages[..i] + [messages[i]];
        FilterSnoc(AcceptedBy(remoteSyncTimes), messages[..i], messages[i]);
        if messages[i].sender !in remoteSyncTimes || messages[i].time > remoteSyncTimes[messages[i].sender] {
          msgs := msgs + [messages[i]];
        }
      }
      assert messages[..|messages|] == messages;
    }

    /** Announces every peer; the k-th send reads the clock as clock[k]. */
    method SyncPeerLists(clock: seq<int>, sign: Signer)
      requires Valid() && |clock| == |peers|
      modifies Repr
      ensures Valid() && fresh(Repr - old(Repr))
      ensures State() == Membership.SyncPeerLists(old(State()), clock, sign)
    {
      var list := peers;
      ghost var invites := Invites(self.fp, PeerFingerprints(view.peers), clock, sign);
      for k := 0 to |list|
        invariant Valid() && fresh(Repr - old(Repr))
        invariant State() == SendEach(old(State()), invites[..k])
      {
        SendMessageToAllPeers(InviteContent(list[k].identity.fp), clock[k], sign);
        assert invites[..k + 1][..k] == invites[..k];
        assert invites[k] == InviteMessage(self.fp, list[k].identity.fp, clock[k], sign);
      }
      assert invites[..|list|] == invites;
    }

    /** A peer for every contact that answers with a key, stored as its fingerprint, up to the first that does not. */
    static method CreatePeers(answers: seq<Option<string>>)
      returns (ok: bool, newPeers: seq<MessagingPeer>, ghost added: set<object>)
      ensures ok <==> AllNameKeys(answers)
      ensures ok ==> |newPeers| == |answers|
      ensures FreshPeers(newPeers, added)
      ensures ok ==> forall i :: 0 <= i < |answers| ==>
                newPeers[i].identity.fp == Fingerprints(answers)[i]
                && newPeers[i].identity.meta.nick == "" && !newPeers[i].identity.meta.admin
    {
      newPeers, added := [], {};
      for i := 0 to |answers|
        invariant |newPeers| == i && FreshPeers(newPeers, added)
        invariant forall k :: 0 <= k < i ==>
          && NamesKey(answers[k]) && newPeers[k].identity.fp == Fingerprints(answers)[k]
          && newPeers[k].identity.meta.nick == "" && !newPeers[k].identity.meta.admin
      {
        if answers[i].None? {
          return false, newPeers, added;
        }
        var stored := Canonical(answers[i].value);
        if stored.None? {
          return false, newPeers, added;
        }
        var meta := new IdentityMeta(false);
        var peer := new MessagingPeer(Identity(stored.value, meta));
        newPeers, added := newPeers + [peer], added + {peer, meta};
      }
      return true, newPeers, added;
    }

    static twostate predicate FreshPeers(new ps: seq<MessagingPeer>, new added: set<object>) {
      && fresh(added)
      && (forall k :: 0 <= k < |ps| ==> ps[k] in added && ps[k].identity.meta in added)
      && forall j, k :: 0 <= j < k < |ps| ==> ps[j].identity.meta != ps[k].identity.meta
    }

    /** Adds a peer for every contact and announces all peers, unless a contact does not answer with a key. */
    method AddPeers(answers: seq<Option<string>>, clock: seq<int>, sign: Signer) returns (ok: bool)
      requires Valid() && |clock| == |peers| + |answers|
      modifies Repr
      ensures Valid() && fresh(Repr - old(Repr))
      ensures ok <==> AllNameKeys(answers)
      ensures !ok ==> State() == old(State())
      ensures ok ==> State() == Membership.AddPeers(old(State()), Fingerprints(answers), clock, sign)
      ensures ok ==> forall i :: 0 <= i < |answers| ==> IsFingerprint(Fingerprints(answers)[i])
    {
      var newPeers;
      ghost var added;
      ok, newPeers, added := CreatePeers(answers);
      if ok {
        ghost var fps := Fingerprints(answers);
        AnswersAreFingerprints(answers);
        assert |NewPeers(fps)| == |fps| == |answers|;
        AppendPeers(newPeers, NewPeers(fps), added);
        assert State() == WithPeers(old(State()), fps);
        SyncPeerLists(clock, sign);
      }
    }
  }

  /** The contact answered, and what it answered decodes. */
  predicate NamesKey(answer: Option<string>) {
    answer.Some? && Canonical(answer.value).Some?
  }

  predicate AllNameKeys(answers: seq<Option<string>>) {
    forall i :: 0 <= i < |answers| ==> NamesKey(answers[i])
  }

  /** The fingerprints of the keys answered, when all contacts answered with one. */
  ghost function Fingerprints(answers: seq<Option<string>>): seq<string> {
    seq(|answers|, i requires 0 <= i < |answers| =>
      if NamesKey(answers[i]) then Canonical(answers[i].value).value else "")
  }

  /** The peers that a room adds carry fingerprints, as Membership and Lives assume of them. */
  lemma AnswersAreFingerprints(answers: seq<Option<string>>)
    requires AllNameKeys(answers)
    ensures forall i :: 0 <= i < |answers| ==> IsFingerprint(Fingerprints(answers)[i])
  {
    forall i | 0 <= i < |answers| ensures IsFingerprint(Fingerprints(answers)[i]) {
      assert NamesKey(answers[i]);
      CanonicalIsStable(answers[i].value);
    }
  }
}
