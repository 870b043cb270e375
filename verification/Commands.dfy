/**
 Room commands: messages that invite, name the room, set a nickname, promote
 and remove. Everything here is on values; class Room carries the same commands
 out in place.
 */
module Commands {
  import opened Sequences
  import opened Base64Url
  import opened Messages

  datatype Member = Member(fp: string, nick: string, admin: bool)

  /** What the commands of a room can read and change. */
  datatype View = View(self: Member, peers: seq<Member>, name: string)

  datatype CommandError =
    | NotACommand | NotRegistered | WrongCommand | TooFewArgs
    | AlreadyMember | BadFingerprint | PeerNotFound | NotAdmin

  datatype Result<+T> = Ok(value: T) | Err(error: CommandError)

  datatype Callback = Invite | NameRoom | Nick | Promote | RemovePeer

  const DELIMITER := ' '

  /** The callbacks registered when the program starts; "accept" has none. */
  const REGISTERED_COMMANDS: map<string, Callback> :=
    map["invite" := Invite, "name_room" := NameRoom, "nick" := Nick, "promote" := Promote, "remove_peer" := RemovePeer]

  function ConstructCommand(message: string, command: string): string {
    if command == "" then message
    else if message == "" then command
    else command + [DELIMITER] + message
  }

  function CommandName(m: Message): string {
    Split(m.content.data, DELIMITER)[0]
  }

  function ParseCommand(m: Message, actual: string, expected: string, needed: nat): Result<seq<string>> {
    var args := Split(m.content.data, DELIMITER);
    if actual != expected then Err(WrongCommand)
    else if |args| < needed then Err(TooFewArgs)
    else Ok(args)
  }

  /** The first peer with the fingerprint. */
  function FindPeer(peers: seq<Member>, fp: string): (i: Option<nat>)
    ensures i.None? ==> forall j :: 0 <= j < |peers| ==> peers[j].fp != fp
    ensures i.Some? ==> i.value < |peers| && peers[i.value].fp == fp
                        && forall j :: 0 <= j < i.value ==> peers[j].fp != fp
  {
    if |peers| == 0 then None
    else
      match FindPeer(peers[..|peers| - 1], fp)
      case Some(i) => Some(i)
      case None => if peers[|peers| - 1].fp == fp then Some(|peers| - 1) else None
  }

  datatype Slot = PeerSlot(i: nat) | SelfSlot

  predicate SlotIn(slot: Slot, v: View) {
    slot.PeerSlot? ==> slot.i < |v.peers|
  }

  function At(v: View, slot: Slot): Member
    requires SlotIn(slot, v)
  {
    match slot case PeerSlot(i) => v.peers[i] case SelfSlot => v.self
  }

  function Put(v: View, slot: Slot, member: Member): View
    requires SlotIn(slot, v)
  {
    match slot
    case PeerSlot(i) => v.(peers := v.peers[i := member])
    case SelfSlot => v.(self := member)
  }

  /** Where a fingerprint is looked up: the peers first, then the room's own identity. */
  function Lookup(v: View, fp: string): (slot: Option<Slot>)
    ensures slot.Some? ==> SlotIn(slot.value, v) && At(v, slot.value).fp == fp
    ensures slot.None? ==> v.self.fp != fp && FindPeer(v.peers, fp).None?
  {
    match FindPeer(v.peers, fp)
    case Some(i) => Some(PeerSlot(i))
    case None => if v.self.fp == fp then Some(SelfSlot) else None
  }

  function GetSender(m: Message, v: View, shouldBeAdmin: bool): (r: Result<Slot>)
    ensures match r
            case Ok(slot) => SlotIn(slot, v) && At(v, slot).fp == m.sender && (shouldBeAdmin ==> At(v, slot).admin)
            case Err(e) =>
              if FindPeer(v.peers, m.sender).None? && v.self.fp != m.sender then e == PeerNotFound
              else e == NotAdmin && shouldBeAdmin && !At(v, Lookup(v, m.sender).value).admin
  {
    match Lookup(v, m.sender)
    case None => Err(PeerNotFound)
    case Some(slot) => if shouldBeAdmin && !At(v, slot).admin then Err(NotAdmin) else Ok(slot)
  }

  function InviteCallback(command: string, m: Message, v: View): Result<View> {
    match ParseCommand(m, command, "invite", 2)
    case Err(e) => Err(e)
    case Ok(args) =>
      if FindPeer(v.peers, args[1]).Some? || args[1] == v.self.fp then Err(AlreadyMember)
      else
        match Canonical(args[1])
        case None => Err(BadFingerprint)
        case Some(fp) => Ok(v.(peers := v.peers + [Member(fp, "", false)]))
  }

  function NameRoomCallback(command: string, m: Message, v: View): Result<View> {
    match ParseCommand(m, command, "name_room", 2)
    case Err(e) => Err(e)
    case Ok(args) => Ok(v.(name := args[1]))
  }

  function NickCallback(command: string, m: Message, v: View): Result<View> {
    match ParseCommand(m, command, "nick", 2)
    case Err(e) => Err(e)
    case Ok(args) =>
      match GetSender(m, v, false)
      case Err(e) => Err(e)
      case Ok(slot) => Ok(Put(v, slot, At(v, slot).(nick := args[1])))
  }

  function PromoteCallback(command: string, m: Message, v: View): Result<View> {
    match ParseCommand(m, command, "promote", 2)
    case Err(e) => Err(e)
    case Ok(args) =>
      match GetSender(m, v, true)
      case Err(e) => Err(e)
      case Ok(_) =>
        match Lookup(v, args[1])
        case None => Err(PeerNotFound)
        case Some(slot) => Ok(Put(v, slot, At(v, slot).(admin := true)))
  }

  function RemovePeerAt(peers: seq<Member>, i: nat): seq<Member>
    requires i < |peers|
  {
    peers[..i] + peers[i + 1..]
  }

  function RemovePeerCallback(command: string, m: Message, v: View): Result<View> {
    match ParseCommand(m, command, "remove_peer", 2)
    case Err(e) => Err(e)
    case Ok(args) =>
      match GetSender(m, v, true)
      case Err(e) => Err(e)
      case Ok(_) =>
        match FindPeer(v.peers, args[1])
        case None => Err(PeerNotFound)
        case Some(i) => Ok(v.(peers := RemovePeerAt(v.peers, i)))
  }

  function Dispatch(callback: Callback, command: string, m: Message, v: View): Result<View> {
    match callback
    case Invite => InviteCallback(command, m, v)
    case NameRoom => NameRoomCallback(command, m, v)
    case Nick => NickCallback(command, m, v)
    case Promote => PromoteCallback(command, m, v)
    case RemovePeer => RemovePeerCallback(command, m, v)
  }

  function HandleCommand(m: Message, v: View): Result<View> {
    var command := CommandName(m);
    if !m.content.ctype.Cmd? then Err(NotACommand)
    else if command !in REGISTERED_COMMANDS then Err(NotRegistered)
    else Dispatch(REGISTERED_COMMANDS[command], command, m, v)
  }

  /** One logged message: a command that fails changes nothing. */
  function Apply(v: View, m: Message): View {
    match HandleCommand(m, v) case Ok(w) => w case Err(_) => v
  }

  function Replay(v: View, msgs: seq<Message>): View {
    if |msgs| == 0 then v else Apply(Replay(v, msgs[..|msgs| - 1]), msgs[|msgs| - 1])
  }

  lemma ReplaySnoc(v: View, msgs: seq<Message>, m: Message)
    ensures Replay(v, msgs + [m]) == Apply(Replay(v, msgs), m)
  {
    assert (msgs + [m])[..|msgs|] == msgs;
  }

  lemma {:induction false} ReplayConcat(v: View, a: seq<Message>, b: seq<Message>)
    ensures Replay(v, a + b) == Replay(Replay(v, a), b)
  {
    if |b| == 0 {
      assert a + b == a;
    } else {
      assert a + b == (a + b[..|b| - 1]) + [b[|b| - 1]];
      ReplaySnoc(v, a + b[..|b| - 1], b[|b| - 1]);
      ReplayConcat(v, a, b[..|b| - 1]);
    }
  }

  // ---- Arguments ----

  /** The argument of a command message with this name, if it has one. */
  function ArgumentOf(m: Message, command: string): Option<string> {
    var args := Split(m.content.data, DELIMITER);
    if m.content.ctype.Cmd? && args[0] == command && |args| >= 2 then Some(args[1]) else None
  }

  /** A constructed command is read back as its name followed by the words of its text. */
  lemma ConstructThenSplit(message: string, command: string)
    requires command != "" && DELIMITER !in command
    ensures Split(ConstructCommand(message, command), DELIMITER)
         == [command] + if message == "" then [] else Split(message, DELIMITER)
  {
    if message == "" {
      SplitWhole(command, DELIMITER);
    } else {
      SplitConcat(command, DELIMITER, message);
    }
  }

  lemma NameRoomEffect(v: View, m: Message)
    requires ArgumentOf(m, "name_room").Some?
    ensures Apply(v, m) == v.(name := ArgumentOf(m, "name_room").value)
  {}

  lemma NamingArgument(m: Message, text: string)
    requires text != ""
    requires m.content.ctype.Cmd? && m.content.data == ConstructCommand(text, "name_room")
    ensures ArgumentOf(m, "name_room") == Some(Split(text, DELIMITER)[0])
  {
    ConstructThenSplit(text, "name_room");
    var name := ["name_room"];
    assert Split(m.content.data, DELIMITER) == name + Split(text, DELIMITER);
  }

  lemma FirstWordIsAllIff(text: string)
    ensures Split(text, DELIMITER)[0] == text <==> DELIMITER !in text
  {
    JoinSplit(text, DELIMITER);
    SplitWhole(text, DELIMITER);
  }

  /** A name_room text names the room with its first word only, so it comes through whole iff it has no space. */
  lemma RoomNameKeptIff(v: View, m: Message, text: string)
    requires text != ""
    requires m.content.ctype.Cmd? && m.content.data == ConstructCommand(text, "name_room")
    ensures Apply(v, m).name == Split(text, DELIMITER)[0]
    ensures Apply(v, m).name == text <==> DELIMITER !in text
  {
    NamingArgument(m, text);
    NameRoomEffect(v, m);
    FirstWordIsAllIff(text);
  }

  // ---- Peer lists without repetitions ----

  ghost predicate DistinctPeers(peers: seq<Member>) {
    forall i, j :: 0 <= i < j < |peers| ==> peers[i].fp != peers[j].fp
  }

  /** No fingerprint appears twice among the peers, and the room itself is not its own peer. */
  ghost predicate WellFormed(v: View) {
    && DistinctPeers(v.peers)
    && forall i :: 0 <= i < |v.peers| ==> v.peers[i].fp != v.self.fp
  }

  /** An invite whose argument is not even a key, or is spelled the way it will be stored. */
  predicate CanonicalInvite(m: Message) {
    var arg := ArgumentOf(m, "invite");
    arg.Some? ==> Canonical(arg.value) == None || Canonical(arg.value) == arg
  }

  lemma InviteKeepsWellFormed(v: View, m: Message)
    requires WellFormed(v) && CanonicalInvite(m)
    requires m.content.ctype.Cmd? && InviteCallback(CommandName(m), m, v).Ok?
    ensures WellFormed(InviteCallback(CommandName(m), m, v).value)
  {}

  lemma PutKeepsWellFormed(v: View, slot: Slot, member: Member)
    requires WellFormed(v) && SlotIn(slot, v) && member.fp == At(v, slot).fp
    ensures WellFormed(Put(v, slot, member))
  {}

  lemma RemovalKeepsWellFormed(v: View, i: nat)
    requires WellFormed(v) && i < |v.peers|
    ensures WellFormed(v.(peers := RemovePeerAt(v.peers, i)))
  {}

  lemma ApplyKeepsWellFormed(v: View, m: Message)
    requires WellFormed(v) && CanonicalInvite(m)
    ensures WellFormed(Apply(v, m))
  {
    if HandleCommand(m, v).Ok? {
      var args := Split(m.content.data, DELIMITER);
      match REGISTERED_COMMANDS[CommandName(m)]
      case Invite => InviteKeepsWellFormed(v, m);
      case NameRoom =>
      case Nick =>
        var slot := GetSender(m, v, false).value;
        PutKeepsWellFormed(v, slot, At(v, slot).(nick := args[1]));
      case Promote =>
        var slot := Lookup(v, args[1]).value;
        PutKeepsWellFormed(v, slot, At(v, slot).(admin := true));
      case RemovePeer => RemovalKeepsWellFormed(v, FindPeer(v.peers, args[1]).value);
    }
  }

  /** Over any log whose invites are canonical the peer list stays well-formed. */
  lemma {:induction false} ReplayKeepsWellFormed(v: View, msgs: seq<Message>)
    requires WellFormed(v)
    requires forall i :: 0 <= i < |msgs| ==> CanonicalInvite(msgs[i])
    ensures WellFormed(Replay(v, msgs))
  {
    if |msgs| != 0 {
      ReplayKeepsWellFormed(v, msgs[..|msgs| - 1]);
      ApplyKeepsWellFormed(Replay(v, msgs[..|msgs| - 1]), msgs[|msgs| - 1]);
    }
  }

  predicate IsInviteOf(m: Message, arg: string) {
    m.content.ctype.Cmd? && m.content.data == ConstructCommand(arg, "invite")
  }

  lemma InviteArgument(m: Message, arg: string)
    requires IsInviteOf(m, arg) && DELIMITER !in arg && arg != ""
    ensures Split(m.content.data, DELIMITER) == ["invite", arg]
    ensures ArgumentOf(m, "invite") == Some(arg)
  {
    ConstructThenSplit(arg, "invite");
    SplitWhole(arg, DELIMITER);
    assert Split(m.content.data, DELIMITER) == ["invite"] + [arg];
  }

  /**
   An invite is harmless in every well-formed room exactly when its argument is
   undecodable or canonical. The room that the other direction breaks already
   has the invited key under its canonical spelling.
   */
  lemma InviteIsHarmlessIff(m: Message, arg: string)
    requires IsInviteOf(m, arg) && DELIMITER !in arg && arg != ""
    ensures (forall v :: WellFormed(v) ==> WellFormed(Apply(v, m)))
            <==> Canonical(arg) == None || Canonical(arg) == Some(arg)
  {
    InviteArgument(m, arg);
    if Canonical(arg) == None || Canonical(arg) == Some(arg) {
      forall v | WellFormed(v) ensures WellFormed(Apply(v, m)) {
        ApplyKeepsWellFormed(v, m);
      }
    } else {
      var self := Member(Canonical(arg).value, "", false);
      var v := View(self, [], "");
      assert WellFormed(v);
      assert ["invite", arg][0] == "invite" && ["invite", arg][1] == arg;
      assert InviteCallback("invite", m, v) == Ok(v.(peers := v.peers + [self]));
      assert Apply(v, m).peers[0].fp == self.fp;
      assert !WellFormed(Apply(v, m));
    }
  }

  /** Such arguments exist: two texts name the same one-byte key. */
  lemma SomeInvitesAreHarmful()
    ensures Canonical("QR") == Some("QQ")
  {
    assert Filter(NotLineBreak, "QR") == "QR" by {
      FilterAll(NotLineBreak, "QR");
    }
    assert Values("QR").value == [16, 17];
    assert Unpack([16, 17]) == Some([65]);
    assert Digits([16, 16]) == "QQ";
  }

  /** Removal takes out the named peer and keeps the order of the rest. */
  lemma RemovalKeepsTheRest(peers: seq<Member>, fp: string)
    requires DistinctPeers(peers) && FindPeer(peers, fp).Some?
    ensures RemovePeerAt(peers, FindPeer(peers, fp).value) == Filter(OtherThan(fp), peers)
  {
    var i := FindPeer(peers, fp).value;
    assert peers == (peers[..i] + [peers[i]]) + peers[i + 1..];
    FilterConcat(OtherThan(fp), peers[..i] + [peers[i]], peers[i + 1..]);
    FilterSnoc(OtherThan(fp), peers[..i], peers[i]);
    FilterAll(OtherThan(fp), peers[..i]);
    FilterAll(OtherThan(fp), peers[i + 1..]);
  }

  function OtherThan(fp: string): Member -> bool {
    (p: Member) => p.fp != fp
  }

  // ---- Who may change what ----

  ghost function Fingerprints(v: View): set<string> {
    (set p | p in v.peers :: p.fp) + {v.self.fp}
  }

  ghost function Admins(v: View): set<string> {
    (set p | p in v.peers && p.admin :: p.fp) + if v.self.admin then {v.self.fp} else {}
  }

  function Find(v: View, fp: string): Option<Member> {
    match Lookup(v, fp) case None => None case Some(slot) => Some(At(v, slot))
  }

  lemma SenderIsAdmin(v: View, m: Message)
    requires GetSender(m, v, true).Ok?
    ensures m.sender in Admins(v)
  {
    var slot := GetSender(m, v, true).value;
    if slot.PeerSlot? {
      assert v.peers[slot.i] in v.peers;
    }
  }

  /** The only reason to be found in a view is to be at that slot, when the peers are distinct. */
  lemma FoundAt(v: View, slot: Slot)
    requires WellFormed(v) && SlotIn(slot, v)
    ensures Lookup(v, At(v, slot).fp) == Some(slot)
  {}

  /** Commands that need an admin get past the check exactly for the admins. */
  lemma AdminCheckIff(v: View, m: Message)
    requires WellFormed(v)
    ensures GetSender(m, v, true).Ok? <==> m.sender in Admins(v)
  {
    if GetSender(m, v, true).Ok? {
      SenderIsAdmin(v, m);
    }
    if m.sender in Admins(v) && !(m.sender == v.self.fp && v.self.admin) {
      var i :| 0 <= i < |v.peers| && v.peers[i].fp == m.sender && v.peers[i].admin;
      FoundAt(v, PeerSlot(i));
    }
  }

  /**
   What a message, from whoever and saying whatever, makes of the member called
   fp: invites add the missing, a promotion or removal takes an admin to order
   it, a nickname is one's own to choose, and there is no way to demote.
   */
  ghost function Expected(v: View, m: Message, fp: string): Option<Member> {
    match Find(v, fp)
    case None =>
      if ArgumentOf(m, "invite") == Some(fp) && Canonical(fp) == Some(fp) then Some(Member(fp, "", false)) else None
    case Some(a) =>
      if ArgumentOf(m, "remove_peer") == Some(fp) && m.sender in Admins(v) && fp != v.self.fp then None
      else
        var nick := if m.sender == fp && ArgumentOf(m, "nick").Some? then ArgumentOf(m, "nick").value else a.nick;
        var promoted := ArgumentOf(m, "promote") == Some(fp) && m.sender in Admins(v);
        Some(Member(fp, nick, a.admin || promoted))
  }

  /** Every message changes every member as expected, and the name of the room only by name_room. */
  lemma MessageChangesExactly(v: View, m: Message, fp: string)
    requires WellFormed(v) && CanonicalInvite(m)
    ensures Find(Apply(v, m), fp) == Expected(v, m, fp)
    ensures Apply(v, m).name == if ArgumentOf(m, "name_room").Some? then ArgumentOf(m, "name_room").value else v.name
  {
    var args := Split(m.content.data, DELIMITER);
    AdminCheckIff(v, m);
    if m.content.ctype.Cmd? && args[0] in REGISTERED_COMMANDS && |args| >= 2 {
      match REGISTERED_COMMANDS[args[0]]
      case Invite => InviteChangesExactly(v, m, fp);
      case NameRoom => NameRoomEffect(v, m);
      case Nick => NickChangesExactly(v, m, fp);
      case Promote => PromoteChangesExactly(v, m, fp);
      case RemovePeer => RemoveChangesExactly(v, m, fp);
    }
  }

  lemma InviteChangesExactly(v: View, m: Message, fp: string)
    requires WellFormed(v) && CanonicalInvite(m) && ArgumentOf(m, "invite").Some?
    ensures Find(Apply(v, m), fp) == Expected(v, m, fp) && Apply(v, m).name == v.name
  {
    var w := Apply(v, m);
    if w != v {
      assert w.peers[..|w.peers| - 1] == v.peers;
    }
  }

  lemma NickEffect(v: View, m: Message)
    requires ArgumentOf(m, "nick").Some?
    ensures Apply(v, m) == match GetSender(m, v, false)
                           case Ok(slot) => Put(v, slot, At(v, slot).(nick := ArgumentOf(m, "nick").value))
                           case Err(_) => v
  {}

  lemma NickChangesExactly(v: View, m: Message, fp: string)
    requires WellFormed(v) && ArgumentOf(m, "nick").Some?
    ensures Find(Apply(v, m), fp) == Expected(v, m, fp) && Apply(v, m).name == v.name
  {
    NickEffect(v, m);
    match GetSender(m, v, false)
    case Ok(slot) => FindAfterPut(v, slot, At(v, slot).(nick := ArgumentOf(m, "nick").value), fp);
    case Err(_) =>
  }

  lemma PromoteEffect(v: View, m: Message)
    requires ArgumentOf(m, "promote").Some?
    ensures var slot := Lookup(v, ArgumentOf(m, "promote").value);
            Apply(v, m) == if GetSender(m, v, true).Ok? && slot.Some?
                           then Put(v, slot.value, At(v, slot.value).(admin := true)) else v
  {}

  lemma PromotionIsExpected(v: View, m: Message, fp: string)
    requires ArgumentOf(m, "promote").Some?
    ensures Expected(v, m, fp) ==
              var promoted := ArgumentOf(m, "promote") == Some(fp) && m.sender in Admins(v);
              match Find(v, fp) case None => None case Some(a) => Some(a.(admin := a.admin || promoted))
  {
    assert ArgumentOf(m, "invite") == ArgumentOf(m, "nick") == ArgumentOf(m, "remove_peer") == None;
  }

  lemma PromoteChangesExactly(v: View, m: Message, fp: string)
    requires WellFormed(v) && ArgumentOf(m, "promote").Some?
    ensures Find(Apply(v, m), fp) == Expected(v, m, fp) && Apply(v, m).name == v.name
  {
    AdminCheckIff(v, m);
    PromoteEffect(v, m);
    PromotionIsExpected(v, m, fp);
    match Lookup(v, ArgumentOf(m, "promote").value)
    case Some(slot) => FindAfterPut(v, slot, At(v, slot).(admin := true), fp);
    case None =>
  }

  lemma RemoveEffect(v: View, m: Message)
    requires ArgumentOf(m, "remove_peer").Some?
    ensures var i := FindPeer(v.peers, ArgumentOf(m, "remove_peer").value);
            Apply(v, m) == if GetSender(m, v, true).Ok? && i.Some?
                           then v.(peers := RemovePeerAt(v.peers, i.value)) else v
  {}

  lemma RemovalIsExpected(v: View, m: Message, fp: string)
    requires ArgumentOf(m, "remove_peer").Some?
    ensures Expected(v, m, fp) ==
              if ArgumentOf(m, "remove_peer") == Some(fp) && m.sender in Admins(v) && fp != v.self.fp then None
              else Find(v, fp)
  {
    assert ArgumentOf(m, "invite") == ArgumentOf(m, "nick") == ArgumentOf(m, "promote") == None;
  }

  lemma RemoveChangesExactly(v: View, m: Message, fp: string)
    requires WellFormed(v) && ArgumentOf(m, "remove_peer").Some?
    ensures Find(Apply(v, m), fp) == Expected(v, m, fp) && Apply(v, m).name == v.name
  {
    AdminCheckIff(v, m);
    RemoveEffect(v, m);
    RemovalIsExpected(v, m, fp);
    match FindPeer(v.peers, ArgumentOf(m, "remove_peer").value)
    case Some(i) => FindAfterRemoval(v, i, fp);
    case None =>
  }

  lemma FindAfterPut(v: View, slot: Slot, member: Member, fp: string)
    requires WellFormed(v) && SlotIn(slot, v) && member.fp == At(v, slot).fp
    ensures Find(Put(v, slot, member), fp) == if fp == member.fp then Some(member) else Find(v, fp)
  {
    var w := Put(v, slot, member);
    assert WellFormed(w);
    if Find(v, fp).Some? {
      FoundAt(w, Lookup(v, fp).value);
    }
  }

  lemma FindAfterRemoval(v: View, i: nat, fp: string)
    requires WellFormed(v) && i < |v.peers|
    ensures var w := v.(peers := RemovePeerAt(v.peers, i));
            Find(w, fp) == if fp == v.peers[i].fp then None else Find(v, fp)
  {
    var w := v.(peers := RemovePeerAt(v.peers, i));
    assert WellFormed(w);
    match Lookup(v, fp)
    case Some(PeerSlot(j)) =>
      if j < i {
        FoundAt(w, PeerSlot(j));
      } else if j > i {
        assert w.peers[j - 1] == v.peers[j];
        FoundAt(w, PeerSlot(j - 1));
      }
    case _ =>
  }

  // ---- Where admins come from ----

  /** One message makes fp an admin only by promoting it on behalf of an admin. */
  lemma NewAdminWasPromoted(v: View, m: Message, fp: string)
    requires fp in Admins(Apply(v, m)) && fp !in Admins(v)
    ensures ArgumentOf(m, "promote") == Some(fp) && m.sender in Admins(v)
  {
    var w := Apply(v, m);
    if REGISTERED_COMMANDS[CommandName(m)] == Promote {
      SenderIsAdmin(v, m);
    }
    if fp == w.self.fp && w.self.admin {
    } else {
      var p :| p in w.peers && p.admin && p.fp == fp;
      assert p !in v.peers;
    }
  }

  /** What happens to the members of a room: a message is logged, or the room adds a peer itself. */
  datatype Moment = Logged(m: Message) | Joined(fp: string)

  function Happen(v: View, e: Moment): View {
    match e
    case Logged(m) => Apply(v, m)
    case Joined(fp) => v.(peers := v.peers + [Member(fp, "", false)])
  }

  function Live(v: View, es: seq<Moment>): View {
    if |es| == 0 then v else Happen(Live(v, es[..|es| - 1]), es[|es| - 1])
  }

  lemma {:induction false} LiveConcat(v: View, a: seq<Moment>, b: seq<Moment>)
    ensures Live(v, a + b) == Live(Live(v, a), b)
  {
    if |b| == 0 {
      assert a + b == a;
    } else {
      var front := b[..|b| - 1];
      assert (a + b)[..|a + b| - 1] == a + front;
      LiveConcat(v, a, front);
    }
  }

  function Logs(msgs: seq<Message>): seq<Moment> {
    seq(|msgs|, i requires 0 <= i < |msgs| => Logged(msgs[i]))
  }

  lemma {:induction false} LiveOfLogs(v: View, msgs: seq<Message>)
    ensures Live(v, Logs(msgs)) == Replay(v, msgs)
  {
    if |msgs| != 0 {
      LiveOfLogs(v, msgs[..|msgs| - 1]);
      assert Logs(msgs)[..|msgs| - 1] == Logs(msgs[..|msgs| - 1]);
    }
  }

  /** Adding a peer makes nobody an admin. */
  lemma JoiningPromotesNobody(v: View, fp: string, x: string)
    requires x in Admins(Happen(v, Joined(fp)))
    ensures x in Admins(v)
  {
    var w := Happen(v, Joined(fp));
    if !(x == w.self.fp && w.self.admin) {
      var p :| p in w.peers && p.admin && p.fp == x;
      assert p in v.peers;
    }
  }

  /**
   ks are the moments of promote messages, each from a member that was an admin
   by then, the first by an initial admin, each later one by the member promoted
   before it, and the last one promoting fp.
   */
  ghost predicate PromotionChain(v: View, es: seq<Moment>, ks: seq<nat>, fp: string)
    decreases |ks|
  {
    if ks == [] then fp in Admins(v)
    else
      var k := ks[|ks| - 1];
      && k < |es| && es[k].Logged?
      && (forall i :: 0 <= i < |ks| - 1 ==> ks[i] < k)
      && ArgumentOf(es[k].m, "promote") == Some(fp)
      && es[k].m.sender in Admins(Live(v, es[..k]))
      && PromotionChain(v, es, ks[..|ks| - 1], es[k].m.sender)
  }

  lemma {:induction false} ChainInLongerLife(v: View, es: seq<Moment>, e: Moment, ks: seq<nat>, fp: string)
    requires PromotionChain(v, es, ks, fp)
    ensures PromotionChain(v, es + [e], ks, fp)
    ensures forall i :: 0 <= i < |ks| ==> ks[i] < |es|
    decreases |ks|
  {
    if ks != [] {
      var k := ks[|ks| - 1];
      assert (es + [e])[..k] == es[..k];
      ChainInLongerLife(v, es, e, ks[..|ks| - 1], es[k].m.sender);
    }
  }

  /** Whoever is an admin after a life was one before it, or heads a chain of promotions logged in it. */
  lemma {:induction false} AdminProvenance(v: View, es: seq<Moment>, fp: string) returns (ks: seq<nat>)
    requires fp in Admins(Live(v, es))
    ensures PromotionChain(v, es, ks, fp)
    decreases |es|, 0
  {
    if |es| == 0 {
      ks := [];
    } else {
      var front, last := es[..|es| - 1], es[|es| - 1];
      assert es == front + [last];
      if fp in Admins(Live(v, front)) {
        ks := AdminProvenance(v, front, fp);
        ChainInLongerLife(v, front, last, ks, fp);
      } else {
        ks := NewAdminsChain(v, front, last, fp);
      }
    }
  }

  lemma OneLinkMore(v: View, front: seq<Moment>, m: Message, ks: seq<nat>, fp: string)
    requires PromotionChain(v, front, ks, m.sender)
    requires ArgumentOf(m, "promote") == Some(fp) && m.sender in Admins(Live(v, front))
    ensures PromotionChain(v, front + [Logged(m)], ks + [|front|], fp)
  {
    ChainInLongerLife(v, front, Logged(m), ks, m.sender);
    assert (ks + [|front|])[..|ks|] == ks;
    assert (front + [Logged(m)])[..|front|] == front;
  }

  lemma {:induction false} NewAdminsChain(v: View, front: seq<Moment>, last: Moment, fp: string) returns (ks: seq<nat>)
    requires fp in Admins(Happen(Live(v, front), last)) && fp !in Admins(Live(v, front))
    ensures PromotionChain(v, front + [last], ks, fp)
    decreases |front|, 1
  {
    match last
    case Joined(x) =>
      JoiningPromotesNobody(Live(v, front), x, fp);
      ks := [];
    case Logged(m) =>
      NewAdminWasPromoted(Live(v, front), m, fp);
      var before := AdminProvenance(v, front, m.sender);
      OneLinkMore(v, front, m, before, fp);
      ks := before + [|front|];
  }

  /** Without an admin to begin with, nothing that happens makes one or removes anybody. */
  lemma {:induction false} NoAdminNoPower(v: View, es: seq<Moment>)
    requires Admins(v) == {}
    ensures Admins(Live(v, es)) == {}
    ensures Fingerprints(v) <= Fingerprints(Live(v, es))
  {
    if |es| != 0 {
      var front := es[..|es| - 1];
      NoAdminNoPower(v, front);
      MomentWithoutAdmin(Live(v, front), es[|es| - 1]);
    }
  }

  lemma MomentWithoutAdmin(v: View, e: Moment)
    requires Admins(v) == {}
    ensures Admins(Happen(v, e)) == {} && Fingerprints(v) <= Fingerprints(Happen(v, e))
  {
    match e
    case Joined(x) =>
      forall fp | fp in Admins(Happen(v, e)) ensures false {
        JoiningPromotesNobody(v, x, fp);
      }
      forall p | p in v.peers ensures p in Happen(v, e).peers {}
    case Logged(m) =>
      forall fp | fp in Admins(Apply(v, m)) ensures false {
        NewAdminWasPromoted(v, m, fp);
      }
      if GetSender(m, v, true).Ok? {
        SenderIsAdmin(v, m);
      }
      forall fp | fp in Fingerprints(v) ensures fp in Fingerprints(Apply(v, m)) {
        KeepsFingerprint(v, m, fp);
      }
  }

  lemma KeepsFingerprint(v: View, m: Message, fp: string)
    requires fp in Fingerprints(v) && GetSender(m, v, true).Err?
    ensures fp in Fingerprints(Apply(v, m))
  {
    var w := Apply(v, m);
    if fp != v.self.fp {
      var i :| 0 <= i < |v.peers| && v.peers[i].fp == fp;
      assert w.peers[i].fp == fp;
      assert w.peers[i] in w.peers;
    }
  }
}
