/**
 The server against a peer that need not run this program: it may send frames
 with any contents in any order, or break the framing, stop reading, or hang up
 at any time. Whether it has proved a key and may enter the room follows from
 what it sends. Two kinds of frames end the whole daemon, because a handler that
 panics does not recover.
 */
module AnyPeer {
  import opened Sequences
  import opened Base64Url
  import opened Messages
  import opened SyncState
  import opened RoomModel
  import opened Sessions
  import opened SessionSafety
  import Blobs
  import C = Commands

  /** What a read of the server returns: the contents of a frame, or nothing when it fails. */
  type Item = Option<seq<byte>>

  /**
   The server's side of a session: the room's identifier, the challenge, how a
   signature of it is checked, and what the decoder makes of a batch and of a
   list of identifiers. What setup says of the client is not used.
   */
  datatype Env = Env(
    setup: Setup, roomID: seq<byte>, challenge: seq<byte>,
    checks: (seq<byte>, seq<byte>, seq<byte>) -> bool,
    batchOf: seq<byte> -> seq<Message>, idsOf: seq<byte> -> seq<string>)

  /** A session with the reads that the server has made and the frames that wait for it. */
  datatype Served = Served(st: Session, taken: seq<Item>, inbox: seq<Item>, crashed: bool)

  datatype PeerStep = Serves | Sends(item: Item) | HangsUp(u: nat) | Spills | Others(step: Step)

  function Text(raw: seq<byte>): string {
    seq(|raw|, i requires 0 <= i < |raw| => raw[i] as char)
  }

  /** What the n-th read returned, or nothing. */
  function ReadAt(taken: seq<Item>, n: nat): Item {
    if n < |taken| then taken[n] else None
  }

  /** The fingerprint that the peer has sent. */
  function Claimed(taken: seq<Item>): string {
    match ReadAt(taken, 0) case Some(raw) => Text(raw) case None => ""
  }

  /** The peer has signed the challenge with the key of its fingerprint. */
  predicate Proves(env: Env, taken: seq<Item>) {
    var key := Decode(Claimed(taken));
    && ReadAt(taken, 0).Some? && ReadAt(taken, 1).Some? && key.Some? && |key.value| == KEY_SIZE
    && env.checks(key.value, env.challenge, ReadAt(taken, 1).value)
  }

  /** The fingerprint decodes to a key of a size that the check of signatures does not take. */
  predicate WrongKey(taken: seq<Item>) {
    && ReadAt(taken, 0).Some? && ReadAt(taken, 1).Some?
    && Decode(Claimed(taken)).Some? && |Decode(Claimed(taken)).value| != KEY_SIZE
  }

  predicate Listed(room: RoomState, fp: string) {
    C.FindPeer(room.view.peers, fp).Some?
  }

  function BatchIn(env: Env, taken: seq<Item>): seq<Message> {
    match ReadAt(taken, 3) case Some(raw) => env.batchOf(raw) case None => []
  }

  function IDsIn(env: Env, taken: seq<Item>): seq<string> {
    match ReadAt(taken, 4) case Some(raw) => env.idsOf(raw) case None => []
  }

  /** The server has read item, and taken has it already: what its handler concludes about the peer. */
  function Judged(env: Env, p: Served, taken: seq<Item>): Setup {
    env.setup.(
      provesKey := Proves(env, taken),
      admitted := ReadAt(taken, 2) == Some(env.roomID) && Listed(p.st.room, Claimed(taken)))
  }

  /** The frame that the server takes raw for. */
  function Seen(env: Env, s: Server, raw: seq<byte>): Frame {
    match s
    case SGreet(k) =>
      if k == 2 then Fingerprint else if k == 3 then Signature else if k == 4 then RoomID else Batch(env.batchOf(raw))
    case SConfirm(_) => IDs(env.idsOf(raw))
    case SCount(_) => Count(raw)
    case _ => Block(raw)
  }

  predicate Reads(p: Served) {
    ServerAct(p.st.server, p.st.room.sync).Read?
  }

  predicate Panics(s: Server, taken: seq<Item>, item: Item) {
    || (s == SGreet(3) && WrongKey(taken))
    || (s.SCount? && item.Some? && |item.value| < 4)
  }

  predicate Possible(p: Served, step: PeerStep) {
    match step
    case Serves =>
      !p.crashed && !ServerAct(p.st.server, p.st.room.sync).Halt? && (Reads(p) ==> p.inbox != [] || p.st.cut)
    case Sends(_) => !p.st.cut
    case HangsUp(u) => !p.st.cut && u <= |p.inbox|
    case Spills => p.st.down.buf != [] && !p.st.cut
    case Others(other) => Outside(other)
  }

  function TakenNow(p: Served): Item {
    if p.inbox == [] then None else p.inbox[0]
  }

  /** The session with nothing under way to the server but the frame that it is about to read, if there is one. */
  function Facing(env: Env, p: Served): Session {
    p.st.(up := Chan([], match TakenNow(p) case Some(raw) => [Seen(env, p.st.server, raw)] case None => []))
  }

  function Serve(env: Env, p: Served): Served
    requires Possible(p, Serves) && p.st.client.CFailed?
  {
    if Reads(p) then
      var taken, rest := p.taken + [TakenNow(p)], if p.inbox == [] then [] else p.inbox[1..];
      if Panics(p.st.server, taken, TakenNow(p)) then Served(p.st, taken, rest, true)
      else Served(ServerMove(Judged(env, p, taken), Facing(env, p)), taken, rest, false)
    else p.(st := ServerMove(env.setup, p.st))
  }

  function Next(env: Env, p: Served, step: PeerStep): Served
    requires Possible(p, step) && p.st.client.CFailed?
  {
    match step
    case Serves => Serve(env, p)
    case Sends(item) => p.(inbox := p.inbox + [item])
    case HangsUp(u) => p.(st := p.st.(cut := true, down := Chan([], [])), inbox := p.inbox[..u])
    case Spills => p.(st := p.st.(down := Spilled(p.st.down)))
    case Others(other) => p.(st := p.st.(room := RoomAfterOutside(p.st.room, other)))
  }

  /** Nothing has been read or sent. The session's own client stands for the peer, which it does not describe. */
  function Begin(room: RoomState, files: Blobs.Files): Served {
    Served(Start(room, files).(client := CFailed), [], [], false)
  }

  ghost predicate PeerRun(env: Env, ps: seq<Served>, steps: seq<PeerStep>) {
    && |ps| == |steps| + 1
    && ps[0] == Begin(ps[0].st.room, ps[0].st.files)
    && forall k :: 0 <= k < |steps| ==>
         ps[k].st.client.CFailed? && Possible(ps[k], steps[k]) && ps[k + 1] == Next(env, ps[k], steps[k])
  }

  // ---- How far the server comes ----

  /** The peer has proved its key and named the room, and the messages are those of its fourth frame. */
  predicate Welcome(env: Env, taken: seq<Item>, newMsgs: Option<seq<Message>>) {
    && |taken| >= 4 && Proves(env, taken) && ReadAt(taken, 2) == Some(env.roomID)
    && newMsgs == Some(BatchIn(env, taken))
  }

  /** What the server must have read to be where it is. */
  predicate Earned(env: Env, s: Server, taken: seq<Item>, newMsgs: Option<seq<Message>>) {
    var n := |taken|;
    match s
    case SGreet(k) =>
      && n == (if k <= 2 then 0 else if k == 3 then 1 else if k == 4 then 2 else 3)
      && (k >= 4 ==> Proves(env, taken)) && (k >= 5 ==> ReadAt(taken, 2) == Some(env.roomID))
    case SReject(_) => true
    case SClosed => true
    case SConfirm(_) => n == 4 && Welcome(env, taken, newMsgs)
    case _ => n >= 5 && Welcome(env, taken, newMsgs)
  }

  /** The server has let the peer into the room. */
  predicate Inside(p: Served) {
    match p.st.server
    case SGreet(k) => k >= 5
    case SReject(_) => false
    case SClosed => p.st.pushes != []
    case _ => true
  }

  ghost predicate PeerInv(env: Env, p: Served) {
    && p.st.client.CFailed? && ServerInv(env.setup, p.st)
    && (p.crashed ==> p.st.pushes == [])
    && (!p.crashed ==> Earned(env, p.st.server, p.taken, p.st.newMsgs))
    && (p.st.pushes != [] ==> Welcome(env, p.taken, p.st.newMsgs))
    && (Inside(p) ==> |p.taken| >= 3)
  }

  lemma EarnedBefore(env: Env, taken: seq<Item>, item: Item)
    ensures forall n: nat :: n < |taken| ==> ReadAt(taken + [item], n) == ReadAt(taken, n)
    ensures |taken| >= 2 ==> Proves(env, taken + [item]) == Proves(env, taken)
    ensures |taken| >= 4 ==> BatchIn(env, taken + [item]) == BatchIn(env, taken)
  {
    forall n: nat | n < |taken| ensures ReadAt(taken + [item], n) == ReadAt(taken, n) {
      assert (taken + [item])[n] == taken[n];
    }
  }

  function AfterItem(env: Env, setup: Setup, s: Server, item: Item): Server {
    match item case Some(raw) => ServerOn(setup, s, Seen(env, s, raw)) case None => ServerOnEOF(setup, s)
  }

  lemma GreetingEarned(env: Env, p: Served, k: nat)
    requires p.st.server == SGreet(k) && Earned(env, SGreet(k), p.taken, p.st.newMsgs) && k <= 4 && Reads(p)
    ensures var taken := p.taken + [TakenNow(p)];
            Earned(env, AfterItem(env, Judged(env, p, taken), SGreet(k), TakenNow(p)), taken, p.st.newMsgs)
  {
    EarnedBefore(env, p.taken, TakenNow(p));
    assert ReadAt(p.taken + [TakenNow(p)], |p.taken|) == TakenNow(p);
  }

  lemma BatchEarned(env: Env, setup: Setup, taken: seq<Item>, item: Item)
    requires Earned(env, SGreet(8), taken, None)
    ensures Earned(env, AfterItem(env, setup, SGreet(8), item), taken + [item], Some(BatchIn(env, taken + [item])))
  {
    EarnedBefore(env, taken, item);
  }

  lemma TransferEarned(env: Env, setup: Setup, s: Server, taken: seq<Item>, item: Item, msgs: Option<seq<Message>>)
    requires Earned(env, s, taken, msgs) && !s.SGreet? && ServerAct(s, map[]).Read?
    ensures Earned(env, AfterItem(env, setup, s, item), taken + [item], msgs)
  {
    EarnedBefore(env, taken, item);
  }

  /** What a read leaves of the session. */
  lemma ReadIs(env: Env, p: Served)
    requires Possible(p, Serves) && Reads(p) && p.st.client.CFailed? && !Serve(env, p).crashed
    requires p.st.server == SGreet(8) ==> |p.taken| == 3
    ensures var st, taken := Serve(env, p).st, Serve(env, p).taken;
            && st.server == AfterItem(env, Judged(env, p, taken), p.st.server, TakenNow(p))
            && st.newMsgs == (if p.st.server == SGreet(8) then Some(BatchIn(env, taken)) else p.st.newMsgs)
            && st.pushes == p.st.pushes && st.room == p.st.room && st.client == p.st.client
  {
    EarnedBefore(env, p.taken, TakenNow(p));
    assert ReadAt(p.taken + [TakenNow(p)], |p.taken|) == TakenNow(p);
  }

  lemma ReadKeepsEarned(env: Env, p: Served)
    requires PeerInv(env, p) && Possible(p, Serves) && Reads(p) && !Serve(env, p).crashed
    ensures var q := Serve(env, p);
            Earned(env, q.st.server, q.taken, q.st.newMsgs) && q.st.pushes == p.st.pushes && q.st.client.CFailed?
  {
    ReadIs(env, p);
    var setup := Judged(env, p, Serve(env, p).taken);
    if p.st.server == SGreet(8) {
      BatchEarned(env, setup, p.taken, TakenNow(p));
    } else if p.st.server.SGreet? {
      GreetingEarned(env, p, p.st.server.k);
    } else {
      TransferEarned(env, setup, p.st.server, p.taken, TakenNow(p), p.st.newMsgs);
    }
  }

  lemma ActKeepsEarned(env: Env, s: Server, sync: SyncMap, taken: seq<Item>, msgs: Option<seq<Message>>)
    requires Earned(env, s, taken, msgs) && !ServerAct(s, sync).Read? && !ServerAct(s, sync).Halt?
    ensures Earned(env, ServerAct(s, sync).next, taken, msgs)
    ensures ServerAct(s, sync).next == SFinish(1) ==> Welcome(env, taken, msgs)
  {}

  lemma WriteKeepsEarned(env: Env, p: Served)
    requires Earned(env, p.st.server, p.taken, p.st.newMsgs) && p.st.client.CFailed?
    requires Possible(p, Serves) && !Reads(p)
    ensures var st := ServerMove(env.setup, p.st);
            && Earned(env, st.server, p.taken, st.newMsgs) && st.newMsgs == p.st.newMsgs && st.client.CFailed?
            && (st.pushes != p.st.pushes ==> Welcome(env, p.taken, st.newMsgs))
  {
    ActKeepsEarned(env, p.st.server, p.st.room.sync, p.taken, p.st.newMsgs);
  }

  lemma ReadKeeps(env: Env, p: Served)
    requires PeerInv(env, p) && Possible(p, Serves) && Reads(p)
    ensures PeerInv(env, Serve(env, p))
  {
    var q := Serve(env, p);
    EarnedBefore(env, p.taken, TakenNow(p));
    if !q.crashed {
      ReadKeepsEarned(env, p);
      ServerMoveServerInv(Judged(env, p, q.taken), Facing(env, p));
    }
  }

  lemma ServingKeeps(env: Env, p: Served)
    requires PeerInv(env, p) && Possible(p, Serves)
    ensures PeerInv(env, Serve(env, p))
  {
    if Reads(p) {
      ReadKeeps(env, p);
    } else {
      WriteKeepsEarned(env, p);
      ServerMoveServerInv(env.setup, p.st);
    }
  }

  lemma StepKeeps(env: Env, p: Served, step: PeerStep)
    requires PeerInv(env, p) && Possible(p, step)
    ensures PeerInv(env, Next(env, p, step))
  {
    if step.Serves? {
      ServingKeeps(env, p);
    }
  }

  lemma {:induction false} PeerRunKeeps(env: Env, ps: seq<Served>, steps: seq<PeerStep>, k: nat)
    requires PeerRun(env, ps, steps) && k < |ps|
    ensures PeerInv(env, ps[k])
  {
    if k > 0 {
      PeerRunKeeps(env, ps, steps, k - 1);
      StepKeeps(env, ps[k - 1], steps[k - 1]);
    }
  }

  lemma ClaimStays(env: Env, p: Served, step: PeerStep)
    requires p.st.client.CFailed? && Possible(p, step) && |p.taken| > 0
    ensures Claimed(Next(env, p, step).taken) == Claimed(p.taken)
  {
    EarnedBefore(env, p.taken, TakenNow(p));
  }

  /** A server that has let the peer in had done so before, or has just looked it up. */
  lemma EntersAt(env: Env, p: Served, step: PeerStep)
    requires PeerInv(env, p) && Possible(p, step) && Inside(Next(env, p, step))
    ensures var q := Next(env, p, step);
            if Inside(p) then Claimed(q.taken) == Claimed(p.taken)
            else |p.taken| == 2 && |q.taken| == 3 && Listed(p.st.room, Claimed(q.taken))
  {
    if Inside(p) {
      ClaimStays(env, p, step);
    } else {
      assert step.Serves?;
      if Reads(p) && !Serve(env, p).crashed {
        ReadIs(env, p);
      }
    }
  }

  /** The moment at which the server has looked the peer up. */
  lemma {:induction false} ListedAt(env: Env, ps: seq<Served>, steps: seq<PeerStep>, k: nat) returns (j: nat)
    requires PeerRun(env, ps, steps) && k < |ps| && Inside(ps[k])
    ensures j < k && |ps[j].taken| == 2 && |ps[j + 1].taken| == 3 && Listed(ps[j].st.room, Claimed(ps[k].taken))
    decreases k
  {
    PeerRunKeeps(env, ps, steps, k - 1);
    EntersAt(env, ps[k - 1], steps[k - 1]);
    j := k - 1;
    if Inside(ps[k - 1]) {
      j := ListedAt(env, ps, steps, k - 1);
    }
  }

  /**
   Whatever a peer sends: the server pushes at most once, and only the batch of
   the fourth frame, from a peer whose first two frames prove its key, and whose
   third names the room, in which it was listed when the server read that frame.
   What is pushed is signed at every level of the reply chains; one message that
   is not keeps the whole batch out.
   */
  lemma OnlyValidEntries(env: Env, ps: seq<Served>, steps: seq<PeerStep>, k: nat) returns (j: nat)
    requires PeerRun(env, ps, steps) && k < |ps|
    ensures var p := ps[k];
            && (p.st.pushes != [] ==>
                  && p.st.pushes == [BatchIn(env, p.taken)]
                  && Proves(env, p.taken) && ReadAt(p.taken, 2) == Some(env.roomID)
                  && j < k && |ps[j].taken| == 2 && |ps[j + 1].taken| == 3
                  && Listed(ps[j].st.room, Claimed(p.taken)))
            && (forall x, m, r :: 0 <= x < |p.st.pushes| && m in p.st.pushes[x] && r in ReplyChain(m)
                                  ==> SignedBySender(env.setup.verify, r))
            && ((exists m :: m in BatchIn(env, p.taken) && !SigIsValid(env.setup.verify, m)) ==> p.st.pushes == [])
  {
    var p := ps[k];
    PeerRunKeeps(env, ps, steps, k);
    j := 0;
    if p.st.pushes != [] {
      j := ListedAt(env, ps, steps, k);
    }
    forall x, m, r | 0 <= x < |p.st.pushes| && m in p.st.pushes[x] && r in ReplyChain(m)
      ensures SignedBySender(env.setup.verify, r)
    {
      SigIsValidAtEveryLevel(env.setup.verify, m);
    }
  }

  // ---- What is read is what was sent ----

  function Sent(steps: seq<PeerStep>): seq<Item> {
    if |steps| == 0 then []
    else Sent(steps[..|steps| - 1]) + match steps[|steps| - 1] case Sends(item) => [item] case _ => []
  }

  /** What waits follows what has been read; after a hang-up reads may go on and fail. */
  predicate FromSent(p: Served, sent: seq<Item>) {
    && (p.inbox != [] || !p.st.cut ==> p.taken + p.inbox <= sent)
    && (!p.st.cut ==> p.taken + p.inbox == sent)
    && forall n :: 0 <= n < |p.taken| && p.taken[n].Some? ==> n < |sent| && sent[n] == p.taken[n]
  }

  lemma ReadFromSent(env: Env, p: Served, sent: seq<Item>)
    requires FromSent(p, sent) && Possible(p, Serves) && Reads(p) && p.st.client.CFailed?
    ensures FromSent(Serve(env, p), sent)
  {
    var q := Serve(env, p);
    if p.inbox != [] {
      assert q.taken + q.inbox == p.taken + p.inbox;
      assert (p.taken + p.inbox)[|p.taken|] == p.inbox[0];
    }
    assert q.st.cut == p.st.cut;
  }

  lemma StepFromSent(env: Env, p: Served, step: PeerStep, sent: seq<Item>)
    requires FromSent(p, sent) && Possible(p, step) && p.st.client.CFailed?
    ensures FromSent(Next(env, p, step), sent + match step case Sends(item) => [item] case _ => [])
  {
    match step
    case Serves =>
      if Reads(p) {
        ReadFromSent(env, p, sent);
      }
      assert sent + [] == sent;
    case Sends(item) =>
      assert p.taken + (p.inbox + [item]) == (p.taken + p.inbox) + [item];
    case HangsUp(u) =>
      assert p.taken + p.inbox[..u] <= p.taken + p.inbox;
    case _ =>
  }

  /** The n-th read returns the n-th frame that the peer has sent, or fails. */
  lemma {:induction false} TakenIsSent(env: Env, ps: seq<Served>, steps: seq<PeerStep>, k: nat)
    requires PeerRun(env, ps, steps) && k < |ps|
    ensures FromSent(ps[k], Sent(steps[..k]))
  {
    if k > 0 {
      TakenIsSent(env, ps, steps, k - 1);
      StepFromSent(env, ps[k - 1], steps[k - 1], Sent(steps[..k - 1]));
      assert steps[..k][..k - 1] == steps[..k - 1];
    }
  }
}
