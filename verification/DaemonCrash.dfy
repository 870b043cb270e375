/**
 Which frames of a peer end the whole daemon: a key of the wrong size in the
 handshake, and a count of under four bytes where the count of a blob is due.
 Both is said of the frames alone.
 */
module DaemonCrash {
  import opened Sequences
  import opened Base64Url
  import opened Messages
  import opened SyncState
  import opened Sessions
  import opened SessionSafety
  import opened AnyPeer
  import Framing

  /** What the transfer of blobs expects next; left are the blobs that are not complete. */
  datatype Due = CountDue(left: seq<string>) | BlockDue(left: seq<string>, blocks: nat) | NothingDue | TooShort

  function BlobDue(left: seq<string>): Due {
    if left == [] then NothingDue else CountDue(left)
  }

  function BlocksDue(left: seq<string>, blocks: nat): Due {
    if blocks > 0 then BlockDue(left, blocks) else BlobDue(if left == [] then [] else left[1..])
  }

  function DueNext(due: Due, item: Item): Due {
    match (due, item)
    case (CountDue(left), Some(raw)) => if |raw| < 4 then TooShort else BlocksDue(left, Framing.BytesToInt(raw))
    case (BlockDue(left, blocks), Some(_)) => BlocksDue(left, if blocks == 0 then 0 else blocks - 1)
    case _ => NothingDue
  }

  /** What is due after items have been read for the blobs ids. */
  function DueAfter(ids: seq<string>, items: seq<Item>): Due {
    if |items| == 0 then BlobDue(ids) else DueNext(DueAfter(ids, items[..|items| - 1]), items[|items| - 1])
  }

  /** The second frame completes a wrong key, or the last one is too short where a count is due. */
  predicate CrashFrames(env: Env, taken: seq<Item>) {
    if |taken| < 5 then |taken| == 2 && WrongKey(taken) else DueAfter(IDsIn(env, taken), taken[5..]) == TooShort
  }

  /** The server expects what the frames say is due. */
  predicate Expects(s: Server, due: Due) {
    match s
    case SCount(ids) => ids != [] && due == CountDue(ids)
    case SBlock(ids, left, k) =>
      ids != [] && left > 0 && due == if k == 0 then BlockDue(ids, left) else BlocksDue(ids, left - 1)
    case SBlobOK(ids, _) => ids != [] && due == BlobDue(ids[1..])
    case _ => true
  }

  predicate CrashInv(env: Env, p: Served) {
    && (p.crashed <==> CrashFrames(env, p.taken))
    && (!p.crashed && |p.taken| >= 5 ==> Expects(p.st.server, DueAfter(IDsIn(env, p.taken), p.taken[5..])))
  }

  lemma ActKeepsExpects(s: Server, sync: SyncMap, due: Due)
    requires Expects(s, due) && !ServerAct(s, sync).Read? && !ServerAct(s, sync).Halt? && !s.SGreet? && !s.SConfirm?
    ensures Expects(ServerAct(s, sync).next, due)
  {}

  lemma ItemKeepsExpects(env: Env, setup: Setup, s: Server, due: Due, item: Item)
    requires Expects(s, due) && (s.SCount? || (s.SBlock? && s.k == 0))
    ensures DueNext(due, item) == TooShort <==> s.SCount? && item.Some? && |item.value| < 4
    ensures DueNext(due, item) != TooShort ==> Expects(AfterItem(env, setup, s, item), DueNext(due, item))
  {}

  /** One more frame of the transfer. */
  lemma DueMoves(env: Env, taken: seq<Item>, item: Item)
    requires |taken| >= 5
    ensures DueAfter(IDsIn(env, taken + [item]), (taken + [item])[5..])
         == DueNext(DueAfter(IDsIn(env, taken), taken[5..]), item)
  {
    EarnedBefore(env, taken, item);
    assert (taken + [item])[5..] == taken[5..] + [item];
    assert (taken[5..] + [item])[..|taken[5..]|] == taken[5..];
  }

  lemma TransferExpects(env: Env, p: Served)
    requires PeerInv(env, p) && CrashInv(env, p) && Possible(p, Serves) && Reads(p) && |p.taken| >= 5
    ensures CrashInv(env, Serve(env, p))
  {
    var due, q := DueAfter(IDsIn(env, p.taken), p.taken[5..]), Serve(env, p);
    DueMoves(env, p.taken, TakenNow(p));
    ItemKeepsExpects(env, Judged(env, p, q.taken), p.st.server, due, TakenNow(p));
    if !q.crashed {
      ReadIs(env, p);
    }
  }

  lemma GreetingCrash(env: Env, p: Served)
    requires PeerInv(env, p) && CrashInv(env, p) && Possible(p, Serves) && Reads(p) && |p.taken| < 5
    ensures CrashInv(env, Serve(env, p))
  {
    EarnedBefore(env, p.taken, TakenNow(p));
    if !Serve(env, p).crashed {
      ReadIs(env, p);
    }
  }

  lemma StepKeepsCrash(env: Env, p: Served, step: PeerStep)
    requires PeerInv(env, p) && CrashInv(env, p) && Possible(p, step)
    ensures CrashInv(env, Next(env, p, step))
  {
    if step.Serves? {
      if !Reads(p) {
        if |p.taken| >= 5 {
          ActKeepsExpects(p.st.server, p.st.room.sync, DueAfter(IDsIn(env, p.taken), p.taken[5..]));
        }
      } else if |p.taken| < 5 {
        GreetingCrash(env, p);
      } else {
        TransferExpects(env, p);
      }
    }
  }

  lemma {:induction false} PeerRunKeepsCrash(env: Env, ps: seq<Served>, steps: seq<PeerStep>, k: nat)
    requires PeerRun(env, ps, steps) && k < |ps|
    ensures CrashInv(env, ps[k])
  {
    if k > 0 {
      PeerRunKeepsCrash(env, ps, steps, k - 1);
      PeerRunKeeps(env, ps, steps, k - 1);
      StepKeepsCrash(env, ps[k - 1], steps[k - 1]);
    }
  }

  /**
   The daemon crashes in exactly two ways: the peer's second frame arrives and
   its first decodes to a key of the wrong size; or, once it has been let in, the
   frame in the place of a blob's count has fewer than four bytes. In a session
   that crashes nothing has been pushed.
   */
  lemma CrashesIff(env: Env, ps: seq<Served>, steps: seq<PeerStep>, k: nat)
    requires PeerRun(env, ps, steps) && k < |ps|
    ensures ps[k].crashed <==> CrashFrames(env, ps[k].taken)
    ensures ps[k].crashed ==> ps[k].st.pushes == []
  {
    PeerRunKeeps(env, ps, steps, k);
    PeerRunKeepsCrash(env, ps, steps, k);
  }
}
