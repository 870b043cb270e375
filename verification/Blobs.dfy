/**
 Blob transfer: a file is announced by its number of blocks, sent block by block,
 and appended block by block to a file of the same name on the other side.
 */
module Blobs {
  import opened Sequences
  import opened Base64Url
  import opened Framing

  const BLOCK_SIZE := 0x8_0000

  /** Whole blocks, and one more if some bytes are left. */
  function BlockCount(size: nat): nat {
    size / BLOCK_SIZE + if size % BLOCK_SIZE != 0 then 1 else 0
  }

  function Blocks(content: seq<byte>): seq<seq<byte>> {
    if |content| == 0 then []
    else if |content| <= BLOCK_SIZE then [content]
    else [content[..BLOCK_SIZE]] + Blocks(content[BLOCK_SIZE..])
  }

  function Concat(blocks: seq<seq<byte>>): seq<byte> {
    if |blocks| == 0 then [] else blocks[0] + Concat(blocks[1..])
  }

  lemma {:induction false} ConcatSnoc(blocks: seq<seq<byte>>, b: seq<byte>)
    ensures Concat(blocks + [b]) == Concat(blocks) + b
  {
    if |blocks| == 0 {
      assert blocks + [b] == [b];
      assert Concat([b]) == b + Concat([]);
    } else {
      ConcatSnoc(blocks[1..], b);
      assert (blocks + [b])[1..] == blocks[1..] + [b];
    }
  }

  /**
   For every size the announced blocks cover every byte once, and none is empty,
   oversized or refused by the framing.
   */
  lemma {:induction false} BlocksCoverContent(c: Codec, content: seq<byte>)
    ensures Concat(Blocks(content)) == content
    ensures |Blocks(content)| == BlockCount(|content|)
    ensures forall i :: 0 <= i < |Blocks(content)| ==>
              0 < |Blocks(content)[i]| <= BLOCK_SIZE && Frame(c, Blocks(content)[i]).Some?
  {
    if 0 < |content| <= BLOCK_SIZE {
      assert Concat([content]) == content + Concat([]);
    } else if |content| > BLOCK_SIZE {
      BlocksCoverContent(c, content[BLOCK_SIZE..]);
      assert content == content[..BLOCK_SIZE] + content[BLOCK_SIZE..];
      assert Blocks(content)[1..] == Blocks(content[BLOCK_SIZE..]);
      assert |content| / BLOCK_SIZE == (|content| - BLOCK_SIZE) / BLOCK_SIZE + 1;
      assert |content| % BLOCK_SIZE == (|content| - BLOCK_SIZE) % BLOCK_SIZE;
    }
  }

  /** The block count crosses the wire as a 32-bit word, unharmed exactly up to this size. */
  lemma CountArrivesIff(size: nat)
    ensures BlockCount(size) % WORD == BlockCount(size) <==> size <= (WORD - 1) * BLOCK_SIZE
  {
    if size <= (WORD - 1) * BLOCK_SIZE {
      assert size / BLOCK_SIZE <= WORD - 1;
    } else {
      assert size / BLOCK_SIZE >= WORD - 1;
    }
  }

  lemma FirstBlock(content: seq<byte>, n: nat)
    requires 0 < |content| && n == if |content| < BLOCK_SIZE then |content| else BLOCK_SIZE
    ensures Blocks(content) == [content[..n]] + Blocks(content[n..])
  {
    if |content| <= BLOCK_SIZE {
      assert content[..n] == content && content[n..] == [];
    }
  }

  /** The file reads of the sender: every read but the last fills the buffer. */
  method ReadBlocks(content: seq<byte>) returns (blockCount: nat, blocks: seq<seq<byte>>)
    ensures blockCount == BlockCount(|content|) && blocks == Blocks(content)
  {
    blockCount := |content| / BLOCK_SIZE;
    if |content| % BLOCK_SIZE != 0 {
      blockCount := blockCount + 1;
    }
    blocks := [];
    var offset := 0;
    for c := 0 to blockCount
      invariant offset == if c * BLOCK_SIZE <= |content| then c * BLOCK_SIZE else |content|
      invariant blocks + Blocks(content[offset..]) == Blocks(content)
    {
      var n := if |content| - offset < BLOCK_SIZE then |content| - offset else BLOCK_SIZE;
      FirstBlock(content[offset..], n);
      assert content[offset..][..n] == content[offset..offset + n];
      assert content[offset..][n..] == content[offset + n..];
      blocks := blocks + [content[offset..offset + n]];
      offset := offset + n;
    }
    assert offset == |content|;
  }

  // ---- What arrives, and what the receiver makes of it ----

  /**
   The contents of one frame, as read: whatever it is, a count is taken from its
   first four bytes, and a block is all of it.
   */
  type Item = seq<byte>

  type Files = map<string, seq<byte>>

  function ItemsOf(content: seq<byte>): seq<Item> {
    [IntToBytes(BlockCount(|content|))] + Blocks(content)
  }

  /** Opening a blob creates it if it is not there, and keeps what it holds if it is. */
  function Held(files: Files, id: string): seq<byte> {
    if id in files then files[id] else []
  }

  /** What the sender puts on the connection for the listed blobs, as far as it has them. */
  function Sent(source: Files, ids: seq<string>): seq<Item> {
    if |ids| == 0 then [] else ItemsOf(Held(source, ids[0])) + Sent(source, ids[1..])
  }

  datatype Received = Received(files: Files, ok: bool, rest: seq<Item>)

  /** Appends n blocks, or gives the blob up. */
  function ReceiveBlocks(files: Files, id: string, n: nat, items: seq<Item>): Received
    requires id in files
  {
    if n == 0 then Received(files, true, items)
    else if |items| == 0 then Received(files - {id}, false, items)
    else ReceiveBlocks(files[id := files[id] + items[0]], id, n - 1, items[1..])
  }

  function ReceiveAll(files: Files, ids: seq<string>, items: seq<Item>): Received
    decreases |ids|
  {
    if |ids| == 0 then Received(files, true, items)
    else if |items| == 0 || |items[0]| < 4 then Received(files, false, items)
    else
      var r := ReceiveBlocks(files[ids[0] := Held(files, ids[0])], ids[0], BytesToInt(items[0]), items[1..]);
      if r.ok then ReceiveAll(r.files, ids[1..], r.rest) else r
  }

  /** The receiving side: a directory of blobs, and the items that arrive before the connection ends. */
  class Receiver {
    var files: Files
    var items: seq<Item>

    method ReadBlobs(ids: seq<string>) returns (ok: bool)
      modifies this
      ensures Received(files, ok, items) == ReceiveAll(old(files), ids, old(items))
    {
      for k := 0 to |ids|
        invariant ReceiveAll(files, ids[k..], items) == ReceiveAll(old(files), ids, old(items))
      {
        var id := ids[k];
        assert ids[k..][0] == id && ids[k..][1..] == ids[k + 1..];
        if |items| == 0 || |items[0]| < 4 {
          return false;
        }
        var blockCount := BytesToInt(items[0]);
        items := items[1..];
        files := files[id := if id in files then files[id] else []];
        var rcvOK := ReadBlocksInto(id, blockCount);
        if !rcvOK {
          return false;
        }
      }
      return true;
    }

    /** Fails, and removes the blob, when the items run out before the last block. */
    method ReadBlocksInto(id: string, blockCount: nat) returns (rcvOK: bool)
      requires id in files
      modifies this
      ensures Received(files, rcvOK, items) == ReceiveBlocks(old(files), id, blockCount, old(items))
    {
      for i := 0 to blockCount
        invariant id in files
        invariant ReceiveBlocks(files, id, blockCount - i, items)
               == ReceiveBlocks(old(files), id, blockCount, old(items))
      {
        if |items| == 0 {
          files := files - {id};
          return false;
        }
        files := files[id := files[id] + items[0]];
        items := items[1..];
      }
      return true;
    }
  }

  // ---- Round trip ----

  predicate Countable(content: seq<byte>) {
    |content| <= (WORD - 1) * BLOCK_SIZE
  }

  /** The block counts of the sender's blobs fit a word. */
  predicate AllCountable(source: Files, ids: seq<string>) {
    forall id :: id in ids ==> Countable(Held(source, id))
  }

  lemma {:induction false} ReceiveBlocksOf(files: Files, id: string, blocks: seq<seq<byte>>, rest: seq<Item>)
    requires id in files
    ensures ReceiveBlocks(files, id, |blocks|, blocks + rest)
         == Received(files[id := files[id] + Concat(blocks)], true, rest)
    decreases |blocks|
  {
    if |blocks| == 0 {
      assert blocks + rest == rest && files[id] + [] == files[id];
    } else {
      assert (blocks + rest)[1..] == blocks[1..] + rest;
      var more := files[id := files[id] + blocks[0]];
      ReceiveBlocksOf(more, id, blocks[1..], rest);
      assert more[id] + Concat(blocks[1..]) == files[id] + Concat(blocks);
    }
  }

  /** The count that heads a blob's items is read as the number of its blocks. */
  lemma CountHeadsBlob(content: seq<byte>)
    requires Countable(content)
    ensures |ItemsOf(content)[0]| == 4 && BytesToInt(ItemsOf(content)[0]) == |Blocks(content)|
    ensures ItemsOf(content)[1..] == Blocks(content) && Concat(Blocks(content)) == content
  {
    BlocksCoverContent(Codec(x => x, x => Some(x)), content);
    CountArrivesIff(|content|);
    WordRoundTrip(BlockCount(|content|));
  }

  lemma WholeBlobFirst(files: Files, id: string, content: seq<byte>, ids: seq<string>, more: seq<Item>)
    requires Countable(content)
    ensures ReceiveAll(files, [id] + ids, ItemsOf(content) + more)
         == ReceiveAll(files[id := Held(files, id) + content], ids, more)
  {
    var items := ItemsOf(content) + more;
    CountHeadsBlob(content);
    assert items[0] == ItemsOf(content)[0] && items[1..] == Blocks(content) + more;
    var created := files[id := Held(files, id)];
    ReceiveBlocksOf(created, id, Blocks(content), more);
    assert created[id := created[id] + content] == files[id := Held(files, id) + content];
    assert ([id] + ids)[1..] == ids;
  }

  /** Every announced blob ends up appended to what the receiver held under its name. */
  function Appended(files: Files, source: Files, ids: seq<string>): Files
    decreases |ids|
  {
    if |ids| == 0 then files
    else Appended(files[ids[0] := Held(files, ids[0]) + Held(source, ids[0])], source, ids[1..])
  }

  lemma {:induction false} ReceiveAllAppends(files: Files, source: Files, ids: seq<string>, rest: seq<Item>)
    requires AllCountable(source, ids)
    ensures ReceiveAll(files, ids, Sent(source, ids) + rest) == Received(Appended(files, source, ids), true, rest)
    decreases |ids|
  {
    if |ids| == 0 {
      assert Sent(source, ids) + rest == rest;
    } else {
      var id, more := ids[0], Sent(source, ids[1..]) + rest;
      assert Sent(source, ids) + rest == ItemsOf(Held(source, id)) + more;
      assert ids == [id] + ids[1..];
      WholeBlobFirst(files, id, Held(source, id), ids[1..], more);
      ReceiveAllAppends(files[id := Held(files, id) + Held(source, id)], source, ids[1..], rest);
    }
  }

  function Times(content: seq<byte>, n: nat): seq<byte> {
    if n == 0 then [] else content + Times(content, n - 1)
  }

  lemma {:induction false} TimesLength(content: seq<byte>, n: nat)
    ensures |Times(content, n)| == n * |content|
  {
    if n > 0 {
      TimesLength(content, n - 1);
    }
  }

  function Occurrences(ids: seq<string>, id: string): nat {
    if |ids| == 0 then 0 else (if ids[0] == id then 1 else 0) + Occurrences(ids[1..], id)
  }

  lemma {:induction false} OccursIff(ids: seq<string>, id: string)
    ensures Occurrences(ids, id) > 0 <==> id in ids
  {
    if |ids| != 0 {
      OccursIff(ids[1..], id);
      assert ids == [ids[0]] + ids[1..];
    }
  }

  /** A name that is not repeated occurs once. */
  lemma {:induction false} OccursOnce(ids: seq<string>, i: nat)
    requires i < |ids| && forall j :: 0 <= j < |ids| && j != i ==> ids[j] != ids[i]
    ensures Occurrences(ids, ids[i]) == 1
  {
    if i == 0 {
      OccursIff(ids[1..], ids[0]);
    } else {
      OccursOnce(ids[1..], i - 1);
    }
  }

  lemma {:induction false} AppendedNames(files: Files, source: Files, ids: seq<string>, id: string)
    ensures id in Appended(files, source, ids) <==> id in files || id in ids
    decreases |ids|
  {
    if |ids| != 0 {
      AppendedNames(files[ids[0] := Held(files, ids[0]) + Held(source, ids[0])], source, ids[1..], id);
      assert ids == [ids[0]] + ids[1..];
    }
  }

  lemma OnceMore(held: seq<byte>, content: seq<byte>, n: nat)
    ensures (held + content) + Times(content, n) == held + Times(content, n + 1)
  {
    assert Times(content, n + 1) == content + Times(content, n);
  }

  /** A blob announced several times is appended as often. */
  lemma {:induction false} AppendedAt(files: Files, source: Files, ids: seq<string>, id: string)
    ensures Held(Appended(files, source, ids), id) == Held(files, id) + Times(Held(source, id), Occurrences(ids, id))
    decreases |ids|
  {
    if |ids| == 0 {
      assert Held(files, id) + [] == Held(files, id);
    } else {
      var next := files[ids[0] := Held(files, ids[0]) + Held(source, ids[0])];
      var n := Occurrences(ids[1..], id);
      AppendedAt(next, source, ids[1..], id);
      if id == ids[0] {
        OnceMore(Held(files, id), Held(source, id), n);
      }
    }
  }

  lemma {:induction false} OthersKept(files: Files, source: Files, ids: seq<string>, id: string)
    requires id !in ids
    ensures Held(Appended(files, source, ids), id) == Held(files, id)
    decreases |ids|
  {
    if |ids| != 0 {
      OthersKept(files[ids[0] := Held(files, ids[0]) + Held(source, ids[0])], source, ids[1..], id);
    }
  }

  /** The blob of this name gets through: nothing was there before, and it is announced once, or is empty. */
  predicate ArrivesClean(files: Files, source: Files, ids: seq<string>, id: string) {
    Held(files, id) == [] && (Occurrences(ids, id) == 1 || Held(source, id) == [])
  }

  lemma BlobIntactIff(files: Files, source: Files, ids: seq<string>, id: string)
    requires id in ids
    ensures Held(Appended(files, source, ids), id) == Held(source, id) <==> ArrivesClean(files, source, ids, id)
  {
    var n, content, held := Occurrences(ids, id), Held(source, id), Held(files, id);
    AppendedAt(files, source, ids, id);
    OccursIff(ids, id);
    TimesLength(content, n);
    assert n == 1 ==> Times(content, n) == content + Times(content, 0) == content;
    if content != [] && n >= 2 {
      assert n * |content| >= 2 * |content|;
    }
    if content != [] && n == 1 && held + content == content {
      assert |held| == 0;
    }
    if content == [] {
      assert n * |content| == 0;
      assert Times(content, n) == [];
    }
  }

  /**
   A complete transfer succeeds and uses up its items, and every announced blob
   is then byte for byte the sender's exactly when the receiver held nothing
   under its name and it was announced once (or is empty).
   */
  lemma BlobRoundTripIff(files: Files, source: Files, ids: seq<string>, rest: seq<Item>)
    requires AllCountable(source, ids)
    ensures var r := ReceiveAll(files, ids, Sent(source, ids) + rest);
            && r.ok && r.rest == rest
            && ((forall id :: id in ids ==> id in r.files && r.files[id] == Held(source, id))
                <==> (forall id :: id in ids ==> ArrivesClean(files, source, ids, id)))
            && (forall id :: id !in ids ==> (id in r.files <==> id in files) && Held(r.files, id) == Held(files, id))
  {
    ReceiveAllAppends(files, source, ids, rest);
    forall id ensures id in Appended(files, source, ids) <==> id in files || id in ids {
      AppendedNames(files, source, ids, id);
    }
    forall id | id in ids
      ensures Held(Appended(files, source, ids), id) == Held(source, id) <==> ArrivesClean(files, source, ids, id)
    {
      BlobIntactIff(files, source, ids, id);
    }
    forall id | id !in ids ensures Held(Appended(files, source, ids), id) == Held(files, id) {
      OthersKept(files, source, ids, id);
    }
  }

  // ---- When the connection ends early ----

  lemma {:induction false} TooFewBlocks(files: Files, id: string, n: nat, blocks: seq<seq<byte>>)
    requires id in files && |blocks| < n
    ensures ReceiveBlocks(files, id, n, blocks) == Received(files - {id}, false, [])
    decreases |blocks|
  {
    if |blocks| != 0 {
      var more := files[id := files[id] + blocks[0]];
      TooFewBlocks(more, id, n - 1, blocks[1..]);
      assert more - {id} == files - {id};
    }
  }

  /** A transfer that stops within its first blob removes that blob, unless not even the count arrived. */
  lemma BrokenInFirst(files: Files, id: string, content: seq<byte>, ids: seq<string>, cut: nat)
    requires Countable(content) && cut < |ItemsOf(content)|
    ensures ReceiveAll(files, [id] + ids, ItemsOf(content)[..cut])
         == Received(if cut == 0 then files else files - {id}, false, [])
  {
    if cut > 0 {
      CountHeadsBlob(content);
      var items := ItemsOf(content)[..cut];
      var created := files[id := Held(files, id)];
      assert items[0] == ItemsOf(content)[0] && items[1..] == Blocks(content)[..cut - 1];
      TooFewBlocks(created, id, |Blocks(content)|, items[1..]);
      assert created - {id} == files - {id};
    }
  }

  /** The first done blobs were completed, and the next one is gone if it was broken off. */
  function AfterCut(files: Files, source: Files, ids: seq<string>, done: nat, broken: bool): Files
    requires done <= |ids| && (broken ==> done < |ids|)
  {
    if broken then Appended(files, source, ids[..done]) - {ids[done]} else Appended(files, source, ids[..done])
  }

  lemma SentFirst(source: Files, id: string, ids: seq<string>)
    ensures Sent(source, [id] + ids) == ItemsOf(Held(source, id)) + Sent(source, ids)
  {
    assert ([id] + ids)[1..] == ids;
  }

  lemma AppendedFirst(files: Files, source: Files, id: string, ids: seq<string>)
    ensures Appended(files, source, [id] + ids)
         == Appended(files[id := Held(files, id) + Held(source, id)], source, ids)
  {
    assert ([id] + ids)[1..] == ids;
  }

  /** Cut items of the transfer of ids stop within the blob after the first done ones, or before it, or at the end. */
  predicate StopsAfter(source: Files, ids: seq<string>, cut: nat, done: nat) {
    && done <= |ids| && |Sent(source, ids[..done])| <= cut
    && if done == |ids| then cut == |Sent(source, ids)| else cut < |Sent(source, ids[..done + 1])|
  }

  lemma StopsLater(source: Files, id: string, tail: seq<string>, cut: nat, d: nat)
    requires StopsAfter(source, tail, cut, d)
    ensures StopsAfter(source, [id] + tail, |ItemsOf(Held(source, id))| + cut, d + 1)
    ensures |Sent(source, ([id] + tail)[..d + 1])| == |ItemsOf(Held(source, id))| + |Sent(source, tail[..d])|
  {
    var ids := [id] + tail;
    assert ids[..d + 1] == [id] + tail[..d];
    SentFirst(source, id, tail[..d]);
    SentFirst(source, id, tail);
    if d < |tail| {
      assert ids[..d + 2] == [id] + tail[..d + 1];
      SentFirst(source, id, tail[..d + 1]);
    }
  }

  lemma AfterCutLater(files: Files, source: Files, id: string, tail: seq<string>, d: nat, broken: bool)
    requires d <= |tail| && (broken ==> d < |tail|)
    ensures AfterCut(files, source, [id] + tail, d + 1, broken)
         == AfterCut(files[id := Held(files, id) + Held(source, id)], source, tail, d, broken)
  {
    assert ([id] + tail)[..d + 1] == [id] + tail[..d];
    AppendedFirst(files, source, id, tail[..d]);
  }

  /** The transfer has come to its end after cut items, with done blobs whole. */
  ghost predicate EndsAfter(files: Files, source: Files, ids: seq<string>, cut: nat, done: nat) {
    && StopsAfter(source, ids, cut, done) && cut <= |Sent(source, ids)|
    && (|Sent(source, ids[..done])| < cut ==> done < |ids|)
    && ReceiveAll(files, ids, Sent(source, ids)[..cut])
    == Received(AfterCut(files, source, ids, done, |Sent(source, ids[..done])| < cut), done == |ids|, [])
  }

  lemma EndsInFirst(files: Files, source: Files, id: string, tail: seq<string>, cut: nat)
    requires Countable(Held(source, id)) && cut < |ItemsOf(Held(source, id))|
    ensures EndsAfter(files, source, [id] + tail, cut, 0)
  {
    SentFirst(source, id, tail);
    assert ([id] + tail)[..1] == [id] + [];
    SentFirst(source, id, []);
    assert Sent(source, [id] + tail)[..cut] == ItemsOf(Held(source, id))[..cut];
    BrokenInFirst(files, id, Held(source, id), tail, cut);
  }

  lemma ReceivesLater(files: Files, source: Files, id: string, tail: seq<string>, cut: nat)
    requires Countable(Held(source, id)) && cut <= |Sent(source, tail)|
    ensures |ItemsOf(Held(source, id))| + cut <= |Sent(source, [id] + tail)|
    ensures ReceiveAll(files, [id] + tail, Sent(source, [id] + tail)[..|ItemsOf(Held(source, id))| + cut])
         == ReceiveAll(files[id := Held(files, id) + Held(source, id)], tail, Sent(source, tail)[..cut])
  {
    var first, later := ItemsOf(Held(source, id)), Sent(source, tail);
    SentFirst(source, id, tail);
    assert Sent(source, [id] + tail)[..|first| + cut] == first + later[..cut];
    WholeBlobFirst(files, id, Held(source, id), tail, later[..cut]);
  }

  lemma EndsLater(files: Files, source: Files, id: string, tail: seq<string>, cut: nat, d: nat)
    requires Countable(Held(source, id))
    requires EndsAfter(files[id := Held(files, id) + Held(source, id)], source, tail, cut, d)
    ensures EndsAfter(files, source, [id] + tail, |ItemsOf(Held(source, id))| + cut, d + 1)
  {
    ReceivesLater(files, source, id, tail, cut);
    StopsLater(source, id, tail, cut, d);
    AfterCutLater(files, source, id, tail, d, |Sent(source, tail[..d])| < cut);
  }

  /**
   The items of a transfer stop anywhere. Whatever the receiver held, and however
   often a name is listed, it ends with the blobs appended that were complete,
   and without the one that was under way. It has then read all items, and
   succeeds only if no blob is left.
   */
  lemma {:induction false} TransferCutAnywhere(files: Files, source: Files, ids: seq<string>, cut: nat)
    returns (done: nat)
    requires AllCountable(source, ids) && cut <= |Sent(source, ids)|
    ensures EndsAfter(files, source, ids, cut, done)
    decreases |ids|, 1
  {
    if |ids| == 0 {
      done := 0;
    } else {
      done := TransferCutInList(files, source, ids[0], ids[1..], cut);
      assert ids == [ids[0]] + ids[1..];
    }
  }

  lemma {:induction false} TransferCutInList(files: Files, source: Files, id: string, tail: seq<string>, cut: nat)
    returns (done: nat)
    requires Countable(Held(source, id)) && AllCountable(source, tail) && cut <= |Sent(source, [id] + tail)|
    ensures EndsAfter(files, source, [id] + tail, cut, done)
    decreases |tail| + 1, 0
  {
    var size := |ItemsOf(Held(source, id))|;
    if cut < size {
      EndsInFirst(files, source, id, tail, cut);
      done := 0;
    } else {
      SentFirst(source, id, tail);
      var d := TransferCutAnywhere(files[id := Held(files, id) + Held(source, id)], source, tail, cut - size);
      EndsLater(files, source, id, tail, cut - size, d);
      done := d + 1;
    }
  }

  /**
   Breaking off loses nothing exactly when the name it removes was neither held
   before nor completed earlier in the list.
   */
  lemma BreakingOffLosesIff(files: Files, source: Files, ids: seq<string>, done: nat, broken: bool)
    requires done <= |ids| && (broken ==> done < |ids|)
    ensures AfterCut(files, source, ids, done, broken) == Appended(files, source, ids[..done])
            <==> !broken || (ids[done] !in files && ids[done] !in ids[..done])
  {
    if broken {
      AppendedNames(files, source, ids[..done], ids[done]);
    }
  }

  /**
   If the items stop anywhere before the end, the transfer fails, and the
   receiver has what it held with the complete blobs appended, without the one
   that was under way. So nothing that was there or was completed is lost
   exactly when the items stop between two blobs, or the blob under way was
   neither held before nor completed earlier in the list.
   */
  lemma BrokenTransferKeepsWholeIff(files: Files, source: Files, ids: seq<string>, cut: nat) returns (done: nat)
    requires AllCountable(source, ids) && cut < |Sent(source, ids)|
    ensures done < |ids| && |Sent(source, ids[..done])| <= cut < |Sent(source, ids[..done + 1])|
    ensures var r := ReceiveAll(files, ids, Sent(source, ids)[..cut]);
            && r == Received(AfterCut(files, source, ids, done, |Sent(source, ids[..done])| < cut), false, [])
            && (r.files == Appended(files, source, ids[..done]) <==>
                cut == |Sent(source, ids[..done])| || (ids[done] !in files && ids[done] !in ids[..done]))
  {
    done := TransferCutAnywhere(files, source, ids, cut);
    BreakingOffLosesIff(files, source, ids, done, |Sent(source, ids[..done])| < cut);
  }

  /** A transfer that breaks off inside a blob removes the blob even if it was there, whole, before. */
  lemma BreakingOffRemovesOldBlob(files: Files, id: string, n: nat, blocks: seq<seq<byte>>)
    requires |blocks| < n < WORD
    ensures ReceiveAll(files, [id], [IntToBytes(n)] + blocks) == Received(files - {id}, false, [])
  {
    WordRoundTrip(n);
    BrokenAfterCount(files, id, IntToBytes(n), blocks);
  }

  lemma BrokenAfterCount(files: Files, id: string, count: Item, blocks: seq<seq<byte>>)
    requires |count| == 4 && |blocks| < BytesToInt(count)
    ensures ReceiveAll(files, [id], [count] + blocks) == Received(files - {id}, false, [])
  {
    var items := [count] + blocks;
    assert items[0] == count && items[1..] == blocks;
    var created := files[id := Held(files, id)];
    TooFewBlocks(created, id, BytesToInt(count), blocks);
    assert created - {id} == files - {id};
  }
}
