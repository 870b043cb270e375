# onionmsg: a verified model of room replication

Onionmsg is a peer-to-peer messenger. Every member of a conversation runs a
room of its own: an append-only log of signed messages, a map with the time of
the last logged message of each sender, and a list of peers. A room sends its
messages by syncing with one peer at a time. The peer tells its marks, the
room picks what is later than they say, the peer filters again and logs what
is left. There is no server and no agreed order; what the rooms hold should be
the same in the end.

This project models that protocol, the code below it and the commands that
travel over it, and proves what they are for.

| file | contents |
|---|---|
| `SyncState.dfy`, `RoomModel.dfy` | marks, logs and the push of a batch, on values |
| `Room.dfy` | the room as an object that is updated in place, tied method by method to the value model |
| `Replication.dfy`, `Convergence.dfy` | a network of rooms with stale, late, repeated and lost batches |
| `Skipping.dfy`, `PushInterleaving.dfy` | the queue's shortcut; a push as interleaved steps of threads |
| `World.dfy`, `WorldSessions.dfy` | rooms and any number of overlapping sessions between them, as a run of the network and one session at a time |
| `RoomNames.dfy` | when rooms that hold the same messages have the same name |
| `Session.dfy`, `SessionSafety.dfy` | one sync session as two processes with write buffers and channels; what holds however it is disturbed |
| `AnyPeer.dfy`, `DaemonCrash.dfy` | the server against a peer that sends any frames; which frames end the daemon |
| `SessionScript.dfy`, `SessionProgress.dfy`, `SessionEnd.dfy`, `SessionTotal.dfy`, `FrameLimit.dfy` | the two sides follow one script; every session ends, and where; the same in bytes |
| `SessionBlobs.dfy`, `SessionFiles.dfy`, `LostBlob.dfy` | which blobs the server holds after a session |
| `SessionAsSync.dfy` | a session, failed or not, as one sync among other pushes |
| `Framing.dfy`, `DataConn.dfy`, `Blobs.dfy` | length-prefixed frames over a stream in pieces; blob transfer |
| `Commands.dfy`, `Membership.dfy`, `Lives.dfy` | room commands; adding and announcing peers; what holds over the life of a room |
| `Messages.dfy`, `Base64Url.dfy`, `Sequences.dfy` | messages and signatures, fingerprints, sequences |

`dafny verify dfyconfig.toml` checks all of it.

## What the proofs say about the program

Replication is sound. In every run of the network, with handshakes, choices of
batches and deliveries at any distance from each other, every room holds a
gap-free prefix of what each sender logged, a delivery is the join of two
vector clocks, no message is logged twice, and syncs that change anything are
bounded by what is missing. This carries over to a world of sessions that
overlap in any way, in which every room may send, receive and be client and
server of several sessions at once, while connections break and syncs are
retried: in every state its rooms are those of a run of the network. A client
that is done has been heard: the server then holds the whole log that the
client had when it picked its batch (`WorldSessions.DoneMeansHeld`), and has had
its blobs. A session that pushes while
its client fails is still a sync of the network, and what it pushed is never
offered to that server again.

Some properties hold only under a condition. The code is modelled as it is; the
exact condition is proved, and where it fails the failing case is shown.

* A push copies the marks before it takes the lock
  (`internal/types/room.go:203`). If the marks change in between, the later
  publication drops the other one's sender
  (`PushInterleaving.TwoPushesLoseASender`), and that sender's messages can be
  logged twice. Replication therefore treats a push as one step.
* The queue copies the marks when the sync is over
  (`internal/types/messaging_peer.go:69`). A message sent in between is not
  offered again until the marks change once more
  (`Skipping.SkippingIsSoundIff`, `Skipping.SendDuringSyncIsForgotten`).
* A batch out of order within one sender leaves a mark behind its own messages
  (`RoomModel.PushKeepsOrderIff`, `RoomModel.UnorderedBatchBreaksTheLog`).
* A local send is dropped without an error if the clock has not moved
  (`RoomModel.SendIsLoggedIff`); announcing the peers is complete if and only if
  it moves at every send (`Membership.AllPeersAnnouncedIff`).
* A marks map or batch larger than a frame is not written, and the error is
  ignored; both sides then wait for each other
  (`SessionEnd.UncutSessionSucceedsIff`, `SessionEnd.OversizeFrameStallsBoth`).
  What counts is the size after compression
  (`FrameLimit.UncutSessionWithinLimitIff`).
* The length of a frame is read by one read that may return less
  (`pkg/sio/connection/data_conn.go:96`). A stream is read in step if and only
  if no length is split (`Framing.StreamInStepIff`).
* A blob arrives intact if and only if the receiver held nothing under its name
  and the batch names it once, or it is empty (`Blobs.BlobRoundTripIff`). A
  transfer that breaks off removes a blob of that name that was there before
  (`Blobs.BreakingOffRemovesOldBlob`, `Blobs.BrokenTransferKeepsWholeIff`).
* A failure among the blobs does not stop the push
  (`internal/daemon/conversation_handler.go:80-85`). There is a run, for every
  trusted client, in which a message is logged without its blob
  (`LostBlob.PushWithoutBlob`), and the server's marks then keep it from ever
  being offered again (`SessionAsSync.RetryOffersNoneAgain`). New blobs are whole
  after a push if and only if the server left the transfer by its last "blob_ok"
  (`SessionFiles.NewBlobsWholeIff`; for any blobs
  `SessionFiles.PushedBlobsWholeIff`).
* Messages arrive in a different order at different rooms, and commands are run
  in the order of arrival. Rooms with the same messages have the same name
  whatever the order if and only if all senders that name the room end up with
  the same word (`RoomNames.NameIsOrderFreeIff`). If two do not, the names stay
  apart when nothing is left to sync (`RoomNames.NamesCanStayApart`): two linked
  rooms that name the conversation at the same time end with each other's name
  (`RoomNames.RaceSwapsNames`).
* An invite is compared as it is spelled, but stored re-encoded. Spellings that
  are not canonical base64url can list a member twice
  (`Commands.InviteIsHarmlessIff`; sections 3.5 and 5 of RFC 4648).
* Adding peers does not look at who is there already, and a contact chooses the
  key that it answers with. Over a life with canonical invites a room lists
  nobody twice, and not itself, if and only if all added keys are new when they
  are added (`Lives.WellFormedLifeIff`).
* A handler that panics ends the daemon. In the model a peer makes it panic in
  exactly two ways: with a key of the wrong size in the handshake
  (`internal/daemon/conversation_handler.go:172`), or, once it is let in, with
  fewer than four bytes in the place of a blob's count
  (`pkg/sio/connection/data_conn.go:210`). Nothing has been pushed in such a
  session (`DaemonCrash.CrashesIff`).
* A room name is cut at its first space (`Commands.RoomNameKeptIff`).
* The comment in `pkg/sio/connection/data_conn.go:27` gives a limit of 16K for a
  message; the limit in the code is 1 MiB, and it holds after compression. The
  model follows the code.

## How the program's parts appear

Times are integers and the clock is a parameter of each send. Ed25519 signing
and verification, the zstd compressor (assumed lossless) and the JSON encoding
of a frame are parameters as well. Base64url, the integer
words and the block arithmetic are modelled bit by bit. A fingerprint in a
command goes through the actual decoder, line breaks and unused bits included.

In the network a room is named by the fingerprint of the identity that runs
it, and only that room sends messages in its name. A run starts without rooms;
rooms begin with empty logs. In the session, messages of any sender and any
signature may arrive, buffers may spill early, the connection may be cut with
any part of what was sent still to arrive, and other pushes may reach the
server's room at every moment.

In a world each session is given beforehand what it will find: the log that its
client picks from, whether the server lists the client, whether the key is
proved. It goes on only where that turns out so, with the client's room and the
server's list of peers as they are at that step. Every outcome is thus some
session of the world.

## Model

| member | source | states |
|---|---|---|
| `Replication.RunKeepsInvariant` | internal/types/messaging_peer.go:91-141 | Every state of every run is faithful: each sender's own log increases in time, every room is exactly indexed and holds prefixes, and every batch under way starts no later than where its receiver ends. |
| `Replication.PrefixInEveryRun` | internal/types/room.go:202-234 | In every reachable state what a room holds of a sender is a gap-free prefix of what that sender logged; no message is there twice; each mark is the time of the sender's last and latest message. |
| `Replication.StaleDeliveryIsJoin` | internal/types/messaging_peer.go:200-210 | With marks read at one time, the batch picked later and pushed later still, the receiver gets the pointwise maximum of both maps and the longer of both logs, per sender. |
| `Replication.EveryDeliveryIsJoin` | internal/types/messaging_peer.go:115-123 | Every delivery step of every run is such a join, with a state that the client really had. |
| `Replication.DeltaIsExactlyMissing` | internal/types/messaging_peer.go:200-210 | Against current marks, the batch is exactly the messages that the receiver's log does not contain, in order: the marks are a complete index. |
| `Replication.NothingLeftAfterDelivery` | internal/types/room.go:209-229 | After a delivery the client would pick nothing more, and pushing the batch again changes nothing. |
| `Replication.ExchangeMakesPairAgree` | internal/types/messaging_peer.go:91-141 | A sync each way leaves two rooms with the same marks and the same messages of every sender. |
| `Replication.RunGrows` | internal/types/room.go:202-234 | Along a run rooms are never lost, logs only grow at the end, and no mark is lost or goes back. |
| `Convergence.EffectiveDeliveryShrinksMissing` | internal/types/room.go:202-234 | A delivery never adds to the missing pairs of room and message, and one that changes a log leaves strictly fewer. |
| `Convergence.EffectiveSyncsAreBounded` | internal/types/messaging_peer.go:91-141 | Without new rooms or sends, the number of steps that change a log is at most the number of missing pairs. |
| `Convergence.SyncIsPossible` | internal/types/messaging_peer.go:91-141 | Between linked rooms a whole sync can always be made, and it changes the server's log if and only if the client holds a message that the server lacks. |
| `Convergence.SettledRoomsAgree` | internal/types/messaging_peer.go:91-141 | When no sync between linked rooms has anything to send, rooms joined by a path of links hold the same messages and marks. |
| `Convergence.SettledIsReachable` | internal/types/messaging_peer.go:91-141 | From every reachable state some syncs, with nothing else in between, lead to a state in which no sync between linked rooms has anything to send. |
| `RoomNames.NameIsLastWord` | internal/types/command_handler.go:106-113 | In every run, a room has the name that the last name_room message of its own log gives it, or none. |
| `RoomNames.NameIsOrderFreeIff` | internal/types/room.go:207-229 | All orders of the same messages, each sender's in its own order, give the same name if and only if all senders that name the room end up with the same word. |
| `RoomNames.SettledNamesAgree` | internal/types/command_handler.go:106-113 | In a settled state rooms joined by links have the same name under that condition. |
| `RoomNames.RaceSwapsNames` | internal/types/room.go:207-229 | Two linked rooms that each log a name of their own first: however they sync from there, once nothing is left to sync they hold the same messages and marks, and each has the other's name. |
| `RoomNames.NamesCanStayApart` | internal/types/command_handler.go:106-113 | For any two rooms and words there is such a run, from the empty network to a settled state with these two names. |
| `Skipping.Queue.Pass` | internal/types/messaging_peer.go:57-72 | One pass of the queue skips if and only if the room's marks are all among those remembered, and remembers new marks only after a sync that succeeded. |
| `Skipping.SkipTestIsEquality` | internal/types/util.go:44-52 | Against marks remembered earlier in the run, the one-sided comparison is true equality. |
| `Skipping.SkippingIsSound` | internal/types/messaging_peer.go:57-70 | If the room's marks did not change between picking the batch and copying the marks, then whenever the queue skips the peer holds every message of the room. |
| `Skipping.SkippingIsSoundIff` | internal/types/messaging_peer.go:57-70 | For a room that received nothing from others meanwhile, skipping leaves nothing behind if and only if it also sent nothing between picking the batch and copying the marks. |
| `Skipping.OnlyLoggedMeanwhileIsMissing` | internal/types/messaging_peer.go:57-70 | Whatever happens meanwhile, messages from others included: all that the peer lacks when the queue skips was logged by the room between picking the batch and copying the marks. |
| `Skipping.SendDuringSyncIsForgotten` | internal/types/messaging_peer.go:69 | A run of two rooms in which the queue skips while the peer lacks a message. |
| `PushInterleaving.LockedPushesAreWhole` | internal/types/room.go:202-234 | In every schedule of threads the room is the result of whole pushes in the order of publication, each with the marks it had copied. |
| `PushInterleaving.FreshSchedulesAreSerial` | internal/types/room.go:203-231 | If the room's marks are those copied whenever a thread takes the lock, the schedule equals the pushes one after the other, and the index stays exact. |
| `PushInterleaving.PublishIsExactIff` | internal/types/room.go:203-229 | A publication leaves the index exact if and only if its copy agreed with the room on every sender it accepted nothing from. |
| `PushInterleaving.TwoPushesLoseASender` | internal/types/room.go:203-205 | A schedule of two pushes after which a sender with a logged message has no mark. |
| `PushInterleaving.ForgottenSenderIsLoggedTwice` | internal/types/room.go:210 | A logged message whose sender has no mark is logged again when it is pushed again. |
| `Rooms.Room.PushMessages` | internal/types/room.go:202-234 | The loop, with commands carried out in place, changes the room as the value model of a push does: compared with the old marks, commands applied, messages appended, the new marks published. |
| `Rooms.Room.LogMessage` | internal/types/room.go:213-225 | A command is carried out and the message is logged whatever comes of it. |
| `Rooms.Room.SendMessageToAllPeers` | internal/types/room.go:170-173 | A local send is a push of one signed message with the current time. |
| `Rooms.Room.FindMessagesToSync` | internal/types/messaging_peer.go:200-210 | The loop returns, in order, the messages that are new to the holder of the remote marks. |
| `Rooms.Room.SyncPeerLists` | internal/types/room.go:102-110 | The room ends as after one invite per peer, each sent at its own reading of the clock. |
| `Rooms.Room.CreatePeers` | internal/types/room.go:78-85 | All contacts answer with a key and each becomes a fresh peer under the key's own fingerprint, without nickname or rights, or the call fails. |
| `Rooms.Room.AddPeers` | internal/types/room.go:77-96 | If every contact answers with a key, the peers are appended, each under the canonical fingerprint of its key, and all peers announced; otherwise the room is as before. |
| `Rooms.Room.PeerByFingerprint` | internal/types/room.go:186-193 | The identity of the first peer with the fingerprint, or none. |
| `Rooms.Room.RemovePeer` | internal/types/room.go:262-272 | The first peer with the fingerprint is stopped and taken out, or nothing changes and the error says so. |
| `Rooms.Room.DropPeerAt` | internal/types/room.go:265-266 | The shift in place keeps the order and the records of the others. |
| `Rooms.Room.GetSender` | internal/types/command_handler.go:174-188 | Returns the sender's identity, the peers looked up before the room itself, or the error for an unknown sender or one that is no admin. |
| `Rooms.Room.HandleCommand` | internal/types/command_handler.go:38-47 | Dispatch on the first word; on an error the room is unchanged, otherwise it changes as the value model says. |
| `Rooms.Room.InviteCallback` | internal/types/command_handler.go:78-104 | Appends a peer under the re-encoded key, or refuses one that is listed, the room itself or undecodable. |
| `Rooms.Room.NameRoomCallback` | internal/types/command_handler.go:106-116 | Sets the name to the second word. |
| `Rooms.Room.NickCallback` | internal/types/command_handler.go:118-134 | Writes the nickname through the record shared by all copies of the sender's identity, and through no other. |
| `Rooms.Room.PromoteCallback` | internal/types/command_handler.go:136-158 | An admin's promotion sets the flag in the shared record of a peer or of the room itself, and in no other. |
| `Rooms.Room.RemovePeerCallback` | internal/types/command_handler.go:160-172 | An admin's removal takes out the named peer; errors change nothing. |
| `Rooms.Room.WriteMeta` | internal/types/identity.go:18-30 | Writing through a copy of an identity changes the one member that the record belongs to. |
| `RoomModel.ViewIsReplayOfLog` | internal/types/room.go:209-227 | After any batches, name, peers, nicknames and flags are those of replaying the newly logged messages once, in order; the log only grew and the marks describe it exactly. |
| `RoomModel.PushKeepsIndex` | internal/types/room.go:209-229 | Whatever the batch, every mark stays the time of the last logged message of its sender, and only senders in the log have one. |
| `RoomModel.PushNeverGoesBack` | internal/types/room.go:202-231 | Whatever the batch, no sender is lost from the marks and no mark goes back. |
| `RoomModel.MarksAreMaxima` | internal/types/room.go:209-229 | When logs increase per sender, each mark is also the latest time. |
| `RoomModel.PushKeepsOrderIff` | internal/types/room.go:209-227 | A push keeps logs increasing per sender if and only if what it accepts is increasing per sender. |
| `RoomModel.RepeatedPushIsNoOpIff` | internal/types/room.go:207-211 | Pushing a batch twice is pushing it once if and only if the last accepted message of each sender is its latest. |
| `RoomModel.OrderedBatchIsCovered` | internal/types/room.go:209-211 | Batches increasing per sender meet that condition. |
| `RoomModel.UnorderedBatchBreaksTheLog` | internal/types/room.go:209-211 | Two-message batches that leave a mark behind, or log a message twice. |
| `RoomModel.SendIsLoggedIff` | internal/types/room.go:170-173 | A room's own message is logged if and only if its time is later than the room's own mark. |
| `SyncState.NewerOfSegment` | internal/types/messaging_peer.go:203-207 | Of a stretch of a sender's history that leaves no gap, a holder of a prefix accepts exactly what lies beyond the prefix. |
| `SyncState.RecordKeepsIndex` | internal/types/room.go:209-229 | Recording while logging keeps an exact index exact, for messages in any order. |
| `SyncState.IndexIsUnique` | internal/types/room.go:23 | A log has at most one exact index. |
| `SyncState.CopySyncMap` | internal/types/util.go:35-42 | The copy equals the map. |
| `SyncState.SyncMapsEqual` | internal/types/util.go:44-52 | The loop answers yes if and only if every mark of the first map is in the second. |
| `SyncState.ContainedIsEqualityIff` | internal/types/util.go:44-52 | A yes means equal maps if and only if the second map has no sender that the first lacks. |
| `SessionSafety.SuccessMeansPushed` | internal/types/messaging_peer.go:91-141 | In every run with cuts, spills and other pushes, a client that is done has had exactly its batch pushed, once; whatever is pushed is signed at every level of its reply chains; the server pushes at most once. |
| `SessionSafety.InvalidMessageBlocksBatch` | internal/daemon/conversation_handler.go:68-75 | One message that fails the check keeps the whole batch out, and the client does not succeed. |
| `SessionSafety.SuccessNeedsFittingFrames` | internal/types/messaging_peer.go:115-141 | A client that is done had picked its batch by the marks the server wrote, and marks, batch and blob list all fit a frame. |
| `SessionSafety.PushedIsChosen` | internal/daemon/conversation_handler.go:61-85 | In every run, also when the client fails: the server pushes at most once, and what it pushes is the batch that its own marks asked for of the client's log, or nothing. |
| `SessionSafety.PushStaysCovered` | internal/types/messaging_peer.go:200-210 | From a push on, whether or not the client hears of it, the server's marks cover the batch, so none of it is new to them again. |
| `AnyPeer.OnlyValidEntries` | internal/daemon/conversation_handler.go:20-85 | Whatever frames a peer sends, in any order and broken in any way: the server pushes at most once, and only the batch in the fourth frame of a peer whose first two frames prove a key, whose third names the room, and which the room listed when that frame was read; all of it is signed at every level of the reply chains, and one bad message keeps the batch out. |
| `AnyPeer.TakenIsSent` | pkg/sio/connection/data_conn.go:94-133 | The n-th read of the server returns the n-th frame that the peer has sent, or fails. |
| `DaemonCrash.CrashesIff` | internal/daemon/conversation_handler.go:95-177 | The daemon has crashed if and only if the frames read so far are a fingerprint that decodes to a key of the wrong size and another frame, or end in one of under four bytes where the transfer expects a count; a session that crashes it has pushed nothing. |
| `SessionAsSync.EveryPushIsOneSync` | internal/types/messaging_peer.go:64-70 | A session that pushes, with a client that succeeds or fails, is one whole sync of the kind Replication takes apart: marks the room had at one moment, the batch they ask for (or none), delivered by one later step; no other step of the session touches the room. |
| `SessionAsSync.RetryOffersNoneAgain` | internal/types/messaging_peer.go:64-70 | After a push, no session with the same server at any later time receives or pushes any of the same messages, even if the first session failed and is retried. |
| `World.WorldIsNetwork` | internal/types/messaging_peer.go:39-141 | In every state of every world, with any number of sessions in any interleaving, cut or failed as they may be, and with sends, new rooms and new peers in between, the rooms are those of a reachable state of the network, and what the sessions carry are handshakes and batches under way there. |
| `World.EveryRoomIsFaithful` | internal/daemon/conversation_handler.go:61-92 | So in every such state, after any retries, no room has a message twice, its marks are exact and the latest, and what it holds of a sender is a gap-free prefix of what that sender has logged. |
| `WorldSessions.SessionOfWorldIsRun` | internal/daemon/conversation_handler.go:20-93 | Each session of a world is a run of one session, with what all the others do to the server's room as pushes and joins from outside. |
| `WorldSessions.DoneMeansHeld` | internal/types/messaging_peer.go:64-70 | When a client of a world is done, the server's log holds every message of the log that the client had when it picked its batch. |
| `SessionScript.ClientFollowsScript` | internal/types/messaging_peer.go:91-198 | In every state the client's next write, flush or read is the next event of the common script, for any number of blobs and blocks. |
| `SessionScript.ServerFollowsScript` | internal/daemon/conversation_handler.go:20-140 | The same for the server. |
| `SessionBlobs.RunKeepsTransfer` | internal/daemon/conversation_handler.go:95-140 | In every run, with cuts and failures anywhere, what is under way to the server is a beginning of what the client has to send, and the server's files are what the frames read so far make of them. |
| `SessionFiles.FramesAreItems` | internal/types/messaging_peer.go:149-198 | The counts and blocks that the client sends are the items of the listed blobs, in order, up to the first file it does not have. |
| `SessionFiles.FilesAfterPush` | internal/daemon/conversation_handler.go:80-140 | In every run in which the server has pushed: its files are those of the start with the first blobs of the batch appended, without the one that was broken off; all are done if and only if it left the transfer by its last "blob_ok". |
| `SessionFiles.SuccessMeansBlobsWritten` | internal/types/messaging_peer.go:130-140 | In every run, a client that is done has had every blob of its batch appended to the server's files; each is then byte for byte the client's if and only if the server held nothing under its name and it is named once, or is empty. |
| `SessionFiles.PushedBlobsWholeIff` | internal/daemon/conversation_handler.go:80-85 | Exactly when all blobs of a pushed batch are whole, whatever the server held before and however names repeat. |
| `SessionFiles.NewBlobsWholeIff` | internal/daemon/conversation_handler.go:80-85 | For new blobs named once: all are whole if and only if the server left the transfer by its last "blob_ok", and not by a failed read. |
| `LostBlob.PushWithoutBlob` | internal/daemon/conversation_handler.go:80-85 | For every trusted client whose batch has a blob that the server lacks, a run in which the batch is pushed and the blob is absent, with marks that ask for none of these messages any more. |
| `SessionProgress.FlushedBeforeReading` | internal/types/messaging_peer.go:107-134 | In every run, also cut or refused, a side whose next move is a read has nothing unsent. |
| `SessionProgress.RunKeepsProgress` | internal/daemon/conversation_handler.go:20-93 | In every uncut run what is in buffers and channels is just what one side has written of the script and the other has not read. |
| `SessionEnd.NeitherSideFails` | internal/types/util.go:66-75 | In an uncut run of a member with good signatures every response is the expected one: the client never fails, the server never refuses, and a server that has closed has pushed, unless the list of blobs is all that does not fit a frame. |
| `SessionEnd.UncutSessionSucceedsIff` | internal/types/messaging_peer.go:115-141 | When an uncut session is at rest the client has succeeded, and the server has pushed what its marks ask for and closed, if and only if marks, batch and blob list fit a frame. |
| `SessionEnd.OversizeFrameStallsBoth` | pkg/sio/connection/data_conn.go:76-78 | When the marks or the batch do not fit, both sides of an uncut session end up reading from empty channels and nothing is pushed. |
| `FrameLimit.UncutSessionWithinLimitIff` | pkg/sio/connection/data_conn.go:64-91 | With frames written as the framing takes them: an uncut session at rest has succeeded if and only if marks, batch and blob list are at most 1 MiB after compression; otherwise, if it is the marks or the batch, both sides wait and nothing is pushed. |
| `SessionEnd.MoveShrinksWork` | internal/types/messaging_peer.go:91-198 | Every move of the session strictly lowers what is left to do, and other pushes do not raise it. |
| `SessionEnd.SessionIsFinite` | internal/daemon/conversation_handler.go:20-140 | An uncut session takes at most eight moves per frame of its script, however many pushes come in between. |
| `SessionTotal.EverySessionIsFinite` | internal/types/messaging_peer.go:91-141 | In every run of every session, refused, failing or cut, the moves of the two sides are bounded by the blobs of the batch that the marks ask for. |
| `SessionTotal.RestIsHaltOrStall` | internal/daemon/conversation_handler.go:20-93 | When nothing more can happen in a session, whatever the client lacks or the server refuses: both sides have halted, or the session was not cut and both wait because the marks or the batch did not fit a frame. |
| `Blobs.ReadBlocks` | internal/types/messaging_peer.go:159-180 | The reading loop announces the ceiling count and sends exactly the blocks of the file. |
| `Blobs.BlocksCoverContent` | internal/types/messaging_peer.go:159-181 | For every size the blocks, in number the ceiling of size over block size, join to the content; none is empty, over the block size or refused by the framing. |
| `Blobs.CountArrivesIff` | internal/types/messaging_peer.go:164 | The count survives its 32-bit word if and only if the file is no longer than 2^32 - 1 whole blocks. |
| `Blobs.Receiver.ReadBlobs` | internal/daemon/conversation_handler.go:95-140 | The receiving loop over all blobs, with files and input updated in place, reads a count from the first four bytes of whatever comes and appends whatever comes as a block, and ends as the recursive description says, failures included. |
| `Blobs.Receiver.ReadBlocksInto` | internal/daemon/conversation_handler.go:110-136 | The loop over one blob appends block by block, or removes that blob when the input ends first. |
| `Blobs.BlobIntactIff` | pkg/blobmngr/manager.go:48-50 | A received blob equals the sender's if and only if nothing was held under its name and it was announced once, or is empty. |
| `Blobs.BlobRoundTripIff` | internal/daemon/conversation_handler.go:99-137 | A complete transfer succeeds and uses up its input; all announced blobs are then the sender's under exactly that condition, and all other files are as before. |
| `Blobs.TransferCutAnywhere` | internal/daemon/conversation_handler.go:99-137 | Wherever the input stops, whatever the receiver held and however names repeat: the complete blobs are appended, the one under way is removed, all input is read, and the transfer succeeds only if no blob is left. |
| `Blobs.BrokenTransferKeepsWholeIff` | internal/daemon/conversation_handler.go:110-136 | If the input stops before the end, the transfer fails, and nothing that was held or completed is lost if and only if it stops between two blobs, or the blob under way was neither held before nor completed earlier in the list. |
| `Blobs.BreakingOffRemovesOldBlob` | internal/daemon/conversation_handler.go:111-116 | Breaking off inside a blob also removes what was held under its name before. |
| `Framing.WordRoundTrip` | pkg/sio/connection/data_conn.go:209-217 | An integer survives its four bytes modulo 2^32, negative ones included. |
| `Framing.FrameReadIff` | pkg/sio/connection/data_conn.go:94-133 | Reading returns the message of a frame and stops at its end if and only if no piece of the stream ends inside the length; other cuts do not matter. |
| `Framing.StreamInStepIff` | pkg/sio/connection/data_conn.go:94-133 | Frames one after another, cut into any pieces, are all read in step if and only if no length is cut. |
| `Framing.StreamRoundTrip` | pkg/sio/connection/data_conn.go:64-133 | Then the messages written come out, all of them and in order, and the stream is used up. |
| `DataConns.DataConn.WriteBytes` | pkg/sio/connection/data_conn.go:64-91 | Writes the frame of a message, compressed when that is shorter, or refuses one that is too large and writes nothing. |
| `DataConns.DataConn.ReadBytes` | pkg/sio/connection/data_conn.go:94-133 | Returns what the description of a frame read returns, and leaves the input where it does, after an error as well. |
| `DataConns.DataConn.ReadPayload` | pkg/sio/connection/data_conn.go:113-122 | The loop over short reads collects exactly the payload, or fails at the end of the input. |
| `DataConns.DataConn.Write` | pkg/sio/connection/data_conn.go:90 | Buffered writing puts the message behind what was written before, and sends nothing when it fits the buffer. |
| `DataConns.DataConn.Flush` | pkg/sio/connection/data_conn.go:194-197 | Everything written is sent, in order. |
| `DataConns.DataConn.WriteInt` | pkg/sio/connection/data_conn.go:156-159 | An integer is written as the frame of its word. |
| `DataConns.IntRoundTrip` | pkg/sio/connection/data_conn.go:156-169 | An integer written and read over a stream arrives modulo 2^32. |
| `Commands.MessageChangesExactly` | internal/types/command_handler.go:78-172 | For every member and every message: who is added, removed, renamed or promoted, by whom and with which words, and that nothing else changes; and when the room's name changes. |
| `Commands.AdminCheckIff` | internal/types/command_handler.go:174-188 | The check for commands that need an admin passes exactly the admins. |
| `Commands.AdminProvenance` | internal/types/command_handler.go:136-158 | Whoever is an admin after any sequence of logged messages and added peers was one before it, or is the end of a chain of promotions in it, each by a member that was an admin at that moment. |
| `Commands.NewAdminWasPromoted` | internal/types/command_handler.go:136-158 | One message makes a new admin only if it promotes it and comes from an admin. |
| `Commands.NoAdminNoPower` | internal/types/command_handler.go:136-172 | Without an admin to begin with no logged messages and added peers make one, and nobody is ever removed. |
| `Commands.ReplayKeepsWellFormed` | internal/types/command_handler.go:78-104 | Over any log with canonical invites, fingerprints of peers stay distinct and differ from the room's own. |
| `Commands.InviteIsHarmlessIff` | internal/types/command_handler.go:84-88 | An invite keeps every well-formed room well-formed if and only if its argument is undecodable or canonical. |
| `Commands.SomeInvitesAreHarmful` | internal/types/command_handler.go:84-88 | Two spellings of one key. |
| `Commands.RemovalKeepsTheRest` | internal/types/room.go:262-272 | Removal leaves exactly the peers with other fingerprints, in order. |
| `Commands.ConstructThenSplit` | internal/types/command_handler.go:219-227 | A constructed command is parsed as its name followed by the words of its text. |
| `Commands.RoomNameKeptIff` | internal/types/command_handler.go:106-113 | The room gets the first word of the text, and the whole text if and only if it has no space. |
| `Membership.NewcomerLearnsMembers` | internal/types/room.go:77-110 | After any life without removals: when a room adds peers while its clock advances, its own view gains just these, and an added newcomer that knows only the inviter and receives the log ends with the same members. |
| `Membership.LifeIsAnnounced` | internal/types/room.go:77-110 | In every state of such a life the log names only members, spelled canonically. |
| `Membership.ReplayMembers` | internal/types/command_handler.go:78-104 | Replaying a log without removals adds to the members exactly the keys it invites. |
| `Membership.SyncPeerListsEffect` | internal/types/room.go:102-110 | Announcing the peers leaves the room's own view unchanged and logs only invites of its members. |
| `Membership.AllPeersAnnouncedIff` | internal/types/room.go:102-110 | Every invite is logged if and only if the clock advances at every send, starting from the room's own mark; together the invites name all members. |
| `Lives.AdminOfALife` | internal/types/room.go:77-110 | The same over the life of a room, with pushes of any batches and additions of peers in between: the promotions are messages that the room has logged. |
| `Lives.NoAdminInALife` | internal/types/command_handler.go:136-172 | A room that starts without an admin never has one and never loses a member, over any life of pushes and added peers. |
| `Lives.AddPeersKeepsWellFormedIff` | internal/types/room.go:77-96 | Adding peers keeps a list without repetitions so if and only if the fingerprints that are added are distinct and nobody's in the room yet. |
| `Lives.WellFormedLifeIff` | internal/types/room.go:77-96 | Over any life with canonical invites the peers stay distinct and different from the room itself, in all states, if and only if every addition is of new and distinct fingerprints. |
| `Messages.SigIsValidAtEveryLevel` | internal/types/message.go:58-76 | A message passes the check if and only if it and every message down its reply chain has a well-sized key as sender and a signature that verifies under it. |
| `Messages.BlobIDsFromMessages` | internal/types/util.go:54-64 | The loop lists the identifiers of the blobs of the messages, in order. |
| `Messages.BlobIDsAreThoseOfMessages` | internal/types/util.go:54-64 | An identifier is listed if and only if some message refers to it. |
| `Base64Url.DecodeEncode` | internal/types/identity.go:103-109 | A fingerprint decodes to the key it was made of, for keys of any length. |
| `Base64Url.CanonicalIsStable` | internal/types/identity.go:55-66 | The fingerprint stored for a peer is its own canonical spelling, however the key was spelled. |

## Left out

- HTTP routes, websockets, the console, flags and logging: interface plumbing.
- Tor, sockets and proxies: the connection is a stream of pieces that may end; how it is made is not modelled.
- Storage of rooms and contacts on disk, and lookups of rooms, contacts and requests: no property of the protocol.
- JSON: values of the session's frames are taken to survive their encoding. A frame of another kind where a list is due leaves the list empty; what Go's decoder fills in before it finds an error is not modelled.
- zstd: a parameter, assumed lossless where a round trip is claimed.
- Ed25519: signing and verifying are parameters; forgery is not excluded, so validity is stated as verification.
- Wall clock, time zones, the 15-second wait and the bumping of a queue: clock readings and moments of passes are arbitrary.
- Memory races on unlocked reads of the log and the marks: reads are atomic snapshots.
- Replication.RunKeepsInvariant: assumes that a push is atomic, because of the copy before the lock; PushInterleaving says when that is so.
- Replication.PrefixInEveryRun: assumes that a sender's messages originate in the sender's own room only, one at a time.
- Rooms.Room.PushMessages: a mutex in a sequential object would do nothing; the locking is modelled in PushInterleaving.
- Rooms.Room.InviteCallback: does not start the queue of the new peer; queues are modelled as passes in Skipping.
- Rooms.Room.CreatePeers: the exchange with a contact is a parameter, the text it answers with or nothing.
- Rooms.Room.SyncPeerLists: walks the list of peers as it was at its start; the backing array of the slice is not modelled.
- Rooms.Room.RemovePeer: the slice is a value, so other holders of its backing array would not see the shift.
- SessionSafety.SuccessMeansPushed: the two handlers are a state machine over their writes, flushes and reads, not imperative methods, since the claims are about their interleaving.
- Framing.FrameReadIff: a reader that is out of step may go on to read anything; what it then returns is not described.
- DataConns.DataConn.Read: a read error other than the end of the input is taken as the end.
- Blobs.ReadBlocks: reads of the file fill the buffer except at its end.
- RegisterCommand and CleanCallbacks: the table of callbacks is the constant that registration at the start produces.
- Cancelling and stopping contexts, the room's Info and the message queue's start: bookkeeping without a claim.
- Skipping.Queue.Pass: whether the sync succeeds and which marks the room has afterwards are parameters; the waiting between passes is left out.
- Skipping.SkippingIsSoundIff: is about a room that received nothing from others meanwhile and picked for no other peer; OnlyLoggedMeanwhileIsMissing has neither condition.
- Rooms.Room.AddPeers: does not start the queues of the new peers.
- Rooms.Room.DropPeerAt: the slice is a value, so the shift of a shared backing array is not stated.
- SessionEnd.NeitherSideFails: makes no claim when all that does not fit is the list of blobs; RestIsHaltOrStall says how such a session ends.
- SessionFiles.FilesAfterPush: for clients whose files have at most 2^32 - 1 blocks; the count of a longer file does not survive its word. During a session nobody else writes the server's files, and writing them does not fail.
- World.WorldIsNetwork: a push is one step, as in the network; each session has a copy of the server's files as they were at its begin; peers are removed only by commands.
- A rejection is written without a flush, so it leaves only if it overflows the buffer; one frame stands for the text of all of them.
- Blobs.Receiver.ReadBlobs: a count of fewer than four bytes fails the read here; that the source panics is modelled in DaemonCrash.
- In a session of this program's own client a key that is not proved is refused, whatever its size; keys of the wrong size are modelled in AnyPeer.
- AnyPeer.OnlyValidEntries: is about one room; which room a frame names is a comparison with its identifier.
