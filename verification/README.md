# Meeting protocol, wire formats and client pipelines

A Dafny model of a video-meeting system: the message server with its closing cascade, the wire formats that server
and client share, the client's send pipeline and frame coalescer, and the avatar crop canvas.
`dafny verify dfyconfig.toml` verifies the whole project.

## What is modelled

**The server, twice.** `Meeting.dfy` is the meeting protocol as a state machine over values: connections with the
packets accepted for them, rooms, the connection-to-room map, and one event per handler run to completion.
`MeetingServer.dfy` has the server's objects with their own fields and re-entrant calls: `Connection.Close` runs the
service's close handler, that calls `Room.RemoveParticipant`, that may call `Room.CloseRoom`, and that closes further
connections. Each method is proved to turn the objects, seen through `MeetingService.View`, into what the protocol
says, and the nested calls are proved to end because the set of unclosed connections shrinks. `ServerRuns.dfy` puts
the event loop around this: `Serve` picks any handlers with any arguments, any number of times, and the objects always
show a state that a protocol run reaches. Messages that arrive in a connection's stream come out as delivery events,
one each and in order, until one closes the connection.
Code that a handler calls back into takes the service its callbacks were bound to as a parameter.

**Runs of the protocol.** `MeetingInvariants.dfy` says what should hold between handlers, `MeetingProofs.dfy` proves
it kept by each kind of step, and `MeetingRuns.dfy` draws the conclusions for whole runs: agreement of the three
redundant maps, one owner, limits, close handlers run once, knowledge of the room settings, and membership views.
Views can be spoilt by a profile packet that carries somebody else's user id, which the server accepts:
`NextViews` says exactly when, and `MeetingExamples.dfy` builds a run in which it happens. `MeetingEffects.dfy`
covers what single events do to the people in a room. When a room ends, a member whose socket has been lost already is
only unmapped: its close handler does not run then, as `OwnerCloseEnds` and `ExpireEnds` say exactly and another run of
`MeetingExamples.dfy` shows. `RoomIdRuns.dfy` keeps the room id 0, which clients read as a refusal, out of every run in
which the counter does not wrap.

**The wire.** `Buffer.dfy`, `Framing.dfy`, `Base64.dfy`, `Bytes.dfy`, `Doubles.dfy` and `Wire.dfy` model the read
buffer, the length-prefixed stream, Base64 with its wrapping 32-bit accumulator, big-endian integers, user ids as JSON
numbers and the payload layouts, with the round trips between the writing and the reading end. Packets carry the user id
in a double, so a packet survives exactly when its id fits 53 bits, and the client, whose ids are signed, needs it to be
at most 2^63 as well. `ClientReceive.dfy` is the client's stream parser and packet decoder. `ClientViews.dfy` and
`ClientPackets.dfy` join both ends: what the client reads out of the documents it is sent gives it the right partners
and settings, and every packet the server sends means something to it. The partner list carries ids in its payload but
exits and joins name theirs in the double: a member that adopts the id 2^53 + 1 while nobody else is open, and leaves
after a third one has joined, stays in the newcomer's list for good. `NextClientViews` is the exact condition and
`WideIdLingers` that run. `ClientAnswers.dfy` says what the client reads in the answers to creating and joining.
The parser's header says that its buffer guards against half frames and frames stuck together
(client/include/network/messageNet/messagecodec.h:64-65). Half frames do arrive. Of two objects in one chunk, which is
one WebSocket message, neither is decoded, and they take later messages with them: `ClientChunks.dfy` says exactly which
ways of cutting objects into chunks let them all arrive.

**The client.** `SendQueue.dfy` is the two-level bounded queue. `Handover.dfy` is the replacement of sender threads by
epoch, every load, store, queue operation and hand-over being one step of an arbitrary interleaving. A superseded
worker hands back four kinds of messages and drops the others it may be holding, although some of those
(`SendUserProfile`, `RoomSettings`, `ExitMeeting`) are control messages too: `LossesAtHandover` says exactly which
kinds can be lost. The source's comment promises that the previous round is stopped completely before a new sender
starts. `HandoverJoins.dfy` proves it for the calls this program makes: starts and waiting stops from the controller's
thread one after the other (client/src/network/messageNet/networkmanager.cpp:50-53), with a last stop once that thread
has been ended (client/src/widget/meeting/meeting_widget.cpp:646-653), and asynchronous stops from any thread at any
moment (networkmanager.cpp:16-19 and 57-61). The waits of three seconds do not carry the promise, since they may give
up; the deletes after them do, because deleting a running thread of this kind blocks until it has finished, in Qt since
6.3 (the build asks for 6.8.3). Two constructions show what the promise rests on: `EarlyDeleteOverlaps` lets one such
delete return early, `TwoStartsOverlap` calls the class from two threads, and both end with the earlier sender handing
over a frame after its successor. Neither is a run of this program. Whatever the callers do, a superseded sender hands
over at most one more frame, and does so in some continuation exactly when it already stands at the hand-over with a
message. `HandoverDelivery.dfy` is about the senders that are not superseded: left alone they send everything that
waits, in order, and every message that is ever dropped was dropped for a cause that is spelt out.
`Coalescer.dfy` is the frame coalescer as a protocol, and `RtcObserver.dfy` is the class, each of whose critical
sections, posts and emissions is proved to be one step of a protocol run on its fields: one run for the remote users and
one, with a single feed and user, for the preview. `AvatarCrop.dfy` is the crop canvas over exact reals.
Its header documents a radius of 0.36 of the shorter side; the code uses 0.38, and so does the model.

## Model

| member | source | states |
|---|---|---|
| MeetingRuns.EveryRunGood | message_server/src/service/meeting_service.cpp:69-208 | in every state any run reaches, the connection map and the rooms' participant lists agree, every listed room is unclosed with exactly one owner and within its limits, every mapped connection is not closed, cached names and avatars fit 16-bit lengths, each close handler has run once exactly when its connection is closed, open connections outside rooms were told nothing about rooms, and every open participant's last settings notice is the room's current value (an owner told none is at the default) |
| MeetingRuns.NextKeeps | message_server/src/service/meeting_service.cpp:69-208 | one event of any kind keeps all of that |
| MeetingRuns.EveryRunViews | message_server/src/meeting/room.cpp:97-120 | in every run whose profile packets do not change the id of a participant another open member can see, replaying what an open participant was sent (list, joins, exits) gives the multiset of the other participants' user ids |
| MeetingRuns.NextViews | message_server/src/meeting/room.cpp:197-228 | from right views, an event leaves them right if and only if it is not a profile packet giving a participant a different id while another member of its room is open |
| MeetingExamples.ViewsCanBreak | message_server/src/meeting/room.cpp:206-207 | a concrete run, possible under any configuration that allows a room, after which a view is wrong because a profile packet changed its sender's id |
| MeetingRuns.ProfilePacketKeeps | message_server/src/meeting/room.cpp:197-228 | a profile packet, whatever it carries, keeps everything but the views |
| MeetingRuns.OtherPacketKeeps | message_server/src/meeting/room.cpp:183-268 | every other packet from a participant keeps everything, views included |
| MeetingRuns.CreateKeeps | message_server/src/service/meeting_service.cpp:122-155 | a create request, accepted or refused, keeps everything |
| MeetingRuns.CreateShape | message_server/src/service/meeting_service.cpp:135-154 | an accepted create opens a room under an unused id with its creator as the one participant and owner, within the limits, and answers with that id |
| MeetingRuns.JoinKeeps | message_server/src/service/meeting_service.cpp:157-208 | a join request, admitted, refused or malformed, keeps everything |
| MeetingRuns.OptionsInRange | message_server/src/service/meeting_service.cpp:20-47 | whatever the payload asks for, the room's limit lies between 2 and the configured one and its duration between 1 and 1440 minutes |
| MeetingEffects.OptionsHonoured | message_server/src/service/meeting_service.cpp:26-46 | a limit and a duration within range, as the client writes them, are what the room gets; an excessive limit gets the configured one |
| ClientAnswers.CreateAnswered | message_server/src/service/meeting_service.cpp:122-155 | a well-formed request to create is answered by one packet, in which the client reads the number of the room it is in from then on, a new one of which it is the owner and only participant, or 0 if and only if the server is full |
| ClientAnswers.CreateHonours | message_server/src/service/meeting_service.cpp:20-47 | the new room's limit and minutes are what the payload asks for, or the nearest values within 2 to the configured limit and 1 to 1440; without both numbers, the configured limit and 60 minutes |
| ClientAnswers.JoinAnswered | message_server/src/service/meeting_service.cpp:157-208 | a well-formed request to join room r is answered first of all: the client reads that there is no such room if and only if there is none or it is let into a room 0, that it is full if and only if it has no space or is let into room 2^32 - 1, and a welcome if and only if it is let in and 0 < r < 2^31, the answer being r's four bytes; it is mapped and listed if and only if there is space, and otherwise nothing else changes |
| ClientAnswers.MalformedClosed | message_server/src/service/meeting_service.cpp:124-133 | a request without an id, or a join without a room number, is not answered; its connection alone is closed |
| MeetingProofs.CloseConnKeeps | message_server/src/network/connection.cpp:112-128 | closing any connection, with all that follows, keeps everything |
| MeetingProofs.OwnerCloseShape | message_server/src/meeting/room.cpp:111-144 | closing the owner's connection amounts to draining its room: the room and all its map entries gone, exactly the open members and the owner closed |
| MeetingProofs.ListIdsExact | message_server/src/meeting/room.cpp:327-337 | the partner list holds the ids of exactly the other participants, in whatever order the hash map is walked |
| MeetingProofs.WelcomeTells | message_server/src/meeting/room.cpp:327-354 | after its welcome a newcomer's replayed view and settings are right, whatever it was sent before |
| MeetingProofs.JoinedTellsMember | message_server/src/meeting/room.cpp:320-325 | an admitted join keeps each sitting member's view and settings right |
| MeetingProofs.LeftTellsOne | message_server/src/meeting/room.cpp:116-119 | a departure keeps each remaining member's view and settings right |
| MeetingProofs.ResettledTells | message_server/src/meeting/room.cpp:229-257 | a settings broadcast leaves every open member knowing the new flags |
| MeetingEffects.OwnerCloseEnds | message_server/src/meeting/room.cpp:111-144 | when the owner's connection closes, the room and its map entries are gone, no former member is open and nobody is sent anything; a member's close handler runs, once, if and only if it is the owner or its socket is still there |
| MeetingEffects.ExpireEnds | message_server/src/meeting/room.cpp:50-68 | the same for the room's timer, where a member's close handler runs if and only if its socket is still there |
| MeetingExamples.LostSocketLingers | message_server/src/meeting/room.cpp:133-143 | a concrete run after which the room is gone and a member that had lost its socket is unmapped but not closed |
| MeetingEffects.MemberCloseTells | message_server/src/meeting/room.cpp:97-120 | another member's departure removes just that member and its map entry, changes nothing else in any room, and sends exactly the remaining open members one exit notice with its id |
| MeetingEffects.OnlyOwnerSets | message_server/src/meeting/room.cpp:229-245 | a room's flags change only by a settings packet of at least four bytes from that room's owner, to the value it carries |
| MeetingEffects.PacketsStayInside | message_server/src/meeting/room.cpp:168-269 | a participant's packet never affects connections or rooms other than its own |
| MeetingEffects.NewcomerSeesProfiles | message_server/src/meeting/room.cpp:343-354 | of what an admitted join adds for the newcomer, the profile packets are exactly those of the other participants that have an id and a name or an avatar, one each, and the client reads each as the cached id, name and avatar if and only if it can read that id, that is, the id fits a double and is at most 2^63 |
| RoomIds.SequentialStops | message_server/src/meeting/room_manager.cpp:53-61 | the fallback walk ends after at most as many ids as there are rooms, at the first free one |
| RoomIds.AllocatedUnused | message_server/src/meeting/room_manager.cpp:42-61 | for every outcome of the draws the new id is in no use |
| RoomIds.AllocatedZero | message_server/src/meeting/room_manager.cpp:42-61 | the new id is 0 if and only if every draw was taken and the counter walks onto a free 0 over ids in use |
| RoomIdRuns.NextPositive | message_server/src/meeting/room_manager.cpp:42-61 | an event keeps the id 0 unused and the counter above 0 if and only if it does not open a room by walking the counter to its last value or past it |
| RoomIdRuns.EveryRunPositive | message_server/src/meeting/room_manager.cpp:30-70 | while no event of a run wraps the counter, no room of any state has the id 0 |
| RoomIds.FirstUnusedMeaning | message_server/src/meeting/room_manager.cpp:43-51 | the random phase yields the first of its draws that is free, or every draw was taken |
| ServerSteps.OneMoreClosed | message_server/src/meeting/room.cpp:135-139 | closing one more member of a shut room only closes and unmaps it; the nested callbacks find nothing left to do |
| ServerSteps.CloseRoomStages | message_server/src/meeting/room.cpp:122-144 | shutting the room, closing its members one by one and cleaning up is the protocol's closing of the room |
| MeetingServer.Connection.constructor | message_server/src/network/connection.cpp:29-33 | a new connection is open, has sent nothing and has an empty read stream |
| MeetingServer.Connection.Send | message_server/src/network/connection.cpp:149-155 | a closed connection drops the packet; otherwise it joins the queue, at most one write is in flight, and one is exactly when the queue is not empty |
| MeetingServer.Connection.OnWritten | message_server/src/network/connection.cpp:161-185 | a completed write adds the oldest packet not yet written to those written, and the next write starts if the connection is open and has one |
| MeetingServer.Connection.Close | message_server/src/network/connection.cpp:112-128 | the re-entrant close, with every callback it triggers, ends and does to all objects what the protocol's closing does; a second close does nothing |
| MeetingServer.Connection.WriteFailed | message_server/src/network/connection.cpp:172-178 | a failed write closes the connection like any other close and leaves no write in flight |
| MeetingServer.Room.constructor | message_server/src/meeting/room.cpp:32-48 | a new room's limit, duration, flags and single owner |
| MeetingServer.Room.AddParticipant | message_server/src/meeting/room.cpp:74-95 | admits exactly an open connection with a non-zero user id to an unclosed room with space, and keeps an existing entry |
| MeetingServer.Room.RemoveParticipant | message_server/src/meeting/room.cpp:97-120 | an owner's removal closes the room, anybody else's is announced, as the protocol says |
| MeetingServer.Room.CloseRoom | message_server/src/meeting/room.cpp:122-144 | closing through its copied participant list, each close calling back in, equals the protocol's closing of the room |
| MeetingServer.Room.CloseMembers | message_server/src/meeting/room.cpp:133-139 | the loop closes and unmaps exactly the members that were open |
| MeetingServer.Room.Broadcast | message_server/src/meeting/room.cpp:154-166 | every open member but the excluded one gets the packet, in whatever order the map is walked |
| MeetingServer.Room.SendTo | message_server/src/meeting/room.cpp:146-152 | only an open connection is sent to |
| MeetingServer.Room.ParseProfile | message_server/src/meeting/room.cpp:198-223 | the field-by-field update of the cached profile, partial when the payload is cut short |
| MeetingServer.Room.HandlePacket | message_server/src/meeting/room.cpp:168-269 | each kind of packet from a participant has the protocol's effect; others have none |
| MeetingServer.Room.PartnerList | message_server/src/meeting/room.cpp:327-337 | the loop writes the big-endian ids of the other participants |
| MeetingServer.Room.CachedProfiles | message_server/src/meeting/room.cpp:344-354 | the loop yields a profile packet for each other participant that has an id and a name or an avatar |
| MeetingServer.Room.NotifyUserJoined | message_server/src/meeting/room.cpp:311-355 | announcement to the others and welcome to the newcomer, as the protocol says |
| MeetingServer.RoomManager.AllocateId | message_server/src/meeting/room_manager.cpp:42-61 | draws first, then the counter, yields an unused id |
| MeetingServer.RoomManager.WalkCounter | message_server/src/meeting/room_manager.cpp:53-58 | the counter loop ends at the first free id and leaves the counter one past it, modulo 2^32 |
| MeetingServer.RoomManager.CreateRoom | message_server/src/meeting/room_manager.cpp:30-70 | refuses exactly a closed owner or a full server; otherwise adds one new room and touches no other |
| MeetingServer.RoomManager.JoinRoom | message_server/src/meeting/room_manager.cpp:72-93 | the four outcomes, each exactly when it applies, and the one participant a success adds |
| MeetingServer.MeetingService.OnConnectionClose | message_server/src/service/meeting_service.cpp:93-103 | drops the connection's map entry and takes it out of its room |
| MeetingServer.MeetingService.CleanupRoom | message_server/src/service/meeting_service.cpp:218-228 | erasing while iterating removes exactly a closed room's map entries, then the room |
| MeetingServer.MeetingService.HandleCreate | message_server/src/service/meeting_service.cpp:122-155 | the create handler does what the protocol's create event does, for draws within range |
| MeetingServer.MeetingService.HandleJoin | message_server/src/service/meeting_service.cpp:157-208 | the join handler does what the protocol's join event does, for some iteration order of the participants |
| MeetingServer.MeetingService.HandleLobby | message_server/src/service/meeting_service.cpp:105-120 | creates, joins, or closes on anything else |
| MeetingServer.MeetingService.DeliverOne | message_server/src/service/meeting_service.cpp:71-90 | one decoded message is one enabled delivery event |
| MeetingServer.MeetingService.OnConnectionRead | message_server/src/service/meeting_service.cpp:69-91 | the read loop ends; its effect is a protocol run of deliveries for exactly the next messages of the stream, in order, with one refusal more when it meets an empty message, and messages are left over only on a closed connection |
| MeetingServer.MeetingService.OnNewConnection | message_server/src/service/meeting_service.cpp:60-67 | accepting adds one open connection under a new id |
| ServerRuns.Server.OnMessage | message_server/src/network/connection.cpp:91-105 | an arriving message joins the stream and every complete message is handled, in order; if an empty message comes next, the connection is closed after all messages before it; the objects still show a state reached by a protocol run, all connections stay registered, and only new rooms join the server's objects |
| ServerRuns.Server.OnPeerClosed | message_server/src/network/connection.cpp:81-88 | so after a failed read or handshake, which closes this connection |
| ServerRuns.Server.OnWritten | message_server/src/network/connection.cpp:179-183 | so after a completed write, which changes no protocol state |
| ServerRuns.Server.OnTimer | message_server/src/meeting/room.cpp:57-65 | so after the timer of any room ever made, which does nothing once that room is closed |
| ServerRuns.Server.OnAccept | message_server/src/service/meeting_service.cpp:60-67 | so after a connection is accepted, which joins the others under a new id |
| ServerRuns.Server.Serve | message_server/src/service/meeting_service.cpp:69-208 | any number of handlers, each picked with its arguments at will, leave the objects in a state that a protocol run reaches and every stream in order |
| ServerRuns.Run | message_server/src/service/meeting_service.cpp:50-58 | so from the server's start, under every valid configuration; then everything proved of reachable states holds of the objects |
| ServerRuns.Server.LiveIsGood | message_server/src/service/meeting_service.cpp:69-208 | whenever no handler is running, what holds in all reachable protocol states holds of the objects |
| ByteBuffer.Buffer.Write | message_server/src/network/buffer.cpp:118-123 | the written bytes join the end of the unread region, with compaction or growth as needed |
| ByteBuffer.Buffer.ExpandIfNeed | message_server/src/network/buffer.cpp:104-110 | makes room without changing the unread region |
| ByteBuffer.Buffer.Normalize | message_server/src/network/buffer.cpp:94-102 | the overlapping move to the front leaves the unread region unchanged |
| ByteBuffer.Buffer.MoveReadPos | message_server/src/network/buffer.cpp:72-75 | consuming removes exactly the first bytes of the unread region |
| Framing.FrameRoundTrip | message_server/src/network/connection.cpp:95-101 | a framed message is cut back to itself, leaving what follows, if and only if its size is between 1 and 2^32 - 1 |
| Framing.TryDecode | message_server/src/protocol/codec.cpp:160-208 | an incomplete head changes nothing, a zero length is invalid and stays, a complete frame yields what its own body parses to and consumes exactly its own bytes |
| Framing.MessageReader.Append | message_server/src/network/connection.cpp:91-101 | a message joins the stream behind its length |
| Framing.MessageReader.Next | message_server/src/protocol/codec.cpp:160-208 | hands over the next appended message, in order and unaltered, nothing only when all have been handed over, and refuses for good at an empty one |
| Framing.MessageReader.Drain | message_server/src/service/meeting_service.cpp:69-91 | draining hands over every appended message in order and empties the buffer |
| Base64.RoundTrip | message_server/src/protocol/codec.cpp:29-90 | decoding an encoding gives back the bytes, for every byte sequence |
| Base64.NoiseIgnored | message_server/src/protocol/codec.cpp:75-81 | inserting characters outside the alphabet other than '=' anywhere does not change the decoded bytes |
| Base64.DecodeMeaning | message_server/src/protocol/codec.cpp:72-88 | the decoded bytes are the base-64 number of the letters before the text's first '=', cut to whole bytes; the accumulator's wrap-around never matters |
| Base64.DoneMeaning | message_server/src/protocol/codec.cpp:73-75 | decoding stops early if and only if the text has a '=' |
| Base64.LetterTable | message_server/src/protocol/codec.cpp:30-31 | the letters of the specification are the entries of the source's table |
| Base64.Base64Encode | message_server/src/protocol/codec.cpp:29-60 | the encoding loop computes the specified encoding |
| Base64.Base64Decode | message_server/src/protocol/codec.cpp:62-90 | the table-driven loop with its 32-bit accumulator computes the specified decoding |
| Bytes.FromToBe | message_server/src/protocol/codec.cpp:14-26 | big-endian writing then reading gives back the number |
| Bytes.ToFromBe | message_server/src/protocol/codec.cpp:14-26 | big-endian reading then writing gives back the bytes |
| Bytes.WriteBe64 | message_server/src/meeting/room.cpp:22-26 | the shifting loop writes the eight big-endian bytes |
| Bytes.ReadBe64 | message_server/src/meeting/room.cpp:14-20 | the shifting loop reads them back |
| Bytes.ReadWritten | message_server/src/meeting/room.cpp:14-26 | reading inverts writing for every 64-bit value |
| Wire.IdListRoundTrip | message_server/src/meeting/room.cpp:329-337 | the client's stride-8 reading of the server's id list gives back the ids, ignoring a trailing partial one |
| Wire.DecodePartnerJoin2 | client/src/network/messageNet/messagecodec.cpp:46-53 | the client's loop returns those ids as signed 64-bit numbers |
| Wire.ProfileRoundTrip | client/src/network/messageNet/messagecodec.cpp:63-111 | a profile payload decodes to the id, name and avatar it was written from if and only if both lengths fit 16 bits |
| Wire.ProfileCached | message_server/src/meeting/room.cpp:198-223 | the server caches exactly the profile a client wrote, whatever was cached before |
| Wire.TruncatedProfile | message_server/src/meeting/room.cpp:198-223 | a profile payload cut short changes nothing until id and name are whole, and not the avatar until it is |
| Wire.PacketRoundTrip | message_server/src/protocol/codec.cpp:187-225 | a packet put into a document, text in the clear, other payloads in Base64 and the user id as a double, is read back unchanged if and only if the user id fits a double's 53 significant bits |
| Wire.FirstRounded | message_server/src/protocol/codec.cpp:193-213 | the smallest id that is changed is 2^53 + 1, which is read back as 2^53 |
| Wire.SecondTripExact | message_server/src/protocol/codec.cpp:187-225 | an id is rounded at most once: what has made one trip makes every further one unchanged, if rounding stayed within 64 bits |
| ClientReceive.ProfileRead | message_server/src/meeting/room.cpp:343-354 | a cached profile reaches the client intact through its packet's document if and only if both lengths fit 16 bits and the client can read its id |
| Doubles.NearestDouble | message_server/src/protocol/codec.cpp:213 | the conversion of an id is to the nearest double and changes nothing if and only if the id is a multiple of the doubles' spacing there |
| Doubles.ClientReceivedExact | client/src/network/messageNet/messagecodec.cpp:466-467 | the client gets an id as it is if and only if it fits a double and is at most 2^63 |
| Wire.JoinReplyRead | client/src/widget/meeting/meeting_widget.cpp:1089-1098 | the code that client/src/network/messageNet/messagecodec.cpp:36-44 reads is taken for success if and only if the room number lies between 1 and 2^31 - 1, and both refusals are taken as meant |
| ClientReceive.WireStreamParser.Feed | client/src/network/messageNet/messagecodec.cpp:487-532 | one chunk's effect on the buffer and the message it yields, with overflow, blanks, foreign text, unfinished and broken objects each handled as specified |
| ClientReceive.WholeFramesArrive | client/src/network/messageNet/messagecodec.cpp:487-532 | chunks that are whole objects yield their own messages, in order, and leave nothing behind |
| ClientReceive.SplitFrameArrives | client/src/network/messageNet/messagecodec.cpp:513-529 | an object in pieces, unfinished until the last one, is kept and then yields its message once |
| ClientReceive.EveryBufferKept | client/src/network/messageNet/messagecodec.cpp:501-523 | whatever has come in, all that is kept is blanks, or at most 1 MiB that starts with a brace and does not parse |
| ClientReceive.OverflowForgets | client/src/network/messageNet/messagecodec.cpp:493-498 | a chunk that would take the buffer over 4 MiB is read as if it were the first |
| ClientChunks.AllArrive | client/src/network/messageNet/messagecodec.cpp:487-532 | objects cut into chunks of any sizes all arrive, in order and with nothing left behind, if no chunk holds bytes of two of them |
| ClientChunks.ObjectsArrive | client/src/network/messageNet/messagecodec.cpp:487-532 | up to 1 MiB of objects arrive so if and only if no chunk holds bytes of two of them |
| ClientChunks.StuckFramesSwallow | client/src/network/messageNet/messagecodec.cpp:487-532 | two objects in one chunk are never decoded, and nor is anything that follows, whole or not, up to and including the chunk that takes the buffer over 1 MiB; then it is empty |
| ClientViews.ClientReplays | client/src/network/messageNet/messagecodec.cpp:410-447 | as long as joins and exits carry ids a client can read, replaying what the client reads, documents included, agrees user by user with replaying the packets |
| ClientViews.EveryRunClientViews | client/src/network/messageNet/messagecodec.cpp:410-447 | in every run whose profiles keep known ids and that announces no join or exit under an id no client can read, what the client of each open participant reads leaves it with exactly the other participants' ids |
| ClientViews.NextClientViews | message_server/src/meeting/room.cpp:97-120 | from right views, an event leaves the clients' views right if and only if it neither gives a known participant another id nor announces, to an open member, the join or exit of one whose id no client can read |
| ClientViews.FittingRunClientViews | client/src/network/messageNet/messagecodec.cpp:466-467 | the clients' views are right in every run whose packets and profiles bring only ids that clients can read and keep known ones |
| MeetingExamples.WideIdLingers | message_server/src/meeting/room.cpp:206-207 | a concrete run, possible where a room takes three, that keeps known ids and all packets' views right and leaves a client with a partner that is gone |
| ClientPackets.EveryRunDecodable | client/src/network/messageNet/messagecodec.cpp:410-447 | in every run, the client reads every packet sent to it as what the packet says, by its kind: the room number or verdict of an answer, the listed ids, who joined, left or closed a camera, the words of a text, the flags, a profile; and passes over none but a profile that does not parse |
| ClientPackets.EveryRunClientSettings | client/src/network/messageNet/messagecodec.cpp:410-447 | in every run, the last settings notice an open participant's client reads carries its room's current flags; an owner that read none is at the default |
| ClientPackets.TextRead | message_server/src/meeting/room.cpp:183-189 | a text yields one message at the client of each other open participant and none elsewhere, in its own words, and under the sender's id if and only if a client can read it |
| ClientPackets.CameraRead | message_server/src/meeting/room.cpp:190-196 | so with the notice that a camera was closed, which changes nothing else |
| ClientPackets.ProfileRelayed | message_server/src/meeting/room.cpp:197-228 | a whole profile becomes its sender's cached one, and the client of each other open member reads just that if and only if it can read its id |
| MeetingEffects.SettingsReach | message_server/src/meeting/room.cpp:229-257 | an owner's four bytes of flags become the room's, and every open member's client reads them, the owner's included; anybody else's change nothing |
| SendQueue.PushBounded | client/src/network/messageNet/message.cpp:7-14 | the eviction loop keeps the newest messages |
| SendQueue.PriorityMessageQueue.Push | client/src/network/messageNet/message.cpp:26-45 | with the lock the message joins its own bucket, at most 1500 of whose newest messages stay; without it nothing changes |
| SendQueue.PriorityMessageQueue.Pop | client/src/network/messageNet/message.cpp:47-70 | returns the oldest control message, else the oldest text, else nothing; a text only when no control message is queued |
| SendQueue.PriorityMessageQueue.Clear | client/src/network/messageNet/message.cpp:72-86 | empties both buckets if one of eight tries gets the lock, else changes nothing |
| SendQueue.PushKeeps | client/src/network/messageNet/message.cpp:7-14 | each bucket stays a suffix of its own push history and pops stay in order |
| SendQueue.BurstKeepsNewest | client/src/network/messageNet/message.cpp:7-45 | after any burst each bucket holds the newest 1500 of its own messages, in order |
| SendQueue.DrainOrder | client/src/network/messageNet/message.cpp:59-68 | draining yields all control messages, then all texts, each in order |
| SendQueue.TextWaits | client/include/network/messageNet/message.h:86-219 | whichever is pushed first, a text comes out behind a message of any of the other six kinds |
| Handover.EveryRunConserves | client/src/network/messageNet/messagehub.cpp:14-147 | under every interleaving each message is queued, held by a worker, handed to the connection or dropped exactly as many times as it was accepted |
| Handover.OnePlace | client/src/network/messageNet/messagehub.cpp:88-147 | a message accepted once is in exactly one of those places, so it is never sent twice |
| Handover.EveryRunKeepsProtected | client/src/network/messageNet/messagehub.cpp:97-113 | no create, join, close-camera or text message is ever dropped because its worker was superseded |
| Handover.LossesAtHandover | client/src/network/messageNet/messagehub.cpp:97-113 | there is a run that loses a message of a kind at handover if and only if the kind is exit, user profile or room settings |
| Handover.OneCurrentWorker | client/src/network/messageNet/messagehub.cpp:149-187 | at most one worker carries the current epoch, whether or not timed joins waited |
| Handover.EveryRunEpochs | client/src/network/messageNet/messagehub.cpp:149-166 | epochs claimed by workers and starting calls are distinct and never ahead of the current one |
| Handover.SupersededSendsOnce | client/src/network/messageNet/messagehub.cpp:93-142 | in any continuation a superseded worker hands over at most one more frame, and none unless it already stood past its second look at the epoch with a message |
| Handover.SupersededSends | client/src/network/messageNet/messagehub.cpp:93-142 | there is a continuation in which it hands one over if and only if it stands there with a message |
| Handover.SupersededExits | client/src/network/messageNet/messagehub.cpp:93-115 | it has exited after three more steps of its own |
| HandoverDelivery.Undisturbed | client/src/network/messageNet/messagehub.cpp:93-142 | whatever is queued, a current sender left alone with a connection hands over the first k messages waiting in k rounds of its loop, in order, control before text, and drops nothing |
| HandoverDelivery.BurstSent | client/src/network/messageNet/messagehub.cpp:14-142 | up to 1500 messages pushed to such a sender with an empty queue all go out once, first those that are no texts, then the texts, in the order pushed |
| HandoverDelivery.EveryDropExplained | client/src/network/messageNet/messagehub.cpp:93-142 | in every run each dropped message was dropped by a step that explains it: at the hand-over without a connection, or with one but a failed encoding; by a superseded worker, of one of three kinds; at a push that missed the lock, or from the front of a full bucket; or by a clear |
| HandoverDelivery.EverySentExplained | client/src/network/messageNet/messagehub.cpp:112-142 | in every run each frame was sent by a step of its worker at the hand-over, with a connection, as the message the worker held |
| HandoverDelivery.ClearEmpties | client/src/network/messageNet/message.cpp:72-86 | a clear that gets the lock drops exactly what waits, in order, and one that does not changes nothing |
| HandoverDelivery.StartSends | client/src/network/messageNet/messagehub.cpp:155-166 | a start with nobody to wait for ends with a sender of the current epoch at the top of its loop |
| HandoverJoins.PreviousStoppedFirst | client/src/network/messageNet/messagehub.cpp:149-219 | with starts and waiting stops called one after the other and asynchronous stops at any time, in every interleaving all earlier senders have exited when a new one is created, and no two senders ever run at once |
| HandoverJoins.EarlyDeleteOverlaps | client/src/network/messageNet/messagehub.cpp:179-186 | a run up to a start held by its delete after the wait gave up; from there, were the delete to return, a superseded sender would hand over its frame after its successor's |
| HandoverJoins.TwoStartsOverlap | client/src/network/messageNet/messagehub.cpp:155-187 | a concrete run of two starts at once, which this program does not make, that ends the same way |
| Coalescer.EveryRunGood | client/src/widget/meeting/meeting_rtc_observer.cpp:10-199 | the invariants below hold in every interleaving of producers, drains, clears, resets, arrivals and departures |
| Coalescer.NoLostWakeup | client/src/widget/meeting/meeting_rtc_observer.cpp:80-125 | a pending frame has a drain event queued, or a producer still to schedule or to post one |
| Coalescer.OneDrainEvent | client/src/widget/meeting/meeting_rtc_observer.cpp:100-110 | beyond one drain event, queued or being posted, each further one is due to a clear |
| Coalescer.EmittedOnce | client/src/widget/meeting/meeting_rtc_observer.cpp:112-125 | no frame is emitted twice, and each user's frames are emitted in the order stored |
| Coalescer.Quiescent | client/src/widget/meeting/meeting_rtc_observer.cpp:80-125 | when no producer, event or drain is left, nothing is pending and each user's latest frame was emitted unless a clear or departure took it |
| Coalescer.LatestShown | client/src/widget/meeting/meeting_rtc_observer.cpp:80-125 | without departures and clears it was emitted |
| Coalescer.LeftTakes | client/src/widget/meeting/meeting_rtc_observer.cpp:184-196 | a departure takes the feed's mapping and its user's pending frame, which counts as discarded, and leaves everything else as it is; one of an unmapped feed does nothing |
| Coalescer.DepartedUnseen | client/src/widget/meeting/meeting_rtc_observer.cpp:184-196 | in every continuation of a departure, an earlier frame of the user is emitted only if the drain then under way had taken it |
| Coalescer.ClearTakes | client/src/widget/meeting/meeting_rtc_observer.cpp:10-29 | a clear or a reset discards what is pending and withdraws the drain asked for; only a reset forgets the feeds |
| Coalescer.GoneForGood | client/src/widget/meeting/meeting_rtc_observer.cpp:112-125 | the same of any state in which the user has nothing pending, so also after a clear |
| RtcObserver.MeetingRtcObserver.StorePreview | client/src/widget/meeting/meeting_rtc_observer.cpp:45-50 | the callback's first critical section replaces the pending frame and is the protocol's store |
| RtcObserver.MeetingRtcObserver.SchedulePreview | client/src/widget/meeting/meeting_rtc_observer.cpp:54-61 | the second one is the protocol's schedule, and a post follows exactly when none was asked for |
| RtcObserver.MeetingRtcObserver.TakePreview | client/src/widget/meeting/meeting_rtc_observer.cpp:66-73 | the drain's critical section is the protocol's drain and empties the slot |
| RtcObserver.MeetingRtcObserver.EmitPreview | client/src/widget/meeting/meeting_rtc_observer.cpp:74-78 | the signal is the protocol's emission of what was drained, if anything was |
| RtcObserver.MeetingRtcObserver.ClearPreview | client/src/widget/meeting/meeting_rtc_observer.cpp:25-29 | clearing is the protocol's clear |
| RtcObserver.MeetingRtcObserver.PreviewWakes | client/src/widget/meeting/meeting_rtc_observer.cpp:37-64 | a pending preview frame has a drain queued, or a callback still to ask for one |
| RtcObserver.MeetingRtcObserver.PreviewInOrder | client/src/widget/meeting/meeting_rtc_observer.cpp:66-78 | preview frames are shown in the order stored, none twice |
| RtcObserver.MeetingRtcObserver.PreviewSettles | client/src/widget/meeting/meeting_rtc_observer.cpp:25-78 | once callbacks and event queue are at rest, the last frame stored was shown unless a clear took it, and none is pending |
| RtcObserver.MeetingRtcObserver.StoreRemote | client/src/widget/meeting/meeting_rtc_observer.cpp:80-97 | a valid frame of a mapped feed replaces its user's pending one, as the protocol's store; a feed without a user ends the callback |
| RtcObserver.MeetingRtcObserver.ScheduleRemote | client/src/widget/meeting/meeting_rtc_observer.cpp:100-107 | the second section is the protocol's schedule, and a post follows exactly when none was asked for |
| RtcObserver.MeetingRtcObserver.TakeRemote | client/src/widget/meeting/meeting_rtc_observer.cpp:112-118 | the swap is the protocol's drain |
| RtcObserver.MeetingRtcObserver.EmitRemote | client/src/widget/meeting/meeting_rtc_observer.cpp:119-124 | the loop emits exactly one frame for each user that had one, in some order, and leaves nothing to drain |
| RtcObserver.MeetingRtcObserver.OnRemoteUserJoined | client/src/widget/meeting/meeting_rtc_observer.cpp:165-180 | maps exactly this feed, as the protocol's join, when the display name is a non-zero number |
| RtcObserver.MeetingRtcObserver.OnRemoteUserLeft | client/src/widget/meeting/meeting_rtc_observer.cpp:184-196 | takes away exactly the feed's mapping and its user's pending frame, as the protocol's departure |
| RtcObserver.MeetingRtcObserver.Reset | client/src/widget/meeting/meeting_rtc_observer.cpp:10-23 | a clear of the preview run and a reset of the remote one |
| RtcObserver.MeetingRtcObserver.RemoteWakes | client/src/widget/meeting/meeting_rtc_observer.cpp:80-110 | a pending remote frame has a drain queued, or a callback still to ask for one |
| RtcObserver.MeetingRtcObserver.RemoteUsersReal | client/src/widget/meeting/meeting_rtc_observer.cpp:80-182 | no frame ever waits under user 0 and no feed is mapped to it |
| AvatarCrop.ActionKeeps | client/src/widget/main_window/avatar_crop_canvas.cpp:25-253 | loading, dragging, zooming and resizing keep the scale at or above the covering one and the image over the whole crop square |
| AvatarCrop.Run | client/src/widget/main_window/avatar_crop_canvas.cpp:25-253 | so in every state a sequence of such actions reaches |
| AvatarCrop.RunSettled | client/src/widget/main_window/avatar_crop_canvas.cpp:63-92 | in every such state clamping has nothing left to correct |
| AvatarCrop.LoadCenters | client/src/widget/main_window/avatar_crop_canvas.cpp:47-61 | a loaded image is shown at the covering scale with its middle in the middle of the widget |
| AvatarCrop.DragMoves | client/src/widget/main_window/avatar_crop_canvas.cpp:201-206 | a drag carries what is seen at any point along by its distance if and only if the image may rest there, covering on an axis with room and in the middle on one without; otherwise the image goes to the nearest such place |
| AvatarCrop.ZoomScales | client/src/widget/main_window/avatar_crop_canvas.cpp:99-102 | a zoom gives the scale times the factor if and only if that is within the limits, and otherwise the nearest scale within them |
| AvatarCrop.ResizeMoves | client/src/widget/main_window/avatar_crop_canvas.cpp:243-253 | a resize keeps the scale unless it became too small to cover, which then becomes the covering one, and moves the image no further than it must |
| AvatarCrop.ScaleCovers | client/src/widget/main_window/avatar_crop_canvas.cpp:39-45 | the covering scale is exactly the least one at which the drawn image is as wide and high as the crop square |
| AvatarCrop.ClampAxisNearest | client/src/widget/main_window/avatar_crop_canvas.cpp:77-91 | where there is room, clamping moves the image to the nearest covering position, and not at all if and only if it already covers |
| AvatarCrop.SourceInside | client/src/widget/main_window/avatar_crop_canvas.cpp:120-128 | the exported source square lies wholly inside the image |
| AvatarCrop.SourceCentered | client/src/widget/main_window/avatar_crop_canvas.cpp:120-128 | it is centred on the image point shown in the middle of the widget |
| AvatarCrop.SourceCorners | client/src/widget/main_window/avatar_crop_canvas.cpp:120-128 | its corners are the image points at the corners of the crop square |
| AvatarCrop.AnchorFixed | client/src/widget/main_window/avatar_crop_canvas.cpp:94-113 | when the scales are not fuzzily equal, the image point under the anchor stays put if and only if clamping has nothing to correct; when they are, if and only if the clamped offset happens to be the rescaled one |
| AvatarCrop.FuzzyZoomSlips | client/src/widget/main_window/avatar_crop_canvas.cpp:103-107 | with fuzzily equal scales and nothing to clamp, the point stays put if and only if the scale did not change or the anchor is the image's corner |
| AvatarCrop.ZoomCanSlip | client/src/widget/main_window/avatar_crop_canvas.cpp:103-107 | after a concrete load and zoom from the initial canvas, one wheel step moves the point under the mouse |
| AvatarCrop.ZoomLimit | client/src/widget/main_window/avatar_crop_canvas.cpp:99-102 | a zoom never leaves the scale above six times the covering one; a resize does exactly when the old scale is above that of the new size |
| AvatarCrop.ZoomUndone | client/src/widget/main_window/avatar_crop_canvas.cpp:94-113 | zooming there and back about one anchor restores the canvas, if neither limits nor clamping interfered |
| AvatarCrop.AvatarCropCanvas.SetImage | client/src/widget/main_window/avatar_crop_canvas.cpp:25-29 | the widget's handler is the load action |
| AvatarCrop.AvatarCropCanvas.ClampOffset | client/src/widget/main_window/avatar_crop_canvas.cpp:63-92 | the in-place clamping is the specified one on both axes |
| AvatarCrop.AvatarCropCanvas.ZoomAt | client/src/widget/main_window/avatar_crop_canvas.cpp:94-113 | the handler is the zoom action |
| AvatarCrop.AvatarCropCanvas.MouseMove | client/src/widget/main_window/avatar_crop_canvas.cpp:201-211 | while dragging, what was under the mouse at its last position is under it again if and only if the image may rest there; otherwise the image goes to the nearest place; when not dragging nothing happens |
| AvatarCrop.AvatarCropCanvas.ResizeEvent | client/src/widget/main_window/avatar_crop_canvas.cpp:243-253 | the handler is the resize action |
| AvatarCrop.AvatarCropCanvas.CropSource | client/src/widget/main_window/avatar_crop_canvas.cpp:115-128 | nothing exactly without an image or for a size that is not positive, otherwise the square of image points under the crop square, inside the image and centred |

## Left out

- Wire.PacketRoundTrip: leaves out the JSON text itself, in which numbers are taken to be written and read exactly; parsing is an unknown partial function from bytes to documents, and the exceptions the JSON library throws for fields of the wrong type or text that is not UTF-8 are not modelled.
- MeetingRuns.EveryRunGood: assumes what the code assumes of its configuration, a per-room limit of at least two in its low 32 bits and no more rooms than there are room ids.
- ServerRuns.Server.OnTimer: the timer itself and its cancellation are left out, so it may fire at any moment, also after its room has closed, when nothing happens.
- MeetingServer.MeetingService.HandleCreate: the close callback that the source installs on a room within the same handler is called unconditionally.
- ServerRuns.Server.OnAccept: the handshake, sockets and the Asio event loop appear only as the events they cause; the connection's destructor is left out, and accepted connections stay in the model for good.
- The order in which hash maps are walked is an arbitrary order, as the source's own is unspecified.
- ByteBuffer.Buffer.Write: sizes are unbounded, so size_t overflow is not modelled; resize, move and the copy and move constructors are left out because the server path does not use them.
- Handover: the interruption request that deleting a running thread also makes is left out, as the sender never looks at it; a 64-bit epoch that would wrap is a natural number, the check of the connection pointer and the hand-over are one step, and messages handed back go to the end of their queue, whose order relative to others is not claimed.
- Doubles.CastU64: a number outside the 64-bit ranges has no defined cast in C++; for it the model takes 2^63 at the server, and at the client -2^63, as x86 gives.
- Coalescer: the scheduling of Qt's event queue, so when a queued drain runs is arbitrary.
- RtcObserver.MeetingRtcObserver.StorePreview: frames carry numbers in the order they are stored instead of pictures, and the one-time logging of the size is left out.
- RtcObserver.MeetingRtcObserver.OnRemoteUserJoined: reading the display name as a number is a parameter.
- AvatarCrop: painting and scaling of pixels; arithmetic is exact, where the source uses doubles.
- ClientReceive.WireStreamParser.Feed: the JSON parser is an unknown function; Qt's own Base64 decoder is taken to undo the server's encoder.
- The client's encoders other than the profile's, its widgets, recording, login, storage and the HTTP data server are plumbing over libraries that are not part of this model.
