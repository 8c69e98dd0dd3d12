/** Value-level pieces of the closing cascade: what the re-entrant code has done part-way. */
module ServerSteps {
  import opened Bytes
  import opened Wire
  import opened Meeting
  import Framing

  /** close_room has marked the room closed and taken its participants away. */
  ghost function Shut(w: World, r: RoomId): World
    requires r in w.rooms
  {
    w.(rooms := w.rooms[r := w.rooms[r].(closed := true, participants := map[])])
  }

  /** The open connections among those done so far are closed and unmapped. */
  ghost function MembersClosed(w: World, done: set<ConnId>): World {
    w.(conns := map c | c in w.conns :: if c in done && w.conns[c].Open() then w.conns[c].MarkClosed() else w.conns[c],
       connRoom := map c | c in w.connRoom && !(c in done && c in w.conns && w.conns[c].Open()) :: w.connRoom[c])
  }

  ghost function WithoutEntries(m: map<ConnId, RoomId>, r: RoomId): map<ConnId, RoomId> {
    map c | c in m && m[c] != r :: m[c]
  }

  /** cleanup_room drops the room and whatever entries it still has. */
  ghost function Cleaned(w: World, r: RoomId): World {
    w.(connRoom := WithoutEntries(w.connRoom, r), rooms := w.rooms - {r})
  }

  /** Whatever map entries these connections have lead to this room. */
  ghost predicate OwnEntries(w: World, members: set<ConnId>, r: RoomId) {
    forall c :: c in members && c in w.connRoom ==> w.connRoom[c] == r
  }

  lemma ClosedStays(w: World, c: ConnId)
    requires c in w.conns
    ensures c in CloseConn(w, c).conns && CloseConn(w, c).conns[c].closed
  {
  }

  lemma AlreadyClosed(w: World, r: RoomId)
    requires r in w.rooms && w.rooms[r].closed
    ensures CloseRoom(w, r) == w
  {
  }

  lemma NoneClosed(w: World)
    ensures MembersClosed(w, {}) == w
  {
  }

  /** Closing one more member of a shut room only closes and unmaps it: the nested callbacks find nothing to do. */
  lemma OneMoreClosed(w: World, r: RoomId, done: set<ConnId>, c: ConnId)
    requires r in w.rooms && w.rooms[r].closed && c in w.conns && w.conns[c].Open() && c !in done
    requires c in w.connRoom ==> w.connRoom[c] == r
    ensures CloseConn(MembersClosed(w, done), c) == MembersClosed(w, done + {c})
  {
    var got, want := CloseConn(MembersClosed(w, done), c), MembersClosed(w, done + {c});
    assert got.conns == want.conns;
    assert got.connRoom == want.connRoom;
  }

  lemma SkippedClosed(w: World, done: set<ConnId>, c: ConnId)
    requires c in w.conns && !w.conns[c].Open()
    ensures MembersClosed(w, done) == MembersClosed(w, done + {c})
  {
    assert MembersClosed(w, done).conns == MembersClosed(w, done + {c}).conns;
    assert MembersClosed(w, done).connRoom == MembersClosed(w, done + {c}).connRoom;
  }

  /** Shutting, closing every member and cleaning up is closing the room. */
  lemma CloseRoomStages(w: World, r: RoomId)
    requires r in w.rooms && !w.rooms[r].closed
    requires forall c :: c in w.rooms[r].participants && c in w.connRoom ==> w.connRoom[c] == r
    ensures Cleaned(MembersClosed(Shut(w, r), w.rooms[r].participants.Keys), r) == CloseRoom(w, r)
  {
    var got, want := Cleaned(MembersClosed(Shut(w, r), w.rooms[r].participants.Keys), r), CloseRoom(w, r);
    assert got.conns == want.conns;
    assert got.rooms == want.rooms;
    assert got.connRoom == want.connRoom;
  }

  lemma BroadcastNone(conns: map<ConnId, Conn>, exclude: ConnId, packet: Packet)
    ensures Broadcast(conns, {}, exclude, packet) == conns
  {
  }

  lemma BroadcastOneMore(conns: map<ConnId, Conn>, done: set<ConnId>, exclude: ConnId, packet: Packet, c: ConnId)
    requires c !in done && c in conns
    ensures Broadcast(conns, done + {c}, exclude, packet)
            == if c != exclude && conns[c].Open()
               then Broadcast(conns, done, exclude, packet)[c := conns[c].Receive([packet])]
               else Broadcast(conns, done, exclude, packet)
    ensures Broadcast(conns, done, exclude, packet)[c] == conns[c]
  {
  }

  // A participant's packet, kind by kind

  /** The room holds a participant under this connection and is not closed. */
  ghost predicate Holds(w: World, r: RoomId, c: ConnId) {
    r in w.rooms && !w.rooms[r].closed && c in w.rooms[r].participants
  }

  ghost function Relayed(w: World, r: RoomId, exclude: ConnId, packet: Packet): World
    requires r in w.rooms
  {
    w.(conns := Broadcast(w.conns, w.rooms[r].participants.Keys, exclude, packet))
  }

  /** A participant's cached profile is replaced. */
  ghost function Reprofiled(w: World, r: RoomId, c: ConnId, profile: Profile): World
    requires r in w.rooms && c in w.rooms[r].participants
  {
    var room := w.rooms[r];
    w.(rooms := w.rooms[r := room.(participants := room.participants[c := room.participants[c].(profile := profile)])])
  }

  ghost function WithSettings(w: World, r: RoomId, flags: u32): World
    requires r in w.rooms
  {
    w.(rooms := w.rooms[r := w.rooms[r].(settings := flags)])
  }

  lemma TextStep(w: World, r: RoomId, c: ConnId, packet: Packet)
    requires Holds(w, r, c) && packet.kind == TextSend
    ensures HandlePacket(w, r, c, packet)
            == Relayed(w, r, c, Packet(TextRecv, w.rooms[r].participants[c].profile.userId, packet.payload))
  {
  }

  lemma CameraStep(w: World, r: RoomId, c: ConnId, packet: Packet)
    requires Holds(w, r, c) && packet.kind == CloseCamera
    ensures HandlePacket(w, r, c, packet)
            == Relayed(w, r, c, Packet(CloseCamera, w.rooms[r].participants[c].profile.userId, []))
  {
  }

  lemma ProfileStep(w: World, r: RoomId, c: ConnId, packet: Packet)
    requires Holds(w, r, c) && packet.kind == UserProfile
    ensures var profile := ApplyProfile(w.rooms[r].participants[c].profile, packet.payload);
            HandlePacket(w, r, c, packet)
            == Relayed(Reprofiled(w, r, c, profile), r, c, packet.(userId := profile.userId))
  {
    var parts := w.rooms[r].participants;
    var profile := ApplyProfile(parts[c].profile, packet.payload);
    assert parts[c := parts[c].(profile := profile)].Keys == parts.Keys;
  }

  lemma SettingsStep(w: World, r: RoomId, c: ConnId, packet: Packet)
    requires Holds(w, r, c) && packet.kind == RoomSettings
    ensures var p := w.rooms[r].participants[c];
            var flags := if |packet.payload| >= 4 then ReadU32(packet.payload) else w.rooms[r].settings;
            HandlePacket(w, r, c, packet)
            == if p.isOwner
               then Relayed(WithSettings(w, r, flags), r, 0,
                            Packet(RoomSettingsNotify, p.profile.userId, ToBe(4, flags)))
               else w
  {
  }

  lemma IgnoredStep(w: World, r: RoomId, c: ConnId, packet: Packet)
    requires Holds(w, r, c)
    requires packet.kind != TextSend && packet.kind != CloseCamera
    requires packet.kind != UserProfile && packet.kind != RoomSettings
    ensures HandlePacket(w, r, c, packet) == w
  {
  }

  // A join, packet by packet

  /** A connection's entry after more packets. */
  ghost function Told(w: World, c: ConnId, packets: seq<Packet>): World
    requires c in w.conns
  {
    w.(conns := w.conns[c := w.conns[c].Receive(packets)])
  }

  lemma ToldMore(w: World, c: ConnId, packets: seq<Packet>, packet: Packet)
    requires c in w.conns
    ensures Told(Told(w, c, packets), c, [packet]) == Told(w, c, packets + [packet])
  {
    assert w.conns[c].sent + packets + [packet] == w.conns[c].sent + (packets + [packet]);
  }

  lemma ToldNothing(w: World, c: ConnId)
    requires c in w.conns
    ensures Told(w, c, []) == w
  {
    assert w.conns[c].sent + [] == w.conns[c].sent;
  }

  lemma NotifyStep(w: World, r: RoomId, c: ConnId, order: seq<ConnId>)
    requires Holds(w, r, c) && c in w.conns
    ensures var notice := Packet(PartnerJoin, w.rooms[r].participants[c].profile.userId, []);
            var w1 := Relayed(w, r, c, notice);
            && c in w1.conns && w1.conns[c] == w.conns[c]
            && NotifyUserJoined(w, r, c, order)
               == if w.conns[c].Open() then Told(w1, c, WelcomePackets(order, w.rooms[r], c)) else w1
  {
  }

  lemma ListIdsOneMore(order: seq<ConnId>, i: nat, parts: map<ConnId, Participant>, newcomer: ConnId)
    requires i < |order|
    ensures ListIds(order[..i + 1], parts, newcomer)
            == if order[i] == newcomer || order[i] !in parts then ListIds(order[..i], parts, newcomer)
               else ListIds(order[..i], parts, newcomer) + [parts[order[i]].profile.userId]
  {
    assert order[..i + 1][..i] == order[..i];
  }

  lemma ListProfilesOneMore(order: seq<ConnId>, i: nat, parts: map<ConnId, Participant>, newcomer: ConnId)
    requires i < |order|
    ensures ListProfiles(order[..i + 1], parts, newcomer)
            == if order[i] == newcomer || order[i] !in parts || !Resent(parts[order[i]].profile)
               then ListProfiles(order[..i], parts, newcomer)
               else ListProfiles(order[..i], parts, newcomer) + [ProfilePacket(parts[order[i]].profile)]
  {
    assert order[..i + 1][..i] == order[..i];
  }

  // The lobby

  /** No room lists this connection and the map does not have it. */
  ghost predicate Outside(w: World, c: ConnId) {
    c in w.conns && c !in w.connRoom && forall r :: r in w.rooms ==> c !in w.rooms[r].participants
  }

  /** A fresh room with its owner inside. */
  ghost function Opened(w: World, id: RoomId, c: ConnId, room: Room, counter: u32): World {
    w.(rooms := w.rooms[id := room], connRoom := w.connRoom[c := id], nextRoom := counter)
  }

  ghost function NewRoom(options: RoomOptions, cfg: Config, c: ConnId, userId: u64): Room {
    Room(RoomLimit(options, cfg), options.durationMinutes, SETTINGS_DEFAULT, false,
         if RoomLimit(options, cfg) == 0 || userId == 0 then map[]
         else map[c := Participant(Profile(userId, [], []), true)])
  }

  lemma CreateRejected(w: World, cfg: Config, c: ConnId, packet: Packet, draws: seq<u32>)
    requires ValidConfig(cfg) && c in w.conns && (packet.userId == 0 || !w.conns[c].Open() || |w.rooms| >= cfg.maxRooms)
    ensures HandleCreate(w, cfg, c, packet, draws)
            == if packet.userId == 0 then CloseConn(w, c) else Reply(w, c, Packet(CreateMeetingResponse, 0, ToBe(4, 0)))
  {
  }

  lemma CreateStep(w: World, cfg: Config, c: ConnId, packet: Packet, draws: seq<u32>, id: RoomId, counter: u32)
    requires ValidConfig(cfg) && Outside(w, c) && w.conns[c].Open() && packet.userId != 0 && |w.rooms| < cfg.maxRooms
    requires AllocateRoomId(w.rooms.Keys, draws, w.nextRoom) == (id, counter) && id !in w.rooms
    ensures var room := NewRoom(ParseOptions(packet.payload, cfg), cfg, c, packet.userId);
            && c in Opened(w, id, c, room, counter).conns
            && HandleCreate(w, cfg, c, packet, draws)
               == Reply(Opened(w, id, c, room, counter), c, Packet(CreateMeetingResponse, 0, ToBe(4, id)))
  {
  }

  /** When a join packet from the lobby is admitted. */
  predicate Admitted(w: World, packet: Packet) {
    && |packet.payload| >= 4 && packet.userId != 0
    && (var r := ReadU32(packet.payload);
        && r in w.rooms && !w.rooms[r].closed && |w.rooms[r].participants| < w.rooms[r].maxParticipants)
  }

  predicate Joinable(w: World, c: ConnId, packet: Packet) {
    c in w.conns && w.conns[c].Open() && Admitted(w, packet)
  }

  function Newcomer(userId: u64): Participant {
    Participant(Profile(userId, [], []), false)
  }

  /** A newcomer on the list and in the map, not yet announced. */
  ghost function Entered(w: World, r: RoomId, c: ConnId, p: Participant): World
    requires r in w.rooms
  {
    w.(rooms := w.rooms[r := w.rooms[r].(participants := w.rooms[r].participants[c := p])],
       connRoom := w.connRoom[c := r])
  }

  lemma JoinStep(w: World, c: ConnId, packet: Packet, order: seq<ConnId>)
    requires Outside(w, c) && Joinable(w, c, packet)
    ensures var r := ReadU32(packet.payload);
            var w1 := Entered(w, r, c, Newcomer(packet.userId));
            && c in w1.conns && c in Reply(w1, c, JoinReply(r)).conns && r in Reply(w1, c, JoinReply(r)).rooms
            && HandleJoin(w, c, packet, order) == NotifyUserJoined(Reply(w1, c, JoinReply(r)), r, c, order)
            && Reply(w1, c, JoinReply(r)).rooms[r].participants.Keys == JoinMembers(w, c, Framing.Ok(packet))
  {
  }

  lemma JoinRejected(w: World, c: ConnId, packet: Packet, order: seq<ConnId>)
    requires Outside(w, c) && !Joinable(w, c, packet)
    ensures HandleJoin(w, c, packet, order)
            == if |packet.payload| < 4 || packet.userId == 0 then CloseConn(w, c)
               else if ReadU32(packet.payload) !in w.rooms || w.rooms[ReadU32(packet.payload)].closed
               then Reply(w, c, JoinReply(JOIN_NOT_AVAILABLE))
               else Reply(w, c, JoinReply(JOIN_FULL))
  {
  }

  /** Every finite set of ids can be listed. */
  lemma SomeOrder(s: set<ConnId>) returns (order: seq<ConnId>)
    ensures Enumerates(order, s)
  {
    order := [];
    var todo := s;
    while todo != {}
      invariant todo <= s && Enumerates(order, s - todo)
      decreases todo
    {
      var c :| c in todo;
      todo := todo - {c};
      order := order + [c];
    }
  }

  lemma SomeDraws() returns (draws: seq<u32>)
    ensures ValidDraws(draws)
  {
    draws := seq(ROOM_ID_ATTEMPTS, _ => ROOM_ID_MIN);
  }
}
