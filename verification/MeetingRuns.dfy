/** The main results about whole runs of the meeting protocol. */
module MeetingRuns {
  import opened Options
  import opened Bytes
  import opened Wire
  import opened Framing
  import opened Meeting
  import opened MeetingInvariants
  import opened MeetingProofs
  import RoomIds
  import opened ServerSteps

  /** Everything that holds between handlers whatever clients send. */
  ghost predicate Good(w: World, cfg: Config) {
    Inv(w, cfg) && LobbyOk(w) && SettingsOk(w)
  }

  // One packet from a participant

  ghost predicate InRoom(w: World, c: ConnId) {
    c in w.conns && c in w.connRoom && w.connRoom[c] in w.rooms && c in w.rooms[w.connRoom[c]].participants
  }

  /** The state of a room after a profile packet. */
  lemma ProfileShape(w: World, cfg: Config, c: ConnId, packet: Packet)
    requires Inv(w, cfg) && InRoom(w, c) && packet.kind == UserProfile
    ensures var r := w.connRoom[c];
            var profile := ApplyProfile(w.rooms[r].participants[c].profile, packet.payload);
            var w1 := Reprofiled(w, r, c, profile);
            HandlePacket(w, r, c, packet)
            == w1.(conns := Broadcast(w1.conns, w1.rooms[r].participants.Keys, c, packet.(userId := profile.userId)))
  {
    assert RoomOk(w.rooms[w.connRoom[c]], cfg);
    hide HandlePacket, ApplyProfile, Broadcast, RoomOk, Agree, ConnsOk;
    ProfileStep(w, w.connRoom[c], c, packet);
  }

  lemma ProfilePacketKeeps(w: World, cfg: Config, c: ConnId, packet: Packet)
    requires Good(w, cfg) && InRoom(w, c) && packet.kind == UserProfile
    ensures Good(HandlePacket(w, w.connRoom[c], c, packet), cfg)
  {
    var r := w.connRoom[c];
    assert RoomOk(w.rooms[r], cfg);
    var profile := ApplyProfile(w.rooms[r].participants[c].profile, packet.payload);
    var w1 := Reprofiled(w, r, c, profile);
    ProfileShape(w, cfg, c, packet);
    ReprofiledKeeps(w, cfg, r, c, profile);
    ReprofiledSettings(w, r, c, profile);
    BroadcastKeeps(w1, cfg, r, c, packet.(userId := profile.userId));
    NeutralBroadcastTells(w1, r, c, packet.(userId := profile.userId));
  }

  lemma UnclosedRoom(w: World, cfg: Config, r: RoomId)
    requires RoomsOk(w, cfg) && r in w.rooms
    ensures !w.rooms[r].closed
  {
    assert RoomOk(w.rooms[r], cfg);
  }

  /** Text and camera notices are relayed to the others under the sender's id; other kinds do nothing. */
  lemma RelayShape(w: World, cfg: Config, c: ConnId, packet: Packet) returns (relayed: Option<Packet>)
    requires Inv(w, cfg) && InRoom(w, c) && packet.kind != UserProfile && packet.kind != RoomSettings
    ensures relayed.Some? ==> Neutral(relayed.value.kind)
    ensures HandlePacket(w, w.connRoom[c], c, packet)
            == if relayed.None? then w
               else w.(conns := Broadcast(w.conns, w.rooms[w.connRoom[c]].participants.Keys, c, relayed.value))
  {
    hide Broadcast, ApplyProfile, ReadU32, ToBe, RoomOk;
    UnclosedRoom(w, cfg, w.connRoom[c]);
    var userId := w.rooms[w.connRoom[c]].participants[c].profile.userId;
    relayed := if packet.kind == TextSend then Some(Packet(TextRecv, userId, packet.payload))
               else if packet.kind == CloseCamera then Some(Packet(CloseCamera, userId, []))
               else None;
  }

  lemma SettingsShape(w: World, cfg: Config, c: ConnId, packet: Packet)
    requires Inv(w, cfg) && InRoom(w, c) && packet.kind == RoomSettings
    ensures var r := w.connRoom[c];
            var flags := if |packet.payload| >= 4 then ReadU32(packet.payload) else w.rooms[r].settings;
            HandlePacket(w, r, c, packet)
            == if w.rooms[r].participants[c].isOwner
               then Resettled(w, r, flags, w.rooms[r].participants[c].profile.userId) else w
  {
    assert RoomOk(w.rooms[w.connRoom[c]], cfg);
  }

  lemma OtherPacketKeeps(w: World, cfg: Config, c: ConnId, packet: Packet)
    requires Good(w, cfg) && InRoom(w, c) && packet.kind != UserProfile
    ensures Good(HandlePacket(w, w.connRoom[c], c, packet), cfg)
    ensures ViewsOk(w) ==> ViewsOk(HandlePacket(w, w.connRoom[c], c, packet))
  {
    var r := w.connRoom[c];
    if packet.kind == RoomSettings {
      SettingsShape(w, cfg, c, packet);
      var flags := if |packet.payload| >= 4 then ReadU32(packet.payload) else w.rooms[r].settings;
      ResettledKeeps(w, cfg, r, flags, w.rooms[r].participants[c].profile.userId);
      ResettledTells(w, cfg, r, flags, w.rooms[r].participants[c].profile.userId);
    } else {
      var relayed := RelayShape(w, cfg, c, packet);
      if relayed.Some? {
        BroadcastKeeps(w, cfg, r, c, relayed.value);
        NeutralBroadcastTells(w, r, c, relayed.value);
      }
    }
  }

  // One packet from the lobby

  /** Whatever a client asks for, the room's limits stay within the configured ones. */
  lemma OptionsInRange(payload: seq<byte>, cfg: Config)
    requires ValidConfig(cfg)
    ensures var options := ParseOptions(payload, cfg);
            && MIN_PARTICIPANTS <= RoomLimit(options, cfg) <= cfg.maxParticipants
            && MIN_DURATION_MINUTES <= options.durationMinutes <= MAX_DURATION_MINUTES
  {
    assert cfg.maxParticipants >= HardMax(cfg);
  }

  lemma CreateShape(w: World, cfg: Config, c: ConnId, packet: Packet, draws: seq<u32>) returns (room: Room)
    requires ValidConfig(cfg) && c in w.conns && w.conns[c].Open() && c !in w.connRoom
    requires packet.userId != 0 && |w.rooms| < cfg.maxRooms
    ensures RoomOk(room, cfg) && room.participants == map[c := Participant(Profile(packet.userId, [], []), true)]
    ensures room.settings == SETTINGS_DEFAULT
    ensures room.maxParticipants == RoomLimit(ParseOptions(packet.payload, cfg), cfg)
    ensures room.durationMinutes == ParseOptions(packet.payload, cfg).durationMinutes
    ensures var (id, counter) := AllocateRoomId(w.rooms.Keys, draws, w.nextRoom);
            && id !in w.rooms
            && HandleCreate(w, cfg, c, packet, draws)
               == Reply(Opened(w, id, c, room, counter), c, Packet(CreateMeetingResponse, 0, ToBe(4, id)))
  {
    OptionsInRange(packet.payload, cfg);
    var options := ParseOptions(packet.payload, cfg);
    RoomIds.AllocatedUnused(w.rooms.Keys, draws, w.nextRoom);
    var parts := map[c := Participant(Profile(packet.userId, [], []), true)];
    room := Room(RoomLimit(options, cfg), options.durationMinutes, SETTINGS_DEFAULT, false, parts);
    NewRoomOk(room, cfg, c);
  }

  lemma NewRoomOk(room: Room, cfg: Config, c: ConnId)
    requires room.participants.Keys == {c} && room.participants[c].isOwner && !room.closed
    requires room.participants[c].profile.name == [] && room.participants[c].profile.avatar == []
    requires MIN_PARTICIPANTS <= room.maxParticipants <= cfg.maxParticipants
    requires MIN_DURATION_MINUTES <= room.durationMinutes <= MAX_DURATION_MINUTES
    ensures RoomOk(room, cfg)
  {
    var parts := room.participants;
    assert c in parts && parts[c].isOwner && forall d :: d in parts && parts[d].isOwner ==> d == c;
    assert |parts| == |parts.Keys| == 1;
  }

  lemma CreateKeeps(w: World, cfg: Config, c: ConnId, packet: Packet, draws: seq<u32>)
    requires ValidConfig(cfg) && Good(w, cfg) && c in w.conns && w.conns[c].Open() && c !in w.connRoom
    ensures Good(HandleCreate(w, cfg, c, packet, draws), cfg)
    ensures ViewsOk(w) ==> ViewsOk(HandleCreate(w, cfg, c, packet, draws))
  {
    hide RoomOk, Agree, ConnsOk, SettingOk, ViewOk, ParseOptions, AllocateRoomId, CloseConn, ToBe;
    if packet.userId == 0 {
      CloseConnKeeps(w, cfg, c);
    } else if |w.rooms| >= cfg.maxRooms {
      var reply := Packet(CreateMeetingResponse, 0, ToBe(4, 0));
      ReplyKeeps(w, cfg, c, reply);
      ReplyTells(w, c, reply);
    } else {
      var room := CreateShape(w, cfg, c, packet, draws);
      var (id, counter) := AllocateRoomId(w.rooms.Keys, draws, w.nextRoom);
      var w1 := Opened(w, id, c, room, counter);
      var reply := Packet(CreateMeetingResponse, 0, ToBe(4, id));
      OpenedKeeps(w, cfg, id, c, room, counter);
      OpenedTells(w, cfg, id, c, room, counter);
      ReplyKeeps(w1, cfg, c, reply);
      ReplyTells(w1, c, reply);
    }
  }

  lemma JoinShape(w: World, cfg: Config, c: ConnId, packet: Packet, order: seq<ConnId>)
    requires Inv(w, cfg) && c in w.conns && w.conns[c].Open() && c !in w.connRoom
    requires Admitted(w, packet)
    ensures HandleJoin(w, c, packet, order)
            == Joined(w, ReadU32(packet.payload), c, Newcomer(packet.userId), order)
  {
    hide ReadU32, NotifyUserJoined, RoomOk;
    var r := ReadU32(packet.payload);
    assert c !in w.rooms[r].participants;
  }

  lemma RefusedShape(w: World, cfg: Config, c: ConnId, packet: Packet, order: seq<ConnId>) returns (reply: Packet)
    requires Inv(w, cfg) && c in w.conns && w.conns[c].Open() && !Admitted(w, packet)
    requires |packet.payload| >= 4 && packet.userId != 0
    ensures LobbyKind(reply.kind) && HandleJoin(w, c, packet, order) == Reply(w, c, reply)
  {
    var r := ReadU32(packet.payload);
    reply := if r !in w.rooms || w.rooms[r].closed then JoinReply(JOIN_NOT_AVAILABLE) else JoinReply(JOIN_FULL);
  }

  lemma JoinKeeps(w: World, cfg: Config, c: ConnId, packet: Packet, order: seq<ConnId>)
    requires ValidConfig(cfg) && Good(w, cfg) && c in w.conns && w.conns[c].Open() && c !in w.connRoom
    requires Enumerates(order, JoinMembers(w, c, Ok(packet)))
    ensures Good(HandleJoin(w, c, packet, order), cfg)
    ensures ViewsOk(w) ==> ViewsOk(HandleJoin(w, c, packet, order))
  {
    if |packet.payload| < 4 || packet.userId == 0 {
      CloseConnKeeps(w, cfg, c);
    } else if Admitted(w, packet) {
      var r, p := ReadU32(packet.payload), Newcomer(packet.userId);
      JoinShape(w, cfg, c, packet, order);
      JoinedKeeps(w, cfg, r, c, p, order);
      JoinedTells(w, cfg, r, c, p, order);
    } else {
      var reply := RefusedShape(w, cfg, c, packet, order);
      ReplyKeeps(w, cfg, c, reply);
      ReplyTells(w, c, reply);
    }
  }

  lemma LobbyKeeps(w: World, cfg: Config, c: ConnId, packet: Packet, draws: seq<u32>, order: seq<ConnId>)
    requires ValidConfig(cfg) && Good(w, cfg) && c in w.conns && w.conns[c].Open() && c !in w.connRoom
    requires Enumerates(order, JoinMembers(w, c, Ok(packet)))
    ensures Good(HandleLobby(w, cfg, c, packet, draws, order), cfg)
    ensures ViewsOk(w) ==> ViewsOk(HandleLobby(w, cfg, c, packet, draws, order))
  {
    if packet.kind == CreateMeeting {
      CreateKeeps(w, cfg, c, packet, draws);
    } else if packet.kind == JoinMeeting {
      JoinKeeps(w, cfg, c, packet, order);
    } else {
      CloseConnKeeps(w, cfg, c);
    }
  }

  // Any event

  lemma DeliverKeeps(w: World, cfg: Config, e: Event)
    requires ValidConfig(cfg) && Good(w, cfg) && Enabled(w, e) && e.Deliver?
    ensures Good(Next(w, cfg, e), cfg)
  {
    var c := e.c;
    if !w.conns[c].Open() {
    } else if e.decoded.Invalid? {
      CloseConnKeeps(w, cfg, c);
    } else if c !in w.connRoom {
      LobbyKeeps(w, cfg, c, e.decoded.packet, e.draws, e.order);
    } else if e.decoded.packet.kind == UserProfile {
      ProfilePacketKeeps(w, cfg, c, e.decoded.packet);
    } else {
      OtherPacketKeeps(w, cfg, c, e.decoded.packet);
    }
  }

  /** Every handler keeps agreement, limits, ownership, open membership, close-once and settings knowledge. */
  lemma NextKeeps(w: World, cfg: Config, e: Event)
    requires ValidConfig(cfg) && Good(w, cfg) && Enabled(w, e)
    ensures Good(Next(w, cfg, e), cfg)
  {
    match e
    case Accept =>
      AcceptKeeps(w, cfg);
      AcceptTells(w, cfg);
    case Deliver(c, decoded, draws, order) => DeliverKeeps(w, cfg, e);
    case PeerClose(c) => CloseConnKeeps(w, cfg, c);
    case SocketLost(c) =>
      TouchedKeeps(w, cfg, c, w.conns[c].(socketOpen := false));
      TouchedTells(w, c, w.conns[c].(socketOpen := false));
    case Expire(r) => ExpireKeeps(w, cfg, r);
  }

  lemma RunAppend(w: World, cfg: Config, events: seq<Event>, e: Event)
    requires ValidConfig(cfg)
    ensures Run(w, cfg, events + [e])
            == if Run(w, cfg, events).Some? && Enabled(Run(w, cfg, events).value, e)
               then Some(Next(Run(w, cfg, events).value, cfg, e)) else None
  {
    assert (events + [e])[..|events|] == events;
  }

  /** A run of a run's end goes on from where the first stopped. */
  lemma {:induction false} RunConcat(w: World, cfg: Config, first: seq<Event>, second: seq<Event>)
    requires ValidConfig(cfg) && Run(w, cfg, first).Some?
    ensures Run(w, cfg, first + second) == Run(Run(w, cfg, first).value, cfg, second)
    decreases |second|
  {
    hide Next, Enabled;
    if second == [] {
      assert first + second == first;
    } else {
      var n := |second| - 1;
      RunConcat(w, cfg, first, second[..n]);
      RunAppend(w, cfg, first + second[..n], second[n]);
      assert first + second == first + second[..n] + [second[n]];
      assert second == second[..n] + [second[n]];
    }
  }

  lemma {:induction false} RunKeeps(w: World, cfg: Config, events: seq<Event>)
    requires ValidConfig(cfg) && Good(w, cfg) && Run(w, cfg, events).Some?
    ensures Good(Run(w, cfg, events).value, cfg)
  {
    if events != [] {
      var n := |events| - 1;
      RunKeeps(w, cfg, events[..n]);
      NextKeeps(Run(w, cfg, events[..n]).value, cfg, events[n]);
    }
  }

  /** In every reachable state the maps agree, limits hold, and every participant knows the settings. */
  lemma EveryRunGood(cfg: Config, events: seq<Event>)
    requires ValidConfig(cfg) && Run(INITIAL, cfg, events).Some?
    ensures Good(Run(INITIAL, cfg, events).value, cfg)
  {
    assert Good(INITIAL, cfg);
    RunKeeps(INITIAL, cfg, events);
  }

  // Membership views

  /** The event makes a participant whose room has another open member adopt a different user id. */
  ghost predicate ChangesKnownId(w: World, e: Event) {
    && e.Deliver? && e.decoded.Ok? && e.decoded.packet.kind == UserProfile
    && InRoom(w, e.c) && w.conns[e.c].Open()
    && (var r := w.connRoom[e.c];
        var adopted := AdoptedId(e.decoded.packet.payload);
        && adopted.Some? && adopted.value != w.rooms[r].participants[e.c].profile.userId
        && !(OpenMembers(w, r) <= {e.c}))
  }

  lemma ProfilePacketViews(w: World, cfg: Config, c: ConnId, packet: Packet)
    requires Good(w, cfg) && ViewsOk(w) && InRoom(w, c) && w.conns[c].Open() && packet.kind == UserProfile
    ensures var r := w.connRoom[c];
            ViewsOk(HandlePacket(w, r, c, packet))
            <==> AdoptedId(packet.payload).None?
                 || AdoptedId(packet.payload).value == w.rooms[r].participants[c].profile.userId
                 || OpenMembers(w, r) <= {c}
  {
    var r := w.connRoom[c];
    var old' := w.rooms[r].participants[c].profile;
    var profile := ApplyProfile(old', packet.payload);
    var w1 := Reprofiled(w, r, c, profile);
    ProfileShape(w, cfg, c, packet);
    AdoptedIdMeaning(old', packet.payload);
    ReprofiledViews(w, cfg, r, c, profile);
    NeutralBroadcastSame(w1, r, c, packet.(userId := profile.userId));
  }

  lemma NeutralBroadcastSame(w: World, r: RoomId, exclude: ConnId, p: Packet)
    requires r in w.rooms && Neutral(p.kind)
    ensures var w' := w.(conns := Broadcast(w.conns, w.rooms[r].participants.Keys, exclude, p));
            ViewsOk(w) <==> ViewsOk(w')
  {
    var w' := w.(conns := Broadcast(w.conns, w.rooms[r].participants.Keys, exclude, p));
    forall c | c in w.conns
      ensures ViewOk(w, c) <==> ViewOk(w', c)
    {
      ReplayAppend(w.conns[c].sent, p);
    }
  }

  lemma DeliverViews(w: World, cfg: Config, e: Event)
    requires ValidConfig(cfg) && Good(w, cfg) && ViewsOk(w) && Enabled(w, e) && e.Deliver?
    ensures ViewsOk(Next(w, cfg, e)) <==> !ChangesKnownId(w, e)
  {
    var c := e.c;
    if !w.conns[c].Open() {
    } else if e.decoded.Invalid? {
      CloseConnKeeps(w, cfg, c);
    } else if c !in w.connRoom {
      LobbyKeeps(w, cfg, c, e.decoded.packet, e.draws, e.order);
    } else if e.decoded.packet.kind == UserProfile {
      ProfilePacketViews(w, cfg, c, e.decoded.packet);
    } else {
      OtherPacketKeeps(w, cfg, c, e.decoded.packet);
    }
  }

  /** Views agree after an event exactly when it does not give a known participant another user id. */
  lemma NextViews(w: World, cfg: Config, e: Event)
    requires ValidConfig(cfg) && Good(w, cfg) && ViewsOk(w) && Enabled(w, e)
    ensures ViewsOk(Next(w, cfg, e)) <==> !ChangesKnownId(w, e)
  {
    match e
    case Accept => AcceptTells(w, cfg);
    case Deliver(c, decoded, draws, order) => DeliverViews(w, cfg, e);
    case PeerClose(c) => CloseConnKeeps(w, cfg, c);
    case SocketLost(c) => TouchedTells(w, c, w.conns[c].(socketOpen := false));
    case Expire(r) => ExpireKeeps(w, cfg, r);
  }

  /** No event of the run changes a known participant's user id. */
  ghost predicate KeepsIds(w: World, cfg: Config, events: seq<Event>)
    requires ValidConfig(cfg)
  {
    forall n :: 0 <= n < |events| && Run(w, cfg, events[..n]).Some? ==>
      !ChangesKnownId(Run(w, cfg, events[..n]).value, events[n])
  }

  lemma {:induction false} RunViews(w: World, cfg: Config, events: seq<Event>)
    requires ValidConfig(cfg) && Good(w, cfg) && ViewsOk(w)
    requires Run(w, cfg, events).Some? && KeepsIds(w, cfg, events)
    ensures ViewsOk(Run(w, cfg, events).value)
  {
    if events != [] {
      var n := |events| - 1;
      forall m | 0 <= m < n
        ensures events[..n][..m] == events[..m]
      {
      }
      RunViews(w, cfg, events[..n]);
      RunKeeps(w, cfg, events[..n]);
      NextViews(Run(w, cfg, events[..n]).value, cfg, events[n]);
    }
  }

  /** In every run whose profiles carry their sender's own id, every open participant's replayed view is right. */
  lemma EveryRunViews(cfg: Config, events: seq<Event>)
    requires ValidConfig(cfg) && Run(INITIAL, cfg, events).Some? && KeepsIds(INITIAL, cfg, events)
    ensures ViewsOk(Run(INITIAL, cfg, events).value)
  {
    assert Good(INITIAL, cfg);
    RunViews(INITIAL, cfg, events);
  }
}
