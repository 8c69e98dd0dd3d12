/** Concrete runs: a profile packet with another user id breaks a view, a lost socket outlives its room. */
module MeetingExamples {
  import opened Options
  import opened Bytes
  import opened Wire
  import opened Framing
  import opened Meeting
  import opened MeetingInvariants
  import opened MeetingProofs
  import opened MeetingRuns
  import opened MeetingEffects
  import opened ServerSteps
  import opened Doubles
  import opened ClientViews

  // Building runs in which views stay right

  /** No event so far changed a known id or announced one that no client can read. */
  ghost predicate Calm(cfg: Config, events: seq<Event>)
    requires ValidConfig(cfg)
  {
    KeepsIds(INITIAL, cfg, events) && AnnouncesPlain(INITIAL, cfg, events)
  }

  /** One more event of that kind. */
  lemma More(cfg: Config, events: seq<Event>, w: World, e: Event) returns (events': seq<Event>, w': World)
    requires ValidConfig(cfg) && Run(INITIAL, cfg, events) == Some(w) && Enabled(w, e)
    requires Calm(cfg, events) && !ChangesKnownId(w, e) && !AnnouncesWideId(w, e)
    ensures events' == events + [e] && w' == Next(w, cfg, e)
    ensures Run(INITIAL, cfg, events') == Some(w') && Calm(cfg, events')
  {
    hide Run, Next, Enabled, ChangesKnownId, AnnouncesWideId;
    events' := events + [e];
    w' := Next(w, cfg, e);
    RunAppend(INITIAL, cfg, events, e);
    forall n | 0 <= n < |events'| && Run(INITIAL, cfg, events'[..n]).Some?
      ensures !ChangesKnownId(Run(INITIAL, cfg, events'[..n]).value, events'[n])
      ensures !AnnouncesWideId(Run(INITIAL, cfg, events'[..n]).value, events'[n])
    {
      if n < |events| {
        assert events'[..n] == events[..n] && events'[n] == events[n];
      } else {
        assert events'[..n] == events;
      }
    }
  }

  /** A delivery to a connection, with some draws and some iteration order. */
  lemma Delivery(w: World, c: ConnId, packet: Packet) returns (e: Event)
    requires c in w.conns
    ensures e.Deliver? && e.c == c && e.decoded == Ok(packet) && Enabled(w, e)
  {
    var draws := SomeDraws();
    var order := SomeOrder(JoinMembers(w, c, Ok(packet)));
    e := Deliver(c, Ok(packet), draws, order);
  }

  lemma CalmViews(cfg: Config, events: seq<Event>, w: World)
    requires ValidConfig(cfg) && Run(INITIAL, cfg, events) == Some(w) && Calm(cfg, events)
    ensures Good(w, cfg) && ViewsOk(w) && ClientViewsOk(w)
  {
    EveryRunGood(cfg, events);
    EveryRunViews(cfg, events);
    EveryRunClientViews(cfg, events);
  }

  // Two users in a room

  const FRESH: Conn := Conn(false, true, [], 0)

  lemma TwoConnections(cfg: Config) returns (events: seq<Event>, w: World)
    requires ValidConfig(cfg)
    ensures Run(INITIAL, cfg, events) == Some(w) && Calm(cfg, events)
    ensures w.conns == map[1 := FRESH, 2 := FRESH] && w.nextConn == 3 && w.rooms == map[] && w.connRoom == map[]
  {
    events, w := [], INITIAL;
    events, w := More(cfg, events, w, Accept);
    events, w := More(cfg, events, w, Accept);
  }

  /** User 7 is alone in a room, and connection 2 is in none. */
  ghost predicate Alone(w: World, cfg: Config, id: RoomId)
    requires ValidConfig(cfg)
  {
    && w.conns.Keys == {1, 2} && w.nextConn == 3 && w.conns[1].Open() && w.conns[2].Open()
    && w.connRoom == map[1 := id] && id in w.rooms
    && w.rooms[id].participants == map[1 := Participant(Profile(7, [], []), true)]
    && w.rooms[id].maxParticipants == RoomLimit(ParseOptions([], cfg), cfg)
  }

  lemma Created(w: World, cfg: Config, e: Event) returns (id: RoomId)
    requires ValidConfig(cfg) && cfg.maxRooms > 0 && Enabled(w, e)
    requires w.conns == map[1 := FRESH, 2 := FRESH] && w.nextConn == 3 && w.rooms == map[] && w.connRoom == map[]
    requires e.Deliver? && e.c == 1 && e.decoded == Ok(Packet(CreateMeeting, 7, []))
    ensures Alone(Next(w, cfg, e), cfg, id)
    ensures !ChangesKnownId(w, e) && !AnnouncesWideId(w, e)
  {
    hide ToBe, ParseOptions, AllocateRoomId, RoomOk, Enumerates, RoomLimit;
    var room := CreateShape(w, cfg, 1, e.decoded.packet, e.draws);
    id := AllocateRoomId(w.rooms.Keys, e.draws, w.nextRoom).0;
  }

  lemma JoinsPlainly(w: World, c: ConnId, e: Event)
    requires e.Deliver? && e.c == c && e.decoded.Ok? && e.decoded.packet.kind == JoinMeeting
    requires e.decoded.packet.userId < 100
    ensures !ChangesKnownId(w, e) && !AnnouncesWideId(w, e)
  {
    hide ReadU32;
    FirstRounded([]);
  }

  lemma HasSpace(w: World, cfg: Config, id: RoomId)
    requires ValidConfig(cfg) && RoomsOk(w, cfg) && Alone(w, cfg, id)
    ensures !w.rooms[id].closed && |w.rooms[id].participants| < w.rooms[id].maxParticipants
  {
    assert RoomOk(w.rooms[id], cfg);
    assert |w.rooms[id].participants| == |w.rooms[id].participants.Keys| == 1;
  }

  lemma EnteringJoins(w: World, cfg: Config, e: Event, c: ConnId, id: RoomId, userId: u64)
    requires ValidConfig(cfg) && Good(w, cfg) && Enabled(w, e) && id in w.rooms && userId != 0
    requires c in w.conns && w.conns[c].Open() && c !in w.connRoom
    requires |w.rooms[id].participants| < w.rooms[id].maxParticipants
    requires e.Deliver? && e.c == c && e.decoded == Ok(Packet(JoinMeeting, userId, ToBe(4, id)))
    ensures !w.rooms[id].closed
    ensures Next(w, cfg, e) == Joined(w, id, c, Newcomer(userId), e.order)
  {
    hide ToBe, ReadU32, RoomOk, OneOwner, Joined, HandleJoin, Enumerates, SettingsOk, LobbyOk;
    UnclosedRoom(w, cfg, id);
    ReadWrittenU32(id);
    JoinShape(w, cfg, c, e.decoded.packet, e.order);
  }

  /** Users 7 and 8 share a room that 7 owns. */
  ghost predicate Sharing(w: World, cfg: Config)
    requires ValidConfig(cfg)
  {
    && w.conns.Keys == {1, 2} && w.nextConn == 3 && w.conns[1].Open() && w.conns[2].Open()
    && InRoom(w, 1) && InRoom(w, 2) && w.connRoom[1] == w.connRoom[2]
    && (var room := w.rooms[w.connRoom[2]];
        && room.participants.Keys == {1, 2} && room.maxParticipants == RoomLimit(ParseOptions([], cfg), cfg)
        && room.participants[1].isOwner && room.participants[2] == Newcomer(8))
  }

  lemma JoinedShares(w: World, cfg: Config, id: RoomId, order: seq<ConnId>)
    requires ValidConfig(cfg) && Alone(w, cfg, id) && !w.rooms[id].closed
    ensures Sharing(Joined(w, id, 2, Newcomer(8), order), cfg)
  {
    hide Joined, WelcomePackets, RoomLimit, ParseOptions;
    JoinedShape(w, id, 2, Newcomer(8), order);
  }

  lemma TwoInARoom(cfg: Config) returns (events: seq<Event>, w: World)
    requires ValidConfig(cfg) && cfg.maxRooms > 0
    ensures Run(INITIAL, cfg, events) == Some(w) && Calm(cfg, events) && Sharing(w, cfg)
  {
    hide Run, Next, ToBe, ViewsOk, ClientViewsOk, Sharing, Calm;
    events, w := TwoConnections(cfg);
    var e := Delivery(w, 1, Packet(CreateMeeting, 7, []));
    var id := Created(w, cfg, e);
    events, w := More(cfg, events, w, e);
    CalmViews(cfg, events, w);
    HasSpace(w, cfg, id);
    e := Delivery(w, 2, Packet(JoinMeeting, 8, ToBe(4, id)));
    JoinsPlainly(w, 2, e);
    EnteringJoins(w, cfg, e, 2, id, 8);
    JoinedShares(w, cfg, id, e.order);
    events, w := More(cfg, events, w, e);
  }

  // What can go wrong

  /** Nothing stops the second user from adopting another id, and the first one's view is then wrong. */
  lemma ViewsCanBreak(cfg: Config) returns (events: seq<Event>)
    requires ValidConfig(cfg) && cfg.maxRooms > 0
    ensures Run(INITIAL, cfg, events).Some? && !ViewsOk(Run(INITIAL, cfg, events).value)
  {
    hide Run, Next, ViewsOk, ClientViewsOk, Good, ApplyProfile, Calm, RoomLimit, ParseOptions;
    var w, profile := INITIAL, Profile(9, [], []);
    events, w := TwoInARoom(cfg);
    CalmViews(cfg, events, w);
    var e := Delivery(w, 2, Packet(UserProfile, 8, ProfilePayload(profile)));
    ProfileCached(profile, profile);
    assert 1 in OpenMembers(w, w.connRoom[2]);
    NextViews(w, cfg, e);
    RunAppend(INITIAL, cfg, events, e);
    events := events + [e];
  }

  /** The member's socket goes away, then the owner leaves: its room is gone, and its handler never ran. */
  lemma LostSocketLingers(cfg: Config) returns (events: seq<Event>, w: World, w': World)
    requires ValidConfig(cfg) && cfg.maxRooms > 0
    ensures Run(INITIAL, cfg, events) == Some(w) && Sharing(w, cfg)
    ensures Run(INITIAL, cfg, events + [SocketLost(2)] + [PeerClose(1)]) == Some(w')
    ensures w.connRoom[2] !in w'.rooms && 1 in w'.conns && w'.conns[1].closed
    ensures 2 in w'.conns && 2 !in w'.connRoom && !w'.conns[2].closed && w'.conns[2].closeEvents == 0
  {
    hide Run, RoomOk, ViewsOk, CloseConn, Calm, RoomLimit, ParseOptions;
    events, w := TwoInARoom(cfg);
    RunAppend(INITIAL, cfg, events, SocketLost(2));
    var w1 := Next(w, cfg, SocketLost(2));
    RunAppend(INITIAL, cfg, events + [SocketLost(2)], PeerClose(1));
    EveryRunGood(cfg, events + [SocketLost(2)]);
    w' := Next(w1, cfg, PeerClose(1));
    EveryRunGood(cfg, events + [SocketLost(2)] + [PeerClose(1)]);
    OwnerCloseEnds(w1, cfg, 1);
  }

  // An id that no client can read

  const WIDE: u64 := TWO_53 + 1

  /** User 8, the only open member, goes by that id now. */
  ghost predicate Renamed(w: World, cfg: Config)
    requires ValidConfig(cfg)
  {
    && w.conns.Keys == {1, 2} && w.nextConn == 3 && w.conns[2].Open() && InRoom(w, 2)
    && (var room := w.rooms[w.connRoom[2]];
        && room.participants.Keys == {1, 2} && room.maxParticipants == RoomLimit(ParseOptions([], cfg), cfg)
        && !room.participants[2].isOwner && room.participants[2].profile.userId == WIDE)
  }

  lemma RenamedRun(cfg: Config) returns (events: seq<Event>, w: World)
    requires ValidConfig(cfg) && cfg.maxRooms > 0
    ensures Run(INITIAL, cfg, events) == Some(w) && Calm(cfg, events) && Renamed(w, cfg)
  {
    hide Run, ViewsOk, ClientViewsOk, ApplyProfile, Calm, RoomLimit, ParseOptions, RoomOk, HandlePacket;
    var profile := Profile(WIDE, [], []);
    events, w := TwoInARoom(cfg);
    events, w := More(cfg, events, w, SocketLost(1));
    var e := Delivery(w, 2, Packet(UserProfile, 8, ProfilePayload(profile)));
    CalmViews(cfg, events, w);
    ProfileShape(w, cfg, 2, e.decoded.packet);
    ProfileCached(w.rooms[w.connRoom[2]].participants[2].profile, profile);
    events, w := More(cfg, events, w, e);
  }

  /** A third connection has arrived. */
  ghost predicate Arrived(w: World) {
    && 3 in w.conns && w.conns[3].Open() && 3 !in w.connRoom && InRoom(w, 2)
    && (var room := w.rooms[w.connRoom[2]];
        && |room.participants| == 2 && room.maxParticipants >= 3
        && !room.participants[2].isOwner && room.participants[2].profile.userId == WIDE)
  }

  lemma ArrivedRun(cfg: Config) returns (events: seq<Event>, w: World)
    requires ValidConfig(cfg) && cfg.maxRooms > 0 && HardMax(cfg) >= 3
    ensures Run(INITIAL, cfg, events) == Some(w) && Calm(cfg, events) && Arrived(w)
  {
    hide Run, ViewsOk, ClientViewsOk, Calm, RoomLimit, ParseOptions, RoomOk;
    events, w := RenamedRun(cfg);
    CalmViews(cfg, events, w);
    assert 3 !in w.connRoom;
    RoomForThree(cfg);
    var participants := w.rooms[w.connRoom[2]].participants;
    assert |participants| == |participants.Keys| == 2;
    events, w := More(cfg, events, w, Accept);
  }

  /** And user 9 has come into the room on it. */
  ghost predicate Crowded(w: World) {
    && 3 in w.conns && w.conns[3].Open() && InRoom(w, 2) && InRoom(w, 3) && w.connRoom[3] == w.connRoom[2]
    && !w.rooms[w.connRoom[2]].participants[2].isOwner
    && w.rooms[w.connRoom[2]].participants[2].profile.userId == WIDE
  }

  lemma JoinedCrowds(w: World, order: seq<ConnId>)
    requires Arrived(w) && !w.rooms[w.connRoom[2]].closed
    ensures Crowded(Joined(w, w.connRoom[2], 3, Newcomer(9), order))
  {
    hide Joined, WelcomePackets;
    JoinedShape(w, w.connRoom[2], 3, Newcomer(9), order);
  }

  lemma CrowdedRun(cfg: Config) returns (events: seq<Event>, w: World)
    requires ValidConfig(cfg) && cfg.maxRooms > 0 && HardMax(cfg) >= 3
    ensures Run(INITIAL, cfg, events) == Some(w) && Calm(cfg, events) && Crowded(w)
  {
    hide Run, Next, ViewsOk, ClientViewsOk, Good, Calm, ToBe, Joined;
    events, w := ArrivedRun(cfg);
    var id := w.connRoom[2];
    CalmViews(cfg, events, w);
    var e := Delivery(w, 3, Packet(JoinMeeting, 9, ToBe(4, id)));
    JoinsPlainly(w, 3, e);
    EnteringJoins(w, cfg, e, 3, id, 9);
    JoinedCrowds(w, e.order);
    events, w := More(cfg, events, w, e);
  }

  lemma RoomForThree(cfg: Config)
    requires ValidConfig(cfg) && HardMax(cfg) >= 3
    ensures RoomLimit(ParseOptions([], cfg), cfg) >= 3
  {
  }

  /** When user 8 now leaves, its exit names another id, and the newcomer's client keeps a partner that is gone. */
  lemma WideIdLingers(cfg: Config) returns (events: seq<Event>, w: World)
    requires ValidConfig(cfg) && cfg.maxRooms > 0 && HardMax(cfg) >= 3
    ensures Run(INITIAL, cfg, events) == Some(w) && KeepsIds(INITIAL, cfg, events)
    ensures ViewsOk(w) && !ClientViewsOk(w)
  {
    hide Run, Next, ViewsOk, ClientViewsOk, Good, KeepsIds, AnnouncesPlain, Readable;
    events, w := CrowdedRun(cfg);
    CalmViews(cfg, events, w);
    WideIsNot();
    assert 3 in OpenMembers(w, w.connRoom[2]);
    NextClientViews(w, cfg, PeerClose(2));
    KeepsMore(cfg, events, w, PeerClose(2));
    RunAppend(INITIAL, cfg, events, PeerClose(2));
    events, w := events + [PeerClose(2)], Next(w, cfg, PeerClose(2));
    EveryRunViews(cfg, events);
  }

  lemma WideIsNot()
    ensures !Readable(WIDE)
  {
    assert Spacing(WIDE / 2) == 1;
  }

  lemma KeepsMore(cfg: Config, events: seq<Event>, w: World, e: Event)
    requires ValidConfig(cfg) && Run(INITIAL, cfg, events) == Some(w) && KeepsIds(INITIAL, cfg, events)
    requires !ChangesKnownId(w, e)
    ensures KeepsIds(INITIAL, cfg, events + [e])
  {
    hide Run, ChangesKnownId;
    forall n | 0 <= n < |events + [e]| && Run(INITIAL, cfg, (events + [e])[..n]).Some?
      ensures !ChangesKnownId(Run(INITIAL, cfg, (events + [e])[..n]).value, (events + [e])[n])
    {
      if n < |events| {
        assert (events + [e])[..n] == events[..n];
      } else {
        assert (events + [e])[..n] == events;
      }
    }
  }
}
