/** Every packet the server sends is one the client's decoder understands, and the settings it reads are right. */
module ClientPackets {
  import opened Options
  import opened Bytes
  import opened Wire
  import opened Doubles
  import opened Framing
  import opened Meeting
  import opened MeetingInvariants
  import opened MeetingProofs
  import opened MeetingRuns
  import opened MeetingEffects
  import opened ClientAnswers
  import C = ClientReceive

  predicate ClientKind(kind: MessageType) {
    || kind == CreateMeetingResponse || kind == JoinMeetingResponse || kind == PartnerJoin2 || kind == PartnerJoin
    || kind == PartnerExit || kind == RoomSettingsNotify || kind == TextRecv || kind == CloseCamera
    || kind == UserProfile
  }

  /** Of one of the nine kinds, with whole numbers in the payloads that are made of them. */
  predicate Sendable(p: Packet) {
    && ClientKind(p.kind)
    && (p.kind == CreateMeetingResponse || p.kind == JoinMeetingResponse || p.kind == RoomSettingsNotify ==>
          |p.payload| == 4)
    && (p.kind == PartnerJoin2 ==> |p.payload| % 8 == 0)
  }

  ghost predicate Decodable(w: World) {
    forall c, p :: c in w.conns && p in w.conns[c].sent ==> Sendable(p)
  }

  lemma BroadcastDecodable(w: World, members: set<ConnId>, exclude: ConnId, p: Packet)
    requires Decodable(w) && Sendable(p)
    ensures Decodable(w.(conns := Broadcast(w.conns, members, exclude, p)))
  {
  }

  lemma CloseConnDecodable(w: World, c: ConnId)
    requires Decodable(w) && c in w.conns
    ensures Decodable(CloseConn(w, c))
  {
    var w1 := w.(conns := w.conns[c := w.conns[c].MarkClosed()], connRoom := w.connRoom - {c});
    if c in w.connRoom && w.connRoom[c] in w.rooms && c in w.rooms[w.connRoom[c]].participants {
      var r := w.connRoom[c];
      var w2 := DropParticipant(w1, r, c);
      BroadcastDecodable(w2, w2.rooms[r].participants.Keys, 0,
                         Packet(PartnerExit, w.rooms[r].participants[c].profile.userId, []));
    }
  }

  lemma PacketDecodable(w: World, r: RoomId, c: ConnId, packet: Packet)
    requires Decodable(w) && r in w.rooms
    ensures Decodable(HandlePacket(w, r, c, packet))
  {
    hide ApplyProfile, ReadU32, ToBe;
  }

  lemma ReplyDecodable(w: World, c: ConnId, p: Packet)
    requires Decodable(w) && c in w.conns && Sendable(p)
    ensures Decodable(Reply(w, c, p))
  {
  }

  lemma NotifyDecodable(w: World, r: RoomId, c: ConnId, order: seq<ConnId>)
    requires Decodable(w) && r in w.rooms && c in w.conns
    ensures Decodable(NotifyUserJoined(w, r, c, order))
  {
    hide ListProfiles, ListIds, IdList, ToBe;
    if !w.rooms[r].closed && c in w.rooms[r].participants {
      var room := w.rooms[r];
      BroadcastDecodable(w, room.participants.Keys, c, Packet(PartnerJoin, room.participants[c].profile.userId, []));
      ListedProfilesNeutral(order, room.participants, c);
      IdListSize(ListIds(order, room.participants, c));
    }
  }

  lemma LobbyDecodable(w: World, cfg: Config, c: ConnId, packet: Packet, draws: seq<u32>, order: seq<ConnId>)
    requires ValidConfig(cfg) && Decodable(w) && c in w.conns
    ensures Decodable(HandleLobby(w, cfg, c, packet, draws, order))
  {
    hide CloseConn, NotifyUserJoined, ReadU32, ToBe, ParseOptions, AllocateRoomId;
    CloseConnDecodable(w, c);
    if packet.kind == JoinMeeting && |packet.payload| >= 4 && ReadU32(packet.payload) in w.rooms {
      var r := ReadU32(packet.payload);
      var room := w.rooms[r];
      var newcomer := Participant(Profile(packet.userId, [], []), false);
      var w1 := w.(rooms := w.rooms[r := room.(participants := Emplace(room.participants, c, newcomer))],
                   connRoom := Emplace(w.connRoom, c, r));
      ReplyDecodable(w1, c, JoinReply(r));
      NotifyDecodable(Reply(w1, c, JoinReply(r)), r, c, order);
    }
  }

  lemma NextDecodable(w: World, cfg: Config, e: Event)
    requires ValidConfig(cfg) && Decodable(w) && Enabled(w, e)
    ensures Decodable(Next(w, cfg, e))
  {
    hide CloseConn, HandlePacket, HandleLobby, Enumerates;
    match e
    case Deliver(c, decoded, draws, order) =>
      CloseConnDecodable(w, c);
      if decoded.Ok? {
        LobbyDecodable(w, cfg, c, decoded.packet, draws, order);
        if c in w.connRoom && w.connRoom[c] in w.rooms {
          PacketDecodable(w, w.connRoom[c], c, decoded.packet);
        }
      }
    case PeerClose(c) => CloseConnDecodable(w, c);
    case _ =>
  }

  lemma {:induction false} RunDecodable(cfg: Config, events: seq<Event>)
    requires ValidConfig(cfg) && Run(INITIAL, cfg, events).Some?
    ensures Decodable(Run(INITIAL, cfg, events).value)
  {
    if events != [] {
      hide Next, Enabled;
      var n := |events| - 1;
      RunDecodable(cfg, events[..n]);
      NextDecodable(Run(INITIAL, cfg, events[..n]).value, cfg, events[n]);
    }
  }

  // What the packets say

  /** The id is the user's if a client can read that. */
  predicate Names(id: qint64, userId: u64) {
    id == ToSigned(userId) <==> Readable(userId)
  }

  /** What a client must make of a packet, by its kind. */
  ghost predicate Says(p: Packet, m: C.ClientMessage) {
    match p.kind
    case CreateMeetingResponse => m.CreateResult? && BigEndian(p.payload, m.roomNo)
    case JoinMeetingResponse => m.JoinResult? && exists n: u32 :: BigEndian(p.payload, n) && Verdict(m.verdict, n)
    case PartnerJoin2 => exists ids: seq<u64> :: p.payload == IdList(ids) && m == C.Partners(SignedIds(ids))
    case PartnerJoin => m.Joined? && Names(m.userId, p.userId)
    case PartnerExit => m.Exited? && Names(m.userId, p.userId)
    case CloseCamera => m.CameraClosed? && Names(m.userId, p.userId)
    case TextRecv => m.Text? && Names(m.userId, p.userId) && m.text == p.payload
    case RoomSettingsNotify => m.SettingsNotice? && BigEndian(p.payload, m.flags)
    case UserProfile =>
      m.ProfileNotice? && DecodeUserProfile(p.payload, ClientReceived(p.userId)) == Some(m.profile)
    case _ => false
  }

  lemma SignedNames(userId: u64)
    ensures Names(ToSigned(ClientReceived(userId)), userId)
  {
    hide Readable, ClientReceived;
    ClientReceivedExact(userId);
  }

  /** The client passes over such a packet only if it is a profile that does not parse, and else reads what it says. */
  lemma ReadSays(p: Packet)
    requires Sendable(p)
    ensures match C.Read(p)
            case None => p.kind == UserProfile && DecodeUserProfile(p.payload, p.userId).None?
            case Some(m) => Says(p, m)
  {
    hide ReadU32, ReadJoinReply, DecodeUserProfile, ReadIds, SignedIds, C.Read, ClientReceived, Readable, ToSigned;
    hide BigEndian, Verdict, Names;
    C.ReadAs(p);
    SignedNames(p.userId);
    match p.kind
    case CreateMeetingResponse => ReadCreated(p);
    case JoinMeetingResponse =>
      BigEndianRead(p.payload);
      WholeNumber(p.payload);
      ReadJoined(p, FromBe(p.payload));
    case PartnerJoin2 => ListIdRoundTrip(p.payload);
    case RoomSettingsNotify =>
      ReadsBigEndian(p.payload);
      assert p.payload[..4] == p.payload;
    case UserProfile =>
      ClientReceivedExact(p.userId);
      C.OtherSender(p.payload, p.userId, ClientReceived(p.userId));
    case _ =>
  }

  lemma WholeNumber(s: seq<byte>)
    requires |s| == 4
    ensures FromBe(s) < U32_SIZE
  {
    FromBeBound(s);
    Pow256Values();
  }

  /**
   In every run, every packet sent is read by its client as what it says, unless it is a profile that does not
   parse.
  */
  lemma EveryRunDecodable(cfg: Config, events: seq<Event>, c: ConnId, p: Packet)
    requires ValidConfig(cfg) && Run(INITIAL, cfg, events).Some?
    requires c in Run(INITIAL, cfg, events).value.conns && p in Run(INITIAL, cfg, events).value.conns[c].sent
    ensures match C.Read(p)
            case None => p.kind == UserProfile && DecodeUserProfile(p.payload, p.userId).None?
            case Some(m) => Says(p, m)
  {
    hide Run, C.Read, DecodeUserProfile, Says;
    RunDecodable(cfg, events);
    assert Sendable(p);
    ReadSays(p);
  }

  // Texts

  /**
   A text yields one message at the client of each other open participant and nothing elsewhere: its own words,
   under the sender's id if and only if a client can read that id.
  */
  lemma TextRead(w: World, cfg: Config, c: ConnId, packet: Packet, d: ConnId)
    requires Inv(w, cfg) && InRoom(w, c) && packet.kind == TextSend && d in w.conns
    ensures var r := w.connRoom[c];
            var userId := w.rooms[r].participants[c].profile.userId;
            var w' := HandlePacket(w, r, c, packet);
            && d in w'.conns
            && if d == c || d !in OpenMembers(w, r) then w'.conns[d] == w.conns[d]
               else
                 var text := Packet(TextRecv, userId, packet.payload);
                 && w'.conns[d] == w.conns[d].Receive([text])
                 && C.Read(text) == Some(C.Text(ToSigned(ClientReceived(userId)), packet.payload))
                 && (ToSigned(ClientReceived(userId)) == ToSigned(userId) <==> Readable(userId))
  {
    hide HandlePacket, RoomOk, C.Read, ClientReceived, Readable;
    var userId := w.rooms[w.connRoom[c]].participants[c].profile.userId;
    TextReaches(w, cfg, c, packet, d);
    C.ReadAs(Packet(TextRecv, userId, packet.payload));
    ClientReceivedExact(userId);
  }

  /** The notice that a camera was closed: the same, without words. */
  lemma CameraRead(w: World, cfg: Config, c: ConnId, packet: Packet, d: ConnId)
    requires Inv(w, cfg) && InRoom(w, c) && packet.kind == CloseCamera && d in w.conns
    ensures var r := w.connRoom[c];
            var userId := w.rooms[r].participants[c].profile.userId;
            var w' := HandlePacket(w, r, c, packet);
            && d in w'.conns && w' == w.(conns := w'.conns)
            && if d == c || d !in OpenMembers(w, r) then w'.conns[d] == w.conns[d]
               else
                 var notice := Packet(CloseCamera, userId, []);
                 && w'.conns[d] == w.conns[d].(sent := w.conns[d].sent + [notice])
                 && C.Read(notice).Some? && C.Read(notice).value.CameraClosed?
                 && Names(C.Read(notice).value.userId, userId)
  {
    hide HandlePacket, RoomOk, C.Read, ClientReceived, Readable, Names;
    var userId := w.rooms[w.connRoom[c]].participants[c].profile.userId;
    CameraReaches(w, cfg, c, packet, d);
    C.ReadAs(Packet(CloseCamera, userId, []));
    SignedNames(userId);
  }

  /** A profile becomes the sender's cached one, and the clients of the other open members read just that. */
  lemma ProfileRelayed(w: World, cfg: Config, c: ConnId, p: Profile, userId: u64, d: ConnId)
    requires Inv(w, cfg) && InRoom(w, c) && d in w.conns && |p.name| < 0x1_0000 && |p.avatar| < 0x1_0000
    ensures var r := w.connRoom[c];
            var w' := HandlePacket(w, r, c, Packet(UserProfile, userId, ProfilePayload(p)));
            && d in w'.conns && r in w'.rooms && c in w'.rooms[r].participants
            && w'.rooms[r].participants[c].profile == p
            && if d == c || d !in OpenMembers(w, r) then w'.conns[d] == w.conns[d]
               else
                 var relayed := Packet(UserProfile, p.userId, ProfilePayload(p));
                 && w'.conns[d] == w.conns[d].(sent := w.conns[d].sent + [relayed])
                 && (C.Read(relayed) == Some(C.ProfileNotice(p)) <==> Readable(p.userId))
  {
    hide HandlePacket, RoomOk, C.Read, Readable, ProfilePayload;
    ProfileReaches(w, cfg, c, p, userId, d);
    C.ProfileRead(p);
  }

  // Settings

  /** The flags in the last settings notice the client reads. */
  ghost function LastFlags(sent: seq<Packet>): Option<u32> {
    if sent == [] then None
    else
      var n := |sent| - 1;
      match C.Read(sent[n])
      case Some(SettingsNotice(flags)) => Some(flags)
      case _ => LastFlags(sent[..n])
  }

  lemma ReadSettings(p: Packet)
    requires Sendable(p)
    ensures p.kind == RoomSettingsNotify ==> C.Read(p) == Some(C.SettingsNotice(ReadU32(p.payload)))
    ensures p.kind != RoomSettingsNotify ==> C.Read(p).None? || !C.Read(p).value.SettingsNotice?
  {
    hide ReadU32, ReadJoinReply, DecodeUserProfile, ReadIds, SignedIds, C.Read, ClientReceived;
    C.ReadAs(p);
  }

  lemma {:induction false} FlagsRead(sent: seq<Packet>)
    requires forall p :: p in sent ==> Sendable(p)
    ensures LastFlags(sent) == LastSettings(sent)
  {
    if sent != [] {
      hide C.Read, ReadU32;
      var n := |sent| - 1;
      FlagsRead(sent[..n]);
      ReadSettings(sent[n]);
    }
  }

  /**
   In every run, the last settings notice an open participant's client has read carries its room's current flags;
   an owner that has read none is at the default.
  */
  lemma EveryRunClientSettings(cfg: Config, events: seq<Event>, c: ConnId)
    requires ValidConfig(cfg) && Run(INITIAL, cfg, events).Some?
    requires InRoom(Run(INITIAL, cfg, events).value, c) && Run(INITIAL, cfg, events).value.conns[c].Open()
    ensures var w := Run(INITIAL, cfg, events).value;
            var room := w.rooms[w.connRoom[c]];
            || LastFlags(w.conns[c].sent) == Some(room.settings)
            || (LastFlags(w.conns[c].sent) == None && room.participants[c].isOwner && room.settings == SETTINGS_DEFAULT)
  {
    hide Run, LastFlags, LastSettings, RoomOk;
    EveryRunGood(cfg, events);
    RunDecodable(cfg, events);
    var w := Run(INITIAL, cfg, events).value;
    FlagsRead(w.conns[c].sent);
    assert SettingOk(w, c);
  }
}
