/** What single events of the meeting protocol do to the people in a room. */
module MeetingEffects {
  import opened Options
  import opened Bytes
  import opened Wire
  import opened Framing
  import opened Meeting
  import opened MeetingInvariants
  import opened MeetingProofs
  import opened MeetingRuns
  import opened ServerSteps
  import opened Doubles
  import C = ClientReceive

  // Opening a room

  /** What the client's creation payload asks for is what the room gets, as far as the limits allow. */
  lemma OptionsHonoured(participants: u32, minutes: u32, cfg: Config)
    requires ValidConfig(cfg)
    ensures var options := ParseOptions(ToBe(4, participants) + ToBe(4, minutes), cfg);
            && (MIN_PARTICIPANTS <= participants <= HardMax(cfg) ==> options.maxParticipants == participants)
            && (MIN_DURATION_MINUTES <= minutes <= MAX_DURATION_MINUTES ==> options.durationMinutes == minutes)
            && (participants > HardMax(cfg) ==> options.maxParticipants == HardMax(cfg))
  {
    hide ReadU32, ToBe;
    var payload := ToBe(4, participants) + ToBe(4, minutes);
    ReadWrittenU32(participants);
    ReadWrittenU32(minutes);
    ReadHead(ToBe(4, participants), ToBe(4, minutes));
    assert payload[4..] == ToBe(4, minutes);
  }

  lemma ReadHead(a: seq<byte>, b: seq<byte>)
    requires |a| == 4
    ensures ReadU32(a + b) == ReadU32(a)
  {
    assert (a + b)[..4] == a[..4];
  }

  // Relaying

  /** A text reaches every other open participant of the sender's room once, under the sender's id, and nobody else. */
  lemma TextReaches(w: World, cfg: Config, c: ConnId, packet: Packet, d: ConnId)
    requires Inv(w, cfg) && InRoom(w, c) && packet.kind == TextSend && d in w.conns
    ensures var r := w.connRoom[c];
            var text := Packet(TextRecv, w.rooms[r].participants[c].profile.userId, packet.payload);
            var w' := HandlePacket(w, r, c, packet);
            && d in w'.conns
            && w'.conns[d] == (if d != c && d in OpenMembers(w, r) then w.conns[d].Receive([text]) else w.conns[d])
            && w' == w.(conns := w'.conns)
  {
    assert RoomOk(w.rooms[w.connRoom[c]], cfg);
  }

  /** And so does the notice that a camera was closed. */
  lemma CameraReaches(w: World, cfg: Config, c: ConnId, packet: Packet, d: ConnId)
    requires Inv(w, cfg) && InRoom(w, c) && packet.kind == CloseCamera && d in w.conns
    ensures var r := w.connRoom[c];
            var notice := Packet(CloseCamera, w.rooms[r].participants[c].profile.userId, []);
            var w' := HandlePacket(w, r, c, packet);
            && d in w'.conns
            && w'.conns[d] == (if d != c && d in OpenMembers(w, r) then w.conns[d].Receive([notice]) else w.conns[d])
            && w' == w.(conns := w'.conns)
  {
    assert RoomOk(w.rooms[w.connRoom[c]], cfg);
  }

  /** A profile replaces the sender's cached one and reaches the others under its own id. */
  lemma ProfileReaches(w: World, cfg: Config, c: ConnId, p: Profile, userId: u64, d: ConnId)
    requires Inv(w, cfg) && InRoom(w, c) && d in w.conns && |p.name| < 0x1_0000 && |p.avatar| < 0x1_0000
    ensures var r := w.connRoom[c];
            var w' := HandlePacket(w, r, c, Packet(UserProfile, userId, ProfilePayload(p)));
            var relayed := Packet(UserProfile, p.userId, ProfilePayload(p));
            && d in w'.conns
            && w'.conns[d] == (if d != c && d in OpenMembers(w, r) then w.conns[d].Receive([relayed]) else w.conns[d])
            && w'.connRoom == w.connRoom && w'.rooms == w.rooms[r := w'.rooms[r]]
            && w'.rooms[r] == w.rooms[r].(participants := w'.rooms[r].participants)
            && w'.rooms[r].participants
               == w.rooms[r].participants[c := Participant(p, w.rooms[r].participants[c].isOwner)]
  {
    hide RoomOk, ProfilePayload, HandlePacket, ApplyProfile;
    ProfileCached(w.rooms[w.connRoom[c]].participants[c].profile, p);
    ProfileShape(w, cfg, c, Packet(UserProfile, userId, ProfilePayload(p)));
  }

  /** An owner's flags become the room's and reach every open member, the owner included; anybody else's are ignored. */
  lemma SettingsReach(w: World, cfg: Config, c: ConnId, packet: Packet, flags: u32, d: ConnId)
    requires Inv(w, cfg) && InRoom(w, c) && packet.kind == RoomSettings && d in w.conns
    requires |packet.payload| >= 4 && BigEndian(packet.payload[..4], flags)
    ensures var r := w.connRoom[c];
            var w' := HandlePacket(w, r, c, packet);
            if !w.rooms[r].participants[c].isOwner then w' == w
            else
              && d in w'.conns && w'.connRoom == w.connRoom
              && w'.rooms == w.rooms[r := w.rooms[r].(settings := flags)]
              && if d !in OpenMembers(w, r) then w'.conns[d] == w.conns[d]
                 else
                   |w'.conns[d].sent| == |w.conns[d].sent| + 1
                   && w'.conns[d] == w.conns[d].(sent := w'.conns[d].sent) && w.conns[d].sent <= w'.conns[d].sent
                   && C.Read(w'.conns[d].sent[|w.conns[d].sent|]) == Some(C.SettingsNotice(flags))
  {
    hide RoomOk, C.Read, ReadU32, ToBe, HandlePacket, BigEndian;
    var r := w.connRoom[c];
    ReadsBigEndian(packet.payload);
    SameNumber(packet.payload[..4], flags, ReadU32(packet.payload));
    SettingsShape(w, cfg, c, packet);
    var notice := Packet(RoomSettingsNotify, w.rooms[r].participants[c].profile.userId, ToBe(4, flags));
    ReadWrittenU32(flags);
    NoticeRead(notice);
  }

  lemma SameNumber(s: seq<byte>, a: int, b: int)
    requires BigEndian(s, a) && BigEndian(s, b)
    ensures a == b
  {
  }

  lemma NoticeRead(p: Packet)
    requires p.kind == RoomSettingsNotify && |p.payload| >= 4
    ensures C.Read(p) == Some(C.SettingsNotice(ReadU32(p.payload)))
  {
    hide C.Read, ReadU32, ClientReceived;
    C.ReadAs(p);
  }

  /** What a participant sends never touches a connection outside its room. */
  lemma PacketsStayInside(w: World, cfg: Config, c: ConnId, packet: Packet, d: ConnId)
    requires Inv(w, cfg) && InRoom(w, c) && d in w.conns && !(d in w.connRoom && w.connRoom[d] == w.connRoom[c])
    ensures var w' := HandlePacket(w, w.connRoom[c], c, packet);
            && d in w'.conns && w'.conns[d] == w.conns[d]
            && forall s :: s in w.rooms && s != w.connRoom[c] ==> s in w'.rooms && w'.rooms[s] == w.rooms[s]
  {
    hide RoomOk, ApplyProfile, ReadU32, ToBe;
  }

  // Ending a room

  /** The room has ended: it and its map entries are gone and no former member is open. */
  ghost predicate Ended(w: World, w': World, r: RoomId)
    requires r in w.rooms
  {
    && w'.rooms == w.rooms - {r}
    && (forall d :: d in w'.connRoom ==> w'.connRoom[d] != r)
    && (forall d :: d in w.rooms[r].participants ==> d in w'.conns && !w'.conns[d].Open())
  }

  /** Nobody was sent anything, and exactly the connections in d were closed, each by one more handler run. */
  ghost predicate SilentlyClosed(w: World, w': World, d: set<ConnId>) {
    && w'.conns.Keys == w.conns.Keys
    && forall c :: c in w.conns ==>
         && w'.conns[c].sent == w.conns[c].sent
         && (c in d ==> !w.conns[c].closed && w'.conns[c].closed && w'.conns[c].closeEvents == 1)
         && (c !in d ==> w'.conns[c] == w.conns[c])
  }

  lemma DrainedEnds(w: World, r: RoomId, d: set<ConnId>)
    requires Agree(w) && ConnsOk(w) && r in w.rooms && OpenMembers(w, r) <= d <= w.rooms[r].participants.Keys
    ensures Ended(w, Drained(w, r, d), r) && SilentlyClosed(w, Drained(w, r, d), d)
  {
  }

  lemma OpenMembersAre(w: World, r: RoomId)
    requires Agree(w) && ConnsOk(w) && r in w.rooms
    ensures forall d :: d in w.rooms[r].participants ==>
              d in w.conns && !w.conns[d].closed && (d in OpenMembers(w, r) <==> w.conns[d].socketOpen)
  {
  }

  /**
   The owner's connection closing ends the room, without a single exit notice. Its close handler runs, and so do
   those of exactly the members whose socket is still there: one whose socket was lost is only unmapped.
  */
  lemma OwnerCloseEnds(w: World, cfg: Config, c: ConnId)
    requires Inv(w, cfg) && InRoom(w, c) && w.rooms[w.connRoom[c]].participants[c].isOwner
    ensures Ended(w, CloseConn(w, c), w.connRoom[c])
    ensures SilentlyClosed(w, CloseConn(w, c), OpenMembers(w, w.connRoom[c]) + {c})
    ensures forall d :: d in w.rooms[w.connRoom[c]].participants ==>
              (CloseConn(w, c).conns[d].closed <==> d == c || w.conns[d].socketOpen)
  {
    hide CloseConn, RoomOk;
    OwnerCloseShape(w, cfg, c);
    OpenMembersAre(w, w.connRoom[c]);
    DrainedEnds(w, w.connRoom[c], OpenMembers(w, w.connRoom[c]) + {c});
  }

  /** So does the room's timer. */
  lemma ExpireEnds(w: World, cfg: Config, r: RoomId)
    requires Inv(w, cfg) && r in w.rooms
    ensures Ended(w, CloseRoom(w, r), r)
    ensures SilentlyClosed(w, CloseRoom(w, r), OpenMembers(w, r))
    ensures forall d :: d in w.rooms[r].participants ==>
              (CloseRoom(w, r).conns[d].closed <==> w.conns[d].socketOpen)
  {
    hide CloseRoom, RoomOk;
    ExpireShape(w, cfg, r);
    OpenMembersAre(w, r);
    DrainedEnds(w, r, OpenMembers(w, r));
  }

  /** Any other member's closing leaves the room standing, and tells exactly the open others. */
  lemma MemberCloseTells(w: World, cfg: Config, c: ConnId)
    requires Inv(w, cfg) && InRoom(w, c) && !w.rooms[w.connRoom[c]].participants[c].isOwner
    ensures var r := w.connRoom[c];
            var w' := CloseConn(w, c);
            var exit := Packet(PartnerExit, w.rooms[r].participants[c].profile.userId, []);
            && w'.rooms == w.rooms[r := w.rooms[r].(participants := w.rooms[r].participants - {c})]
            && w'.connRoom == w.connRoom - {c} && w'.conns.Keys == w.conns.Keys
            && w'.conns[c] == w.conns[c].MarkClosed()
            && forall d :: d in w.conns && d != c ==>
                 w'.conns[d] == if d in OpenMembers(w, r) then w.conns[d].Receive([exit]) else w.conns[d]
  {
    MemberCloseShape(w, cfg, c);
  }

  // Who changes settings

  /** A room's flags change only through a settings packet from that room's owner. */
  lemma OnlyOwnerSets(w: World, cfg: Config, e: Event, r: RoomId)
    requires ValidConfig(cfg) && Good(w, cfg) && Enabled(w, e)
    requires r in w.rooms && r in Next(w, cfg, e).rooms && Next(w, cfg, e).rooms[r].settings != w.rooms[r].settings
    ensures e.Deliver? && e.decoded.Ok? && e.decoded.packet.kind == RoomSettings
    ensures InRoom(w, e.c) && w.connRoom[e.c] == r && w.rooms[r].participants[e.c].isOwner
    ensures |e.decoded.packet.payload| >= 4 && Next(w, cfg, e).rooms[r].settings == ReadU32(e.decoded.packet.payload)
  {
    hide CloseConn, CloseRoom, RoomOk, SettingsOk, LobbyOk, HandleLobby;
    if !e.Deliver? || e.decoded.Invalid? || !w.conns[e.c].Open() {
      SameSettings(w, cfg, e, r);
    } else if e.c !in w.connRoom {
      LobbySameSettings(w, cfg, e.c, e.decoded.packet, e.draws, e.order, r);
    } else if e.decoded.packet.kind == UserProfile {
      ProfileShape(w, cfg, e.c, e.decoded.packet);
    } else if e.decoded.packet.kind == RoomSettings {
      SettingsShape(w, cfg, e.c, e.decoded.packet);
    } else {
      var _ := RelayShape(w, cfg, e.c, e.decoded.packet);
    }
  }

  lemma CloseSameSettings(w: World, cfg: Config, c: ConnId, r: RoomId)
    requires Inv(w, cfg) && c in w.conns && r in w.rooms && r in CloseConn(w, c).rooms
    ensures CloseConn(w, c).rooms[r].settings == w.rooms[r].settings
  {
  }

  lemma SameSettings(w: World, cfg: Config, e: Event, r: RoomId)
    requires ValidConfig(cfg) && Good(w, cfg) && Enabled(w, e)
    requires !e.Deliver? || e.decoded.Invalid? || !w.conns[e.c].Open()
    requires r in w.rooms && r in Next(w, cfg, e).rooms
    ensures Next(w, cfg, e).rooms[r].settings == w.rooms[r].settings
  {
    match e
    case Deliver(c, _, _, _) =>
      if w.conns[c].Open() {
        CloseSameSettings(w, cfg, c, r);
      }
    case PeerClose(c) => CloseSameSettings(w, cfg, c, r);
    case _ =>
  }

  lemma LobbySameSettings(w: World, cfg: Config, c: ConnId, packet: Packet, draws: seq<u32>, order: seq<ConnId>,
                          r: RoomId)
    requires ValidConfig(cfg) && Good(w, cfg) && c in w.conns && w.conns[c].Open() && c !in w.connRoom
    requires r in w.rooms && r in HandleLobby(w, cfg, c, packet, draws, order).rooms
    ensures HandleLobby(w, cfg, c, packet, draws, order).rooms[r].settings == w.rooms[r].settings
  {
    hide CloseConn, RoomOk, AllocateRoomId, ReadU32, WelcomePackets, ParseOptions, SettingsOk, LobbyOk;
    if packet.kind == CreateMeeting {
      if packet.userId == 0 {
        CloseSameSettings(w, cfg, c, r);
      } else if |w.rooms| < cfg.maxRooms {
        var _ := CreateShape(w, cfg, c, packet, draws);
      }
    } else if packet.kind == JoinMeeting {
      if |packet.payload| < 4 || packet.userId == 0 {
        CloseSameSettings(w, cfg, c, r);
      } else if Admitted(w, packet) {
        JoinShape(w, cfg, c, packet, order);
      } else {
        var _ := RefusedShape(w, cfg, c, packet, order);
      }
    } else {
      CloseSameSettings(w, cfg, c, r);
    }
  }

  // Profiles for newcomers

  /** The listed participants whose profile a newcomer is sent. */
  ghost function Cached(order: seq<ConnId>, parts: map<ConnId, Participant>, newcomer: ConnId): set<ConnId> {
    set d | d in order && d in parts && d != newcomer && Resent(parts[d].profile)
  }

  lemma {:induction false} ProfilesListed(order: seq<ConnId>, parts: map<ConnId, Participant>, newcomer: ConnId,
                                          packet: Packet)
    ensures packet in ListProfiles(order, parts, newcomer)
            <==> exists d :: d in Cached(order, parts, newcomer) && packet == ProfilePacket(parts[d].profile)
  {
    hide Resent;
    if order != [] {
      var n := |order| - 1;
      ProfilesListed(order[..n], parts, newcomer, packet);
      assert order == order[..n] + [order[n]];
      if packet in ListProfiles(order, parts, newcomer) && packet !in ListProfiles(order[..n], parts, newcomer) {
        assert order[n] in Cached(order, parts, newcomer);
      }
    }
  }

  lemma {:induction false} ProfilesCounted(order: seq<ConnId>, parts: map<ConnId, Participant>, newcomer: ConnId)
    requires forall i, j :: 0 <= i < j < |order| ==> order[i] != order[j]
    ensures |ListProfiles(order, parts, newcomer)| == |Cached(order, parts, newcomer)|
  {
    hide Resent;
    if order != [] {
      var n := |order| - 1;
      var before, last := Cached(order[..n], parts, newcomer), order[n];
      ProfilesCounted(order[..n], parts, newcomer);
      assert order == order[..n] + [last];
      assert last !in order[..n];
      if last == newcomer || last !in parts || !Resent(parts[last].profile) {
        assert Cached(order, parts, newcomer) == before;
      } else {
        assert Cached(order, parts, newcomer) == before + {last};
      }
    }
  }

  /** What this join appends to the newcomer's packets. */
  ghost function Added(w: World, r: RoomId, c: ConnId, p: Participant, order: seq<ConnId>): seq<Packet>
    requires r in w.rooms && !w.rooms[r].closed && c in w.conns && w.conns[c].Open()
  {
    JoinedShape(w, r, c, p, order);
    Joined(w, r, c, p, order).conns[c].sent[|w.conns[c].sent|..]
  }

  lemma AddedShape(w: World, r: RoomId, c: ConnId, p: Participant, order: seq<ConnId>)
    requires r in w.rooms && !w.rooms[r].closed && c in w.conns && w.conns[c].Open()
    ensures var room' := w.rooms[r].(participants := w.rooms[r].participants[c := p]);
            && Joined(w, r, c, p, order).conns[c].sent == w.conns[c].sent + Added(w, r, c, p, order)
            && Added(w, r, c, p, order) == [JoinReply(r)] + WelcomePackets(order, room', c)
  {
    JoinedShape(w, r, c, p, order);
  }

  /** A profile worth sending: under an id, and with a name or an avatar. */
  predicate Complete(p: Profile) {
    p.userId != 0 && (|p.name| > 0 || |p.avatar| > 0)
  }

  /** The participants whose profile a newcomer must be sent. */
  ghost function Completed(parts: map<ConnId, Participant>): set<ConnId> {
    set d | d in parts && Complete(parts[d].profile)
  }

  /** They are the room's participants with a complete profile. */
  lemma CachedAre(w: World, r: RoomId, c: ConnId, p: Participant, order: seq<ConnId>)
    requires r in w.rooms && c !in w.rooms[r].participants
    requires Enumerates(order, w.rooms[r].participants.Keys + {c})
    ensures Cached(order, w.rooms[r].participants[c := p], c)
            == Completed(w.rooms[r].participants)
  {
  }

  /** The profile packets of a welcome are its tail. */
  lemma TailProfiles(head: seq<Packet>, profiles: seq<Packet>, packet: Packet)
    requires forall q :: q in head ==> q.kind != UserProfile
    requires forall q :: q in profiles ==> q.kind == UserProfile
    ensures packet in head + profiles && packet.kind == UserProfile <==> packet in profiles
  {
  }

  ghost function WelcomeHead(r: RoomId, order: seq<ConnId>, room: Room, c: ConnId): (head: seq<Packet>)
    ensures |head| == 3 && forall q :: q in head ==> q.kind != UserProfile
  {
    [JoinReply(r), Packet(PartnerJoin2, 0, IdList(ListIds(order, room.participants, c))),
     Packet(RoomSettingsNotify, 0, ToBe(4, room.settings))]
  }

  lemma AddedParts(w: World, r: RoomId, c: ConnId, p: Participant, order: seq<ConnId>)
    requires r in w.rooms && !w.rooms[r].closed && c in w.conns && w.conns[c].Open()
    ensures var room' := w.rooms[r].(participants := w.rooms[r].participants[c := p]);
            && Joined(w, r, c, p, order).conns[c].sent == w.conns[c].sent + Added(w, r, c, p, order)
            && Added(w, r, c, p, order)
               == WelcomeHead(r, order, room', c) + ListProfiles(order, room'.participants, c)
  {
    hide ListIds, ListProfiles, ToBe, IdList;
    AddedShape(w, r, c, p, order);
  }

  /**
   The profile packets a join adds for the newcomer are exactly those of the participants with a cached profile,
   one each.
  */
  lemma NewcomerProfiles(w: World, r: RoomId, c: ConnId, p: Participant, order: seq<ConnId>, packet: Packet)
    requires r in w.rooms && !w.rooms[r].closed && c in w.conns && w.conns[c].Open() && c !in w.rooms[r].participants
    requires Enumerates(order, w.rooms[r].participants.Keys + {c})
    ensures var parts := w.rooms[r].participants;
            var cached := Completed(parts);
            var added := Added(w, r, c, p, order);
            && Joined(w, r, c, p, order).conns[c].sent == w.conns[c].sent + added
            && |added| == 3 + |cached|
            && (packet in added && packet.kind == UserProfile
                <==> exists d :: d in cached && packet == ProfilePacket(parts[d].profile))
  {
    hide Joined, ListProfiles, Added, Cached, Complete, WelcomeHead, ProfilePacket;
    var room' := w.rooms[r].(participants := w.rooms[r].participants[c := p]);
    AddedParts(w, r, c, p, order);
    CachedAre(w, r, c, p, order);
    ProfilesCounted(order, room'.participants, c);
    ListedProfilesNeutral(order, room'.participants, c);
    ProfilesListed(order, room'.participants, c, packet);
    TailProfiles(WelcomeHead(r, order, room', c), ListProfiles(order, room'.participants, c), packet);
  }

  /**
   Of what an admitted join adds for the newcomer, the profile packets are exactly those of the participants with a
   complete profile, one each; and its client reads each as the cached id, name and avatar exactly when it can read
   that id.
  */
  lemma NewcomerSeesProfiles(w: World, cfg: Config, c: ConnId, join: Packet, order: seq<ConnId>, packet: Packet)
    requires Inv(w, cfg) && c in w.conns && w.conns[c].Open() && c !in w.connRoom && Admitted(w, join)
    requires Enumerates(order, JoinMembers(w, c, Ok(join)))
    ensures var parts, w' := w.rooms[ReadU32(join.payload)].participants, HandleJoin(w, c, join, order);
            && c in w'.conns && w.conns[c].sent <= w'.conns[c].sent
            && var added := w'.conns[c].sent[|w.conns[c].sent|..];
               && |added| == 3 + |Completed(parts)|
               && (packet in added && packet.kind == UserProfile
                   <==> exists d :: d in Completed(parts) && packet == ProfilePacket(parts[d].profile))
    ensures forall d :: d in w.rooms[ReadU32(join.payload)].participants ==>
              var profile := w.rooms[ReadU32(join.payload)].participants[d].profile;
              C.Read(ProfilePacket(profile)) == Some(C.ProfileNotice(profile)) <==> Readable(profile.userId)
  {
    var r := ReadU32(join.payload);
    var parts := w.rooms[r].participants;
    AdmittedRoom(w, cfg, c, join);
    JoinShape(w, cfg, c, join, order);
    hide Inv, Admitted, Enumerates, Joined, Completed, HandleJoin, ReadU32, Added, ProfilePacket, C.Read, Readable;
    NewcomerProfiles(w, r, c, Newcomer(join.userId), order, packet);
    forall d | d in parts
      ensures C.Read(ProfilePacket(parts[d].profile)) == Some(C.ProfileNotice(parts[d].profile))
              <==> Readable(parts[d].profile.userId)
    {
      ProfileSent(parts[d].profile);
    }
  }

  lemma AdmittedRoom(w: World, cfg: Config, c: ConnId, join: Packet)
    requires Inv(w, cfg) && c !in w.connRoom && Admitted(w, join)
    ensures var room := w.rooms[ReadU32(join.payload)];
            && !room.closed && c !in room.participants
            && JoinMembers(w, c, Ok(join)) == room.participants.Keys + {c}
            && forall d :: d in room.participants ==>
                 |room.participants[d].profile.name| < 0x1_0000 && |room.participants[d].profile.avatar| < 0x1_0000
  {
    assert RoomOk(w.rooms[ReadU32(join.payload)], cfg);
  }

  lemma ProfileSent(p: Profile)
    requires |p.name| < 0x1_0000 && |p.avatar| < 0x1_0000
    ensures C.Read(ProfilePacket(p)) == Some(C.ProfileNotice(p)) <==> Readable(p.userId)
  {
    hide C.Read, Readable, ProfilePayload;
    C.ProfileRead(p);
  }
}
