/** Both ends together: what the client's own decoder makes of everything the server sends it. */
module ClientViews {
  import opened Options
  import opened Bytes
  import opened Wire
  import opened Framing
  import opened Meeting
  import opened MeetingInvariants
  import opened MeetingProofs
  import opened MeetingRuns
  import opened MeetingEffects
  import opened ServerSteps
  import opened Doubles
  import C = ClientReceive

  // The partners a client knows

  ghost function KnownAfter(known: multiset<qint64>, m: Option<C.ClientMessage>): multiset<qint64> {
    match m
    case Some(Partners(ids)) => multiset(ids)
    case Some(Joined(userId)) => known + multiset{userId}
    case Some(Exited(userId)) => known - multiset{userId}
    case _ => known
  }

  /** Replays what the client reads of the packets, over the signed ids it works with. */
  ghost function Known(sent: seq<Packet>): multiset<qint64> {
    if sent == [] then multiset{}
    else
      var n := |sent| - 1;
      KnownAfter(Known(sent[..n]), C.Read(sent[n]))
  }

  lemma KnownAppend(sent: seq<Packet>, p: Packet)
    ensures Known(sent + [p]) == KnownAfter(Known(sent), C.Read(p))
  {
    assert (sent + [p])[..|sent|] == sent;
  }

  /** Two multisets of the same users, as unsigned and as signed numbers. */
  ghost predicate SameUsers(known: multiset<qint64>, ids: multiset<u64>) {
    forall u: u64 :: known[ToSigned(u)] == ids[u]
  }

  lemma CountOneMore<T>(s: seq<T>, x: T, v: T)
    ensures multiset(s + [x])[v] == multiset(s)[v] + if x == v then 1 else 0
  {
  }

  lemma OneToOne(u: u64, v: u64)
    ensures ToSigned(u) == ToSigned(v) <==> u == v
  {
  }

  lemma SignedLast(ids: seq<u64>)
    requires ids != []
    ensures SignedIds(ids) == SignedIds(ids[..|ids| - 1]) + [ToSigned(ids[|ids| - 1])]
  {
  }

  lemma {:induction false} SignedUsers(ids: seq<u64>, u: u64)
    ensures multiset(SignedIds(ids))[ToSigned(u)] == multiset(ids)[u]
  {
    if ids != [] {
      hide ToSigned, SignedIds;
      var n := |ids| - 1;
      SignedUsers(ids[..n], u);
      SignedLast(ids);
      OneToOne(ids[n], u);
      CountOneMore(ids[..n], ids[n], u);
      CountOneMore(SignedIds(ids[..n]), ToSigned(ids[n]), ToSigned(u));
      assert ids == ids[..n] + [ids[n]];
    }
  }

  lemma AddSame(known: multiset<qint64>, ids: multiset<u64>, v: u64)
    requires SameUsers(known, ids)
    ensures SameUsers(known + multiset{ToSigned(v)}, ids + multiset{v})
    ensures SameUsers(known - multiset{ToSigned(v)}, ids - multiset{v})
  {
    forall u: u64
      ensures (known + multiset{ToSigned(v)})[ToSigned(u)] == (ids + multiset{v})[u]
      ensures (known - multiset{ToSigned(v)})[ToSigned(u)] == (ids - multiset{v})[u]
    {
      assert known[ToSigned(u)] == ids[u];
    }
  }

  lemma ListSame(ids: seq<u64>)
    ensures SameUsers(multiset(SignedIds(ids)), multiset(ids))
  {
    forall u: u64
      ensures multiset(SignedIds(ids))[ToSigned(u)] == multiset(ids)[u]
    {
      SignedUsers(ids, u);
    }
  }

  /** What one packet does to the partners known, by its kind. */
  lemma ReadStep(known: multiset<qint64>, p: Packet)
    ensures KnownAfter(known, C.Read(p))
            == if p.kind == PartnerJoin2 then multiset(SignedIds(ReadIds(p.payload)))
               else if p.kind == PartnerJoin then known + multiset{ToSigned(ClientReceived(p.userId))}
               else if p.kind == PartnerExit then known - multiset{ToSigned(ClientReceived(p.userId))}
               else known
  {
    hide ReadU32, ReadJoinReply, DecodeUserProfile, ReadIds, SignedIds, ToSigned, ClientReceived, C.Read;
    C.ReadAs(p);
    if p.kind == UserProfile {
      assert KnownAfter(known, C.Read(p)) == known;
    }
  }

  // Packets that reach the client as they are

  /** Joins and exits name their user in the document's number, the list does in its payload. */
  predicate Plain(p: Packet) {
    p.kind == PartnerJoin || p.kind == PartnerExit ==> Readable(p.userId)
  }

  ghost predicate InStep(sent: seq<Packet>) {
    SameUsers(Known(sent), Replay(sent))
  }

  lemma StepSameUsers(known: multiset<qint64>, ids: multiset<u64>, p: Packet)
    requires SameUsers(known, ids) && Plain(p)
    ensures SameUsers(KnownAfter(known, C.Read(p)), ReplayOne(ids, p))
  {
    hide C.Read, KnownAfter, ReadIds, SignedIds, SameUsers, ClientReceived, Readable;
    ReadStep(known, p);
    ClientReceivedExact(p.userId);
    AddSame(known, ids, p.userId);
    ListSame(ReadIds(p.payload));
  }

  lemma OneInStep(sent: seq<Packet>, p: Packet)
    requires InStep(sent) && Plain(p)
    ensures InStep(sent + [p])
  {
    hide C.Read, ReplayOne, KnownAfter, Plain, SameUsers;
    KnownAppend(sent, p);
    ReplayAppend(sent, p);
    StepSameUsers(Known(sent), Replay(sent), p);
  }

  /** Over packets that reach it as they are, reading and replaying at the client agrees with replaying the packets. */
  lemma {:induction false} ClientReplays(sent: seq<Packet>, more: seq<Packet>)
    requires InStep(sent) && forall p :: p in more ==> Plain(p)
    ensures InStep(sent + more)
  {
    hide InStep, Plain;
    if more == [] {
      assert sent + more == sent;
    } else {
      var n := |more| - 1;
      ClientReplays(sent, more[..n]);
      OneInStep(sent + more[..n], more[n]);
      assert sent + more == sent + more[..n] + [more[n]];
    }
  }

  // Client views

  /** An open participant's client knows exactly the other participants of its room. */
  ghost predicate ClientViewOk(w: World, c: ConnId)
    requires c in w.conns
  {
    w.conns[c].Open() && c in w.connRoom && w.connRoom[c] in w.rooms ==>
      SameUsers(Known(w.conns[c].sent), OthersIds(w.rooms[w.connRoom[c]].participants, c))
  }

  ghost predicate ClientViewsOk(w: World) {
    forall c :: c in w.conns ==> ClientViewOk(w, c)
  }

  lemma SameOnlyOne(known: multiset<qint64>, a: multiset<u64>, b: multiset<u64>)
    requires SameUsers(known, a) && SameUsers(known, b)
    ensures a == b
  {
    forall u: u64
      ensures a[u] == b[u]
    {
      assert known[ToSigned(u)] == a[u];
    }
  }

  ghost predicate AllInStep(w: World) {
    forall c :: c in w.conns && w.conns[c].Open() ==> InStep(w.conns[c].sent)
  }

  /** With right views, the clients' views are right exactly when every open client is in step with its packets. */
  lemma StepsAreViews(w: World, cfg: Config)
    requires Good(w, cfg) && ViewsOk(w)
    ensures ClientViewsOk(w) <==> AllInStep(w)
  {
    hide SameUsers, Known, Replay, OthersIds, RoomOk;
    forall c | c in w.conns && w.conns[c].Open()
      ensures ClientViewOk(w, c) <==> InStep(w.conns[c].sent)
    {
      assert ViewOk(w, c);
      if c !in w.connRoom {
        LobbyInStep(w.conns[c].sent);
      }
    }
  }

  lemma LobbyInStep(sent: seq<Packet>)
    requires forall p :: p in sent ==> LobbyKind(p.kind)
    ensures InStep(sent)
  {
    hide Plain;
    forall p | p in sent
      ensures Plain(p)
    {
      LobbyPlain(p);
    }
    NothingInStep();
    ClientReplays([], sent);
    assert [] + sent == sent;
  }

  lemma LobbyPlain(p: Packet)
    requires LobbyKind(p.kind)
    ensures Plain(p)
  {
  }

  lemma NothingInStep()
    ensures InStep([])
  {
  }

  /** From views that are right, they stay in step exactly when the packets' views stay right. */
  lemma ViewsFollow(w: World, cfg: Config)
    requires Good(w, cfg) && AllInStep(w)
    ensures ClientViewsOk(w) <==> ViewsOk(w)
  {
    hide SameUsers, Known, Replay, OthersIds, RoomOk;
    forall c | c in w.conns
      ensures ClientViewOk(w, c) <==> ViewOk(w, c)
    {
      if w.conns[c].Open() && c in w.connRoom {
        var others := OthersIds(w.rooms[w.connRoom[c]].participants, c);
        if SameUsers(Known(w.conns[c].sent), others) {
          SameOnlyOne(Known(w.conns[c].sent), Replay(w.conns[c].sent), others);
        }
      }
    }
  }

  // Events that announce an id no client can read

  /** No client can read the member's id, and another open member of its room would be told that it left. */
  ghost predicate LeavesWide(w: World, c: ConnId) {
    && InRoom(w, c)
    && (var p := w.rooms[w.connRoom[c]].participants[c];
        !p.isOwner && !Readable(p.profile.userId) && !(OpenMembers(w, w.connRoom[c]) <= {c}))
  }

  /** A join under an id that no client can read is admitted to a room with an open member. */
  ghost predicate JoinsWide(w: World, c: ConnId, packet: Packet) {
    && packet.kind == JoinMeeting && c in w.conns && w.conns[c].Open() && c !in w.connRoom && Admitted(w, packet)
    && !Readable(packet.userId) && OpenMembers(w, ReadU32(packet.payload)) != {}
  }

  ghost predicate AnnouncesWideId(w: World, e: Event) {
    match e
    case PeerClose(c) => LeavesWide(w, c)
    case Deliver(c, Invalid, _, _) => c in w.conns && w.conns[c].Open() && LeavesWide(w, c)
    case Deliver(c, Ok(packet), _, _) => JoinsWide(w, c, packet)
    case _ => false
  }

  /** What a connection that is still open has been sent since is plain. */
  ghost predicate PlainMore(a: Conn, b: Conn) {
    b.Open() ==> a.Open() && a.sent <= b.sent && forall p :: p in b.sent[|a.sent|..] ==> Plain(p)
  }

  ghost predicate PlainSince(w: World, w': World) {
    forall c :: c in w'.conns ==>
      if c in w.conns then PlainMore(w.conns[c], w'.conns[c]) else w'.conns[c].sent == []
  }

  lemma PlainKeepsStep(w: World, w': World)
    requires AllInStep(w) && PlainSince(w, w')
    ensures AllInStep(w')
  {
    hide InStep, Plain;
    forall c | c in w'.conns && w'.conns[c].Open()
      ensures InStep(w'.conns[c].sent)
    {
      if c in w.conns {
        var sent, sent' := w.conns[c].sent, w'.conns[c].sent;
        assert PlainMore(w.conns[c], w'.conns[c]);
        assert sent' == sent + sent'[|sent|..];
        ClientReplays(sent, sent'[|sent|..]);
      } else {
        NothingInStep();
      }
    }
  }

  lemma ClosePlain(w: World, cfg: Config, c: ConnId)
    requires Inv(w, cfg) && c in w.conns && !LeavesWide(w, c)
    ensures PlainSince(w, CloseConn(w, c))
  {
    hide RoomOk, Readable;
    if !w.conns[c].closed && c in w.connRoom {
      hide CloseConn;
      if w.rooms[w.connRoom[c]].participants[c].isOwner {
        OwnerCloseEnds(w, cfg, c);
      } else {
        MemberCloseTells(w, cfg, c);
      }
    }
  }

  lemma ExpirePlain(w: World, cfg: Config, r: RoomId)
    requires Inv(w, cfg)
    ensures PlainSince(w, CloseRoom(w, r))
  {
    hide RoomOk, Readable;
  }

  lemma PacketPlain(w: World, r: RoomId, c: ConnId, packet: Packet)
    requires r in w.rooms
    ensures PlainSince(w, HandlePacket(w, r, c, packet))
  {
    hide ApplyProfile, ReadU32, ToBe, Readable;
  }

  lemma ReplyPlain(w: World, c: ConnId, p: Packet)
    requires c in w.conns && LobbyKind(p.kind)
    ensures PlainSince(w, Reply(w, c, p))
  {
    hide Readable;
  }

  lemma CreatePlain(w: World, cfg: Config, c: ConnId, packet: Packet, draws: seq<u32>)
    requires ValidConfig(cfg) && Inv(w, cfg) && c in w.conns && w.conns[c].Open() && c !in w.connRoom
    ensures PlainSince(w, HandleCreate(w, cfg, c, packet, draws))
  {
    hide RoomOk, PlainMore, ParseOptions, AllocateRoomId, ToBe, CloseConn, Reply;
    if packet.userId == 0 {
      ClosePlain(w, cfg, c);
    } else if |w.rooms| >= cfg.maxRooms {
      ReplyPlain(w, c, Packet(CreateMeetingResponse, 0, ToBe(4, 0)));
    } else {
      hide HandleCreate;
      var room := CreateShape(w, cfg, c, packet, draws);
      var (id, counter) := AllocateRoomId(w.rooms.Keys, draws, w.nextRoom);
      ReplyPlain(Opened(w, id, c, room, counter), c, Packet(CreateMeetingResponse, 0, ToBe(4, id)));
    }
  }

  lemma JoinPlain(w: World, cfg: Config, c: ConnId, packet: Packet, order: seq<ConnId>)
    requires Inv(w, cfg) && c in w.conns && w.conns[c].Open() && c !in w.connRoom && packet.kind == JoinMeeting
    requires !JoinsWide(w, c, packet)
    ensures PlainSince(w, HandleJoin(w, c, packet, order))
  {
    hide RoomOk, PlainMore, ToBe, CloseConn, Reply, HandleJoin, Joined, Readable, ReadU32;
    if |packet.payload| < 4 || packet.userId == 0 {
      JoinRejected(w, c, packet, order);
      ClosePlain(w, cfg, c);
    } else if Admitted(w, packet) {
      JoinShape(w, cfg, c, packet, order);
      JoinedPlain(w, cfg, ReadU32(packet.payload), c, Newcomer(packet.userId), order);
    } else {
      var reply := RefusedShape(w, cfg, c, packet, order);
      ReplyPlain(w, c, reply);
    }
  }

  lemma WelcomePlain(order: seq<ConnId>, room: Room, c: ConnId)
    ensures forall p :: p in WelcomePackets(order, room, c) ==> Plain(p)
  {
    hide ListIds, IdList, ToBe, ListProfiles;
    ListedProfilesNeutral(order, room.participants, c);
  }

  lemma ReceivesPlain(a: Conn, more: seq<Packet>)
    requires forall p :: p in more ==> Plain(p)
    ensures PlainMore(a, a.Receive(more)) && PlainMore(a, a)
  {
  }

  lemma JoinedPlain(w: World, cfg: Config, r: RoomId, c: ConnId, p: Participant, order: seq<ConnId>)
    requires Inv(w, cfg) && r in w.rooms && c in w.conns && w.conns[c].Open() && c !in w.connRoom
    requires Readable(p.profile.userId) || OpenMembers(w, r) == {}
    ensures PlainSince(w, Joined(w, r, c, p, order))
  {
    UnclosedRoom(w, cfg, r);
    hide Inv, Joined, Plain, PlainMore, WelcomePackets;
    JoinedShape(w, r, c, p, order);
    var welcome := WelcomePackets(order, w.rooms[r].(participants := w.rooms[r].participants[c := p]), c);
    var notice := Packet(PartnerJoin, p.profile.userId, []);
    WelcomePlain(order, w.rooms[r].(participants := w.rooms[r].participants[c := p]), c);
    LobbyPlain(JoinReply(r));
    forall d | d in w.conns
      ensures PlainMore(w.conns[d], Joined(w, r, c, p, order).conns[d])
    {
      if d == c {
        ReceivesPlain(w.conns[c], [JoinReply(r)] + welcome);
        ReceiveTwice(w.conns[c], [JoinReply(r)], welcome);
      } else if d in w.rooms[r].participants && w.conns[d].Open() {
        assert d in OpenMembers(w, r);
        PlainJoin(notice);
        ReceivesPlain(w.conns[d], [notice]);
      } else {
        ReceivesPlain(w.conns[d], []);
      }
    }
  }

  lemma ReceiveTwice(a: Conn, first: seq<Packet>, second: seq<Packet>)
    ensures a.Receive(first).Receive(second) == a.Receive(first + second)
  {
    assert a.sent + first + second == a.sent + (first + second);
  }

  lemma PlainJoin(p: Packet)
    requires Readable(p.userId)
    ensures Plain(p)
  {
  }

  lemma DeliverPlain(w: World, cfg: Config, e: Event)
    requires ValidConfig(cfg) && Good(w, cfg) && Enabled(w, e) && e.Deliver? && !AnnouncesWideId(w, e)
    ensures PlainSince(w, Next(w, cfg, e))
  {
    hide RoomOk, LeavesWide, JoinsWide, Plain, HandlePacket, HandleCreate, HandleJoin, CloseConn;
    var c := e.c;
    if !w.conns[c].Open() {
    } else if e.decoded.Invalid? {
      ClosePlain(w, cfg, c);
    } else if c in w.connRoom {
      PacketPlain(w, w.connRoom[c], c, e.decoded.packet);
    } else if e.decoded.packet.kind == CreateMeeting {
      CreatePlain(w, cfg, c, e.decoded.packet, e.draws);
    } else if e.decoded.packet.kind == JoinMeeting {
      JoinPlain(w, cfg, c, e.decoded.packet, e.order);
    } else {
      OutsiderNotWide(w, c);
      ClosePlain(w, cfg, c);
    }
  }

  lemma OutsiderNotWide(w: World, c: ConnId)
    requires c !in w.connRoom
    ensures !LeavesWide(w, c)
  {
  }

  lemma NextPlain(w: World, cfg: Config, e: Event)
    requires ValidConfig(cfg) && Good(w, cfg) && Enabled(w, e) && !AnnouncesWideId(w, e)
    ensures PlainSince(w, Next(w, cfg, e))
  {
    match e
    case Accept =>
    case Deliver(_, _, _, _) => DeliverPlain(w, cfg, e);
    case PeerClose(c) => ClosePlain(w, cfg, c);
    case SocketLost(_) =>
    case Expire(r) => ExpirePlain(w, cfg, r);
  }

  /** Announcing such an id puts the client of an open member out of step. */
  lemma WideStep(sent: seq<Packet>, p: Packet, ids: multiset<u64>, others: multiset<u64>)
    requires SameUsers(Known(sent), ids) && !Readable(p.userId)
    requires || (p.kind == PartnerJoin && others == ids + multiset{p.userId})
             || (p.kind == PartnerExit && ids == others + multiset{p.userId})
    ensures !SameUsers(Known(sent + [p]), others)
  {
    hide Known, Readable, ClientReceived, C.Read, KnownAfter;
    KnownAppend(sent, p);
    ReadStep(Known(sent), p);
    ClientReceivedExact(p.userId);
    assert Known(sent)[ToSigned(p.userId)] == ids[p.userId];
    assert Known(sent + [p])[ToSigned(p.userId)] == Known(sent)[ToSigned(p.userId)];
  }

  lemma LeavesWideBreaks(w: World, cfg: Config, c: ConnId)
    requires Inv(w, cfg) && ClientViewsOk(w) && LeavesWide(w, c)
    ensures !ClientViewsOk(CloseConn(w, c))
  {
    hide CloseConn, RoomOk, SameUsers, Known, OthersIds, Readable;
    var r := w.connRoom[c];
    var parts := w.rooms[r].participants;
    var d :| d in OpenMembers(w, r) && d != c;
    MemberCloseTells(w, cfg, c);
    assert ClientViewOk(w, d);
    OthersWithout(parts, c, d);
    WideStep(w.conns[d].sent, Packet(PartnerExit, parts[c].profile.userId, []), OthersIds(parts, d),
             OthersIds(parts - {c}, d));
    assert !ClientViewOk(CloseConn(w, c), d);
  }

  lemma OthersWithout(parts: map<ConnId, Participant>, c: ConnId, d: ConnId)
    requires c in parts && d != c
    ensures OthersIds(parts, d) == OthersIds(parts - {c}, d) + multiset{parts[c].profile.userId}
  {
    IdsRemove(parts - {d}, c);
    MinusCommutes(parts, c, d);
  }

  lemma OthersWith(parts: map<ConnId, Participant>, c: ConnId, p: Participant, d: ConnId)
    requires c !in parts && d != c
    ensures OthersIds(parts[c := p], d) == OthersIds(parts, d) + multiset{p.profile.userId}
  {
    assert parts[c := p] - {d} == (parts - {d})[c := p];
    IdsAdd(parts - {d}, c, p);
  }

  lemma JoinedWideBreaks(w: World, r: RoomId, c: ConnId, p: Participant, order: seq<ConnId>, d: ConnId)
    requires r in w.rooms && !w.rooms[r].closed && c in w.conns && w.conns[c].Open() && c !in w.rooms[r].participants
    requires !Readable(p.profile.userId) && d in OpenMembers(w, r) && ClientViewOk(w, d)
    requires d in w.connRoom && w.connRoom[d] == r
    ensures !ClientViewOk(Joined(w, r, c, p, order), d)
  {
    hide SameUsers, Known, OthersIds, Readable, Joined, WelcomePackets;
    var parts := w.rooms[r].participants;
    JoinedShape(w, r, c, p, order);
    OthersWith(parts, c, p, d);
    WideStep(w.conns[d].sent, Packet(PartnerJoin, p.profile.userId, []), OthersIds(parts, d),
             OthersIds(parts[c := p], d));
  }

  lemma JoinsWideBreaks(w: World, cfg: Config, c: ConnId, packet: Packet, order: seq<ConnId>)
    requires Inv(w, cfg) && ClientViewsOk(w) && JoinsWide(w, c, packet)
    ensures !ClientViewsOk(HandleJoin(w, c, packet, order))
  {
    hide RoomOk, ClientViewOk, Readable, Joined, HandleJoin, ReadU32;
    var r := ReadU32(packet.payload);
    UnclosedRoom(w, cfg, r);
    var d :| d in OpenMembers(w, r);
    JoinShape(w, cfg, c, packet, order);
    JoinedWideBreaks(w, r, c, Newcomer(packet.userId), order, d);
  }

  lemma WideBreaks(w: World, cfg: Config, e: Event)
    requires ValidConfig(cfg) && Inv(w, cfg) && ClientViewsOk(w) && Enabled(w, e) && AnnouncesWideId(w, e)
    ensures !ClientViewsOk(Next(w, cfg, e))
  {
    hide CloseConn, HandleJoin, LeavesWide, RoomOk, ClientViewsOk, Enumerates;
    match e
    case PeerClose(c) => LeavesWideBreaks(w, cfg, c);
    case Deliver(c, Invalid, _, _) => LeavesWideBreaks(w, cfg, c);
    case Deliver(c, Ok(packet), _, order) => JoinsWideBreaks(w, cfg, c, packet, order);
    case _ =>
  }

  /**
   From right views, at both ends, the clients' views stay right exactly when the event neither gives a known
   participant another user id nor announces an id that no client can read.
  */
  lemma NextClientViews(w: World, cfg: Config, e: Event)
    requires ValidConfig(cfg) && Good(w, cfg) && Enabled(w, e) && ViewsOk(w) && ClientViewsOk(w)
    ensures ClientViewsOk(Next(w, cfg, e)) <==> !ChangesKnownId(w, e) && !AnnouncesWideId(w, e)
  {
    hide Next, Good, ViewsOk, ClientViewsOk, ChangesKnownId, AnnouncesWideId, AllInStep, PlainSince;
    NextViews(w, cfg, e);
    NextKeeps(w, cfg, e);
    if AnnouncesWideId(w, e) {
      InvOf(w, cfg);
      WideBreaks(w, cfg, e);
    } else {
      StepsAreViews(w, cfg);
      NextPlain(w, cfg, e);
      PlainKeepsStep(w, Next(w, cfg, e));
      ViewsFollow(Next(w, cfg, e), cfg);
    }
  }

  lemma InvOf(w: World, cfg: Config)
    requires Good(w, cfg)
    ensures Inv(w, cfg)
  {
  }

  // Whole runs

  /** No event of the run announces an id that no client can read. */
  ghost predicate AnnouncesPlain(w: World, cfg: Config, events: seq<Event>)
    requires ValidConfig(cfg)
  {
    forall n :: 0 <= n < |events| && Run(w, cfg, events[..n]).Some? ==>
      !AnnouncesWideId(Run(w, cfg, events[..n]).value, events[n])
  }

  /** In every run with neither, every open participant's client knows exactly the others in its room. */
  lemma {:induction false} EveryRunClientViews(cfg: Config, events: seq<Event>)
    requires ValidConfig(cfg) && Run(INITIAL, cfg, events).Some?
    requires KeepsIds(INITIAL, cfg, events) && AnnouncesPlain(INITIAL, cfg, events)
    ensures ClientViewsOk(Run(INITIAL, cfg, events).value)
  {
    if events != [] {
      hide Next, Enabled, ChangesKnownId, AnnouncesWideId, Good, ViewsOk, ClientViewsOk;
      var n := |events| - 1;
      forall m | 0 <= m < n
        ensures events[..n][..m] == events[..m]
      {
      }
      EveryRunClientViews(cfg, events[..n]);
      EveryRunViews(cfg, events[..n]);
      EveryRunGood(cfg, events[..n]);
      NextClientViews(Run(INITIAL, cfg, events[..n]).value, cfg, events[n]);
    }
  }

  /** Every participant goes by an id that clients can read. */
  ghost predicate IdsFit(w: World) {
    forall r, c :: r in w.rooms && c in w.rooms[r].participants ==>
      Readable(w.rooms[r].participants[c].profile.userId)
  }

  /** The packet brings no other id: neither in its number nor in a profile. */
  predicate BringsReadable(packet: Packet) {
    && Readable(packet.userId)
    && (packet.kind == UserProfile && AdoptedId(packet.payload).Some? ==>
          Readable(AdoptedId(packet.payload).value))
  }

  lemma FitsPlain(w: World, e: Event)
    requires IdsFit(w) && (e.Deliver? && e.decoded.Ok? ==> BringsReadable(e.decoded.packet))
    ensures !AnnouncesWideId(w, e)
  {
    hide Readable, ReadU32, AdoptedId;
  }

  lemma CloseFits(w: World, cfg: Config, c: ConnId)
    requires Inv(w, cfg) && c in w.conns && IdsFit(w)
    ensures IdsFit(CloseConn(w, c))
  {
    hide RoomOk, Readable;
    if !w.conns[c].closed && c in w.connRoom {
      hide CloseConn;
      if w.rooms[w.connRoom[c]].participants[c].isOwner {
        OwnerCloseEnds(w, cfg, c);
      } else {
        MemberCloseTells(w, cfg, c);
      }
    }
  }

  lemma PacketFits(w: World, cfg: Config, c: ConnId, packet: Packet)
    requires Inv(w, cfg) && InRoom(w, c) && IdsFit(w) && BringsReadable(packet)
    ensures IdsFit(HandlePacket(w, w.connRoom[c], c, packet))
  {
    hide ApplyProfile, ReadU32, ToBe, Readable, AdoptedId, RoomOk, Broadcast;
    AdoptedIdMeaning(w.rooms[w.connRoom[c]].participants[c].profile, packet.payload);
  }

  lemma LobbyFits(w: World, cfg: Config, c: ConnId, packet: Packet, draws: seq<u32>, order: seq<ConnId>)
    requires ValidConfig(cfg) && Good(w, cfg) && c in w.conns && w.conns[c].Open() && c !in w.connRoom
    requires IdsFit(w) && BringsReadable(packet)
    ensures IdsFit(HandleLobby(w, cfg, c, packet, draws, order))
  {
    hide CloseConn, RoomOk, AllocateRoomId, ReadU32, WelcomePackets, ParseOptions, Readable, ToBe, AdoptedId;
    hide SettingsOk, LobbyOk;
    CloseFits(w, cfg, c);
    if packet.kind == CreateMeeting && packet.userId != 0 && |w.rooms| < cfg.maxRooms {
      var _ := CreateShape(w, cfg, c, packet, draws);
    } else if packet.kind == JoinMeeting && Admitted(w, packet) {
      JoinShape(w, cfg, c, packet, order);
    }
  }

  lemma NextFits(w: World, cfg: Config, e: Event)
    requires ValidConfig(cfg) && Good(w, cfg) && Enabled(w, e) && IdsFit(w)
    requires e.Deliver? && e.decoded.Ok? ==> BringsReadable(e.decoded.packet)
    ensures IdsFit(Next(w, cfg, e))
  {
    hide CloseConn, HandlePacket, HandleLobby, BringsReadable, RoomOk, Readable;
    match e
    case Deliver(c, decoded, draws, order) =>
      CloseFits(w, cfg, c);
      if decoded.Ok? && w.conns[c].Open() {
        if c in w.connRoom {
          PacketFits(w, cfg, c, decoded.packet);
        } else {
          LobbyFits(w, cfg, c, decoded.packet, draws, order);
        }
      }
    case PeerClose(c) => CloseFits(w, cfg, c);
    case _ =>
  }

  ghost predicate AllFit(events: seq<Event>) {
    forall e :: e in events && e.Deliver? && e.decoded.Ok? ==> BringsReadable(e.decoded.packet)
  }

  lemma {:induction false} RunFits(cfg: Config, events: seq<Event>)
    requires ValidConfig(cfg) && Run(INITIAL, cfg, events).Some? && AllFit(events)
    ensures IdsFit(Run(INITIAL, cfg, events).value)
  {
    if events == [] {
      InitialFits();
    } else {
      hide Next, Enabled, Good, IdsFit, BringsReadable;
      var n := |events| - 1;
      RunFits(cfg, events[..n]);
      EveryRunGood(cfg, events[..n]);
      NextFits(Run(INITIAL, cfg, events[..n]).value, cfg, events[n]);
    }
  }

  /** With packets that bring only ids a client can read, no run announces any other. */
  lemma FittingRun(cfg: Config, events: seq<Event>)
    requires ValidConfig(cfg) && Run(INITIAL, cfg, events).Some? && AllFit(events)
    ensures AnnouncesPlain(INITIAL, cfg, events)
  {
    hide Run, AnnouncesWideId, IdsFit, BringsReadable;
    forall n | 0 <= n < |events| && Run(INITIAL, cfg, events[..n]).Some?
      ensures !AnnouncesWideId(Run(INITIAL, cfg, events[..n]).value, events[n])
    {
      RunFits(cfg, events[..n]);
      assert events[n] in events;
      FitsPlain(Run(INITIAL, cfg, events[..n]).value, events[n]);
    }
  }

  lemma InitialFits()
    ensures IdsFit(INITIAL)
  {
  }

  /** So in every such run that keeps known ids the clients' views are right. */
  lemma FittingRunClientViews(cfg: Config, events: seq<Event>)
    requires ValidConfig(cfg) && Run(INITIAL, cfg, events).Some? && KeepsIds(INITIAL, cfg, events)
    requires AllFit(events)
    ensures ClientViewsOk(Run(INITIAL, cfg, events).value)
  {
    hide Run, KeepsIds, AnnouncesPlain, AllFit, ClientViewsOk;
    FittingRun(cfg, events);
    EveryRunClientViews(cfg, events);
  }
}
