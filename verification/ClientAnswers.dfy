/** What a client reads in the answer to its request to create or to join a room. */
module ClientAnswers {
  import opened Options
  import opened Bytes
  import opened Wire
  import opened Doubles
  import opened Framing
  import opened Meeting
  import opened MeetingInvariants
  import opened MeetingProofs
  import opened MeetingRuns
  import opened MeetingEffects
  import opened ServerSteps
  import C = ClientReceive

  /** One more packet for this connection, and nothing else. */
  ghost predicate JustAnswered(w: World, w': World, c: ConnId, answer: Packet)
    requires c in w.conns
  {
    && w'.conns.Keys == w.conns.Keys && w'.conns[c] == w.conns[c].(sent := w.conns[c].sent + [answer])
    && (forall d :: d in w.conns && d != c ==> w'.conns[d] == w.conns[d])
    && w'.rooms == w.rooms && w'.connRoom == w.connRoom && w'.nextConn == w.nextConn && w'.nextRoom == w.nextRoom
  }

  /** A request without an id, or a join without a room, is not answered: its connection is closed. */
  lemma MalformedClosed(w: World, cfg: Config, c: ConnId, packet: Packet, draws: seq<u32>, order: seq<ConnId>)
    requires ValidConfig(cfg) && Inv(w, cfg) && c in w.conns && w.conns[c].Open() && c !in w.connRoom
    requires packet.kind == CreateMeeting || packet.kind == JoinMeeting
    requires packet.userId == 0 || (packet.kind == JoinMeeting && |packet.payload| < 4)
    ensures var w' := HandleLobby(w, cfg, c, packet, draws, order);
            && w'.conns.Keys == w.conns.Keys && w'.conns[c].closed && w'.conns[c].sent == w.conns[c].sent
            && (forall d :: d in w.conns && d != c ==> w'.conns[d] == w.conns[d])
            && w'.rooms == w.rooms && w'.connRoom == w.connRoom
  {
  }

  // Creating

  lemma ReadCreated(p: Packet)
    requires p.kind == CreateMeetingResponse && |p.payload| == 4
    ensures match C.Read(p)
            case Some(CreateResult(n)) => BigEndian(p.payload, n)
            case _ => false
  {
    hide ReadU32, C.Read, ClientReceived;
    C.ReadAs(p);
    ReadsBigEndian(p.payload);
    assert p.payload[..4] == p.payload;
  }

  lemma CreateRefused(w: World, cfg: Config, c: ConnId, packet: Packet, draws: seq<u32>) returns (answer: Packet)
    requires ValidConfig(cfg) && c in w.conns && w.conns[c].Open() && c !in w.connRoom && packet.userId != 0
    requires |w.rooms| >= cfg.maxRooms
    ensures JustAnswered(w, HandleCreate(w, cfg, c, packet, draws), c, answer)
    ensures C.Read(answer) == Some(C.CreateResult(0))
  {
    hide C.Read, ToBe, ParseOptions;
    answer := Packet(CreateMeetingResponse, 0, ToBe(4, 0));
    ReadAnswer(answer, 0);
  }

  /** The new room r, with its creator as the one participant and owner. */
  ghost predicate OpenedFor(w: World, w': World, c: ConnId, packet: Packet, r: RoomId) {
    && r !in w.rooms && w'.rooms.Keys == w.rooms.Keys + {r} && w'.connRoom == w.connRoom[c := r]
    && w'.rooms[r].participants == map[c := Participant(Profile(packet.userId, [], []), true)]
    && !w'.rooms[r].closed && w'.rooms[r].settings == SETTINGS_DEFAULT
  }

  lemma CreateAccepted(w: World, cfg: Config, c: ConnId, packet: Packet, draws: seq<u32>)
    returns (answer: Packet, r: RoomId)
    requires ValidConfig(cfg) && c in w.conns && w.conns[c].Open() && c !in w.connRoom && packet.userId != 0
    requires |w.rooms| < cfg.maxRooms
    ensures var w' := HandleCreate(w, cfg, c, packet, draws);
            && c in w'.conns && w'.conns[c] == w.conns[c].(sent := w.conns[c].sent + [answer])
            && OpenedFor(w, w', c, packet, r)
            && w'.rooms[r].maxParticipants == RoomLimit(ParseOptions(packet.payload, cfg), cfg)
            && w'.rooms[r].durationMinutes == ParseOptions(packet.payload, cfg).durationMinutes
    ensures C.Read(answer) == Some(C.CreateResult(r))
  {
    hide AllocateRoomId, ParseOptions, C.Read, ToBe, RoomOk, HandleCreate, RoomLimit, OpenedFor, Opened, Reply;
    var room := CreateShape(w, cfg, c, packet, draws);
    var chosen := AllocateRoomId(w.rooms.Keys, draws, w.nextRoom);
    r := chosen.0;
    answer := Packet(CreateMeetingResponse, 0, ToBe(4, r));
    ReadAnswer(answer, r);
    UnclosedNew(room, cfg);
    OpenedReplied(w, c, packet, r, room, chosen.1, answer);
  }

  lemma UnclosedNew(room: Room, cfg: Config)
    requires RoomOk(room, cfg)
    ensures !room.closed
  {
  }

  lemma OpenedReplied(w: World, c: ConnId, packet: Packet, r: RoomId, room: Room, counter: u32, answer: Packet)
    requires c in w.conns && w.conns[c].Open() && r !in w.rooms && !room.closed && room.settings == SETTINGS_DEFAULT
    requires room.participants == map[c := Participant(Profile(packet.userId, [], []), true)]
    ensures c in Opened(w, r, c, room, counter).conns
    ensures var w' := Reply(Opened(w, r, c, room, counter), c, answer);
            && c in w'.conns && w'.conns[c] == w.conns[c].(sent := w.conns[c].sent + [answer])
            && OpenedFor(w, w', c, packet, r) && w'.rooms[r] == room
  {
  }

  /**
   A well-formed request to create a room is answered by one packet, in which the client reads the number of the
   room it is in now, a new one of which it is the only participant and the owner, or 0 exactly when the server has
   as many rooms as it may.
  */
  lemma CreateAnswered(w: World, cfg: Config, c: ConnId, packet: Packet, draws: seq<u32>) returns (answer: Packet)
    requires ValidConfig(cfg) && c in w.conns && w.conns[c].Open() && c !in w.connRoom && packet.userId != 0
    ensures var w' := HandleCreate(w, cfg, c, packet, draws);
            && c in w'.conns && w'.conns[c] == w.conns[c].(sent := w.conns[c].sent + [answer])
            && (c !in w'.connRoom <==> |w.rooms| >= cfg.maxRooms)
            && C.Read(answer) == Some(C.CreateResult(if c in w'.connRoom then w'.connRoom[c] else 0))
            && if c in w'.connRoom then OpenedFor(w, w', c, packet, w'.connRoom[c]) else JustAnswered(w, w', c, answer)
  {
    hide HandleCreate, C.Read;
    if |w.rooms| >= cfg.maxRooms {
      answer := CreateRefused(w, cfg, c, packet, draws);
    } else {
      var r;
      answer, r := CreateAccepted(w, cfg, c, packet, draws);
    }
  }

  // What was asked for

  ghost predicate NearestWithin(low: int, high: int, asked: int, v: int) {
    low <= v <= high && forall x :: low <= x <= high ==> Distance(v, asked) <= Distance(x, asked)
  }

  function Distance(a: int, b: int): int {
    if a < b then b - a else a - b
  }

  /**
   A new room holds as many people as were asked for and lasts as many minutes, or as near to that as the limits
   allow; a request that says neither gets the configured limit and an hour.
  */
  lemma CreateHonours(w: World, cfg: Config, c: ConnId, packet: Packet, draws: seq<u32>, people: u32, minutes: u32)
    requires ValidConfig(cfg) && c in w.conns && w.conns[c].Open() && c !in w.connRoom && packet.userId != 0
    requires |w.rooms| < cfg.maxRooms
    requires |packet.payload| >= 8 ==>
               BigEndian(packet.payload[..4], people) && BigEndian(packet.payload[4..8], minutes)
    ensures var w' := HandleCreate(w, cfg, c, packet, draws);
            && c in w'.connRoom && w'.connRoom[c] in w'.rooms
            && var room := w'.rooms[w'.connRoom[c]];
               if |packet.payload| >= 8
               then NearestWithin(2, cfg.maxParticipants % 0x1_0000_0000, people, room.maxParticipants)
                    && NearestWithin(1, 1440, minutes, room.durationMinutes)
               else room.maxParticipants == cfg.maxParticipants % 0x1_0000_0000 && room.durationMinutes == 60
  {
    hide C.Read, HandleCreate, ParseOptions, RoomLimit, NearestWithin;
    var answer, r := CreateAccepted(w, cfg, c, packet, draws);
    OptionsMeaning(packet.payload, cfg, people, minutes);
  }

  lemma OptionsMeaning(payload: seq<byte>, cfg: Config, people: u32, minutes: u32)
    requires ValidConfig(cfg)
    requires |payload| >= 8 ==> BigEndian(payload[..4], people) && BigEndian(payload[4..8], minutes)
    ensures var options := ParseOptions(payload, cfg);
            if |payload| >= 8
            then NearestWithin(2, cfg.maxParticipants % 0x1_0000_0000, people, RoomLimit(options, cfg))
                 && NearestWithin(1, 1440, minutes, options.durationMinutes)
            else RoomLimit(options, cfg) == cfg.maxParticipants % 0x1_0000_0000 && options.durationMinutes == 60
  {
    hide ReadU32, BigEndian;
    assert cfg.maxParticipants >= HardMax(cfg);
    if |payload| >= 8 {
      ReadsBigEndian(payload);
      ReadsBigEndian(payload[4..]);
      assert payload[4..][..4] == payload[4..8];
      SameNumber(payload[..4], people, ReadU32(payload));
      SameNumber(payload[4..8], minutes, ReadU32(payload[4..]));
    }
  }

  lemma ReadAnswer(p: Packet, n: u32)
    requires p == Packet(CreateMeetingResponse, 0, ToBe(4, n))
    ensures C.Read(p) == Some(C.CreateResult(n))
  {
    hide C.Read, ToBe;
    WritesBigEndian(n);
    ReadCreated(p);
    SameNumber(p.payload, n, C.Read(p).value.roomNo);
  }

  // Joining

  /** The verdict a client reaches on a number it is answered. */
  predicate Verdict(v: JoinVerdict, n: u32) {
    && (v == NoSuchRoom <==> n == 0)
    && (v == RoomFull <==> n == 0xFFFF_FFFF)
    && (v == Welcome <==> 0 < n < 0x8000_0000)
  }

  lemma ReadJoined(p: Packet, n: u32)
    requires p.kind == JoinMeetingResponse && BigEndian(p.payload, n)
    ensures C.Read(p).Some? && C.Read(p).value.JoinResult? && Verdict(C.Read(p).value.verdict, n)
  {
    hide ReadU32, C.Read, ClientReceived;
    C.ReadAs(p);
    ReadsBigEndian(p.payload);
    assert p.payload[..4] == p.payload;
  }

  lemma JoinAnswerShape(w: World, cfg: Config, c: ConnId, packet: Packet, order: seq<ConnId>)
    returns (answer: Packet, n: u32)
    requires Inv(w, cfg) && c in w.conns && w.conns[c].Open() && c !in w.connRoom
    requires |packet.payload| >= 4 && packet.userId != 0
    ensures answer.kind == JoinMeetingResponse && BigEndian(answer.payload, n)
    ensures var r, w' := ReadU32(packet.payload), HandleJoin(w, c, packet, order);
            && n == (if Admitted(w, packet) then r else if r in w.rooms then 0xFFFF_FFFF else 0)
            && c in w'.conns && w.conns[c].sent + [answer] <= w'.conns[c].sent
            && if Admitted(w, packet)
               then w'.connRoom == w.connRoom[c := r] && r in w'.rooms && c in w'.rooms[r].participants
                    && w'.rooms[r].participants[c] == Participant(Profile(packet.userId, [], []), false)
               else JustAnswered(w, w', c, answer)
  {
    hide ToBe, ReadU32, RoomOk, WelcomePackets, Joined;
    var r := ReadU32(packet.payload);
    if r in w.rooms {
      UnclosedRoom(w, cfg, r);
    }
    if Admitted(w, packet) {
      answer, n := Packet(JoinMeetingResponse, 0, ToBe(4, r)), r;
      JoinShape(w, cfg, c, packet, order);
      JoinedShape(w, r, c, Newcomer(packet.userId), order);
    } else {
      n := if r in w.rooms then 0xFFFF_FFFF else 0;
      answer := Packet(JoinMeetingResponse, 0, ToBe(4, n));
    }
    WritesBigEndian(n);
  }

  /**
   A well-formed request to join room r is answered first of all. The client reads that there is no such room if and
   only if there is none, or it is let into room 0; that it is full if and only if it is, or the room let into is
   numbered 2^32 - 1; and a welcome if and only if it is let into a room numbered below 2^31, the answer then being
   the four bytes of r. It is let in, and mapped and listed under its id, if and only if the room has space.
  */
  lemma JoinAnswered(w: World, cfg: Config, c: ConnId, packet: Packet, order: seq<ConnId>, r: u32)
    returns (answer: Packet)
    requires Inv(w, cfg) && c in w.conns && w.conns[c].Open() && c !in w.connRoom
    requires |packet.payload| >= 4 && BigEndian(packet.payload[..4], r) && packet.userId != 0
    ensures var w' := HandleJoin(w, c, packet, order);
            var space := r in w.rooms && |w.rooms[r].participants| < w.rooms[r].maxParticipants;
            && c in w'.conns && w.conns[c].sent + [answer] <= w'.conns[c].sent
            && C.Read(answer).Some? && C.Read(answer).value.JoinResult?
            && (var verdict := C.Read(answer).value.verdict;
                && (verdict == NoSuchRoom <==> r !in w.rooms || (space && r == 0))
                && (verdict == RoomFull <==> r in w.rooms && (!space || r == 0xFFFF_FFFF))
                && (verdict == Welcome <==> space && 0 < r < 0x8000_0000))
            && (space ==> BigEndian(answer.payload, r))
            && (c in w'.connRoom <==> space)
            && if space
               then w'.connRoom[c] == r && r in w'.rooms && c in w'.rooms[r].participants
                    && w'.rooms[r].participants[c] == Participant(Profile(packet.userId, [], []), false)
               else JustAnswered(w, w', c, answer)
  {
    hide ReadU32, C.Read, HandleJoin, RoomOk;
    ReadsBigEndian(packet.payload);
    SameNumber(packet.payload[..4], r, ReadU32(packet.payload));
    if r in w.rooms {
      UnclosedRoom(w, cfg, r);
    }
    var n;
    answer, n := JoinAnswerShape(w, cfg, c, packet, order);
    ReadJoined(answer, n);
  }
}
