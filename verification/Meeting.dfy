/**
 The meeting protocol as a state machine over values: connections with the packets accepted for them,
 rooms, and the service's connection-to-room map. Each event is one handler run to completion; the
 closing cascade appears here in closed form, and MeetingServer shows the re-entrant code computes it.
 */
module Meeting {
  import opened Options
  import opened Bytes
  import opened Wire
  import opened Framing

  type ConnId = nat
  type RoomId = u32

  datatype Config = Config(maxRooms: nat, maxParticipants: nat)

  /** sent holds what the connection's send accepted; closeEvents counts runs of the close handler. */
  datatype Conn = Conn(closed: bool, socketOpen: bool, sent: seq<Packet>, closeEvents: nat) {
    predicate Open() {
      !closed && socketOpen
    }

    function Receive(packets: seq<Packet>): Conn {
      this.(sent := sent + packets)
    }

    function MarkClosed(): Conn {
      this.(closed := true, socketOpen := false, closeEvents := closeEvents + 1)
    }
  }

  datatype Participant = Participant(profile: Profile, isOwner: bool)

  datatype Room = Room(maxParticipants: nat, durationMinutes: u32, settings: u32, closed: bool,
                       participants: map<ConnId, Participant>)

  datatype World = World(conns: map<ConnId, Conn>, rooms: map<RoomId, Room>, connRoom: map<ConnId, RoomId>,
                         nextConn: ConnId, nextRoom: u32)

  const INITIAL: World := World(map[], map[], map[], 1, 1)

  // Meeting options

  datatype RoomOptions = RoomOptions(maxParticipants: nat, durationMinutes: u32)

  const MIN_PARTICIPANTS: u32 := 2
  const MIN_DURATION_MINUTES: u32 := 1
  const MAX_DURATION_MINUTES: u32 := 1440
  const DEFAULT_DURATION_MINUTES: u32 := 60

  function Clamp(v: nat, lo: nat, hi: nat): (r: nat)
    requires lo <= hi
    ensures lo <= r <= hi
  {
    if v < lo then lo else if v > hi then hi else v
  }

  /** The configured room limit as the 32-bit value the options are clamped to. */
  function HardMax(cfg: Config): u32 {
    cfg.maxParticipants % U32_SIZE
  }

  /**
   Clamping needs its bounds in order, so the configured limit must allow two participants; and there must
   be an id for every room, or the search for one would not end.
  */
  predicate ValidConfig(cfg: Config) {
    HardMax(cfg) >= MIN_PARTICIPANTS && cfg.maxRooms <= U32_SIZE
  }

  function ParseOptions(payload: seq<byte>, cfg: Config): RoomOptions
    requires ValidConfig(cfg)
  {
    var asked :=
      if |payload| >= 8 then RoomOptions(ReadU32(payload), ReadU32(payload[4..]))
      else RoomOptions(cfg.maxParticipants, DEFAULT_DURATION_MINUTES);
    RoomOptions(Clamp(asked.maxParticipants % U32_SIZE, MIN_PARTICIPANTS, HardMax(cfg)),
                Clamp(asked.durationMinutes, MIN_DURATION_MINUTES, MAX_DURATION_MINUTES))
  }

  /** The room constructor's own adjustment of the limit. */
  function RoomLimit(options: RoomOptions, cfg: Config): nat {
    var m := if options.maxParticipants == 0 then cfg.maxParticipants else options.maxParticipants;
    if m < cfg.maxParticipants then m else cfg.maxParticipants
  }

  // Room ids

  const ROOM_ID_MIN: u32 := 100000
  const ROOM_ID_MAX: u32 := 999999
  const ROOM_ID_ATTEMPTS: nat := 32

  predicate ValidDraws(draws: seq<u32>) {
    |draws| == ROOM_ID_ATTEMPTS && forall d :: d in draws ==> ROOM_ID_MIN <= d <= ROOM_ID_MAX
  }

  function FirstUnused(used: set<RoomId>, draws: seq<u32>): Option<RoomId> {
    if draws == [] then None
    else if draws[0] !in used then Some(draws[0])
    else FirstUnused(used, draws[1..])
  }

  /** Walks the 32-bit counter past the ids in use. */
  function Sequential(used: set<RoomId>, counter: u32): RoomId
    decreases |used|
  {
    if counter !in used then counter else Sequential(used - {counter}, (counter + 1) % U32_SIZE)
  }

  /** The id for a new room and the counter afterwards. */
  function AllocateRoomId(used: set<RoomId>, draws: seq<u32>, counter: u32): (RoomId, u32) {
    match FirstUnused(used, draws)
    case Some(id) => (id, counter)
    case None => var id := Sequential(used, counter); (id, (id + 1) % U32_SIZE)
  }

  // Sending

  /** Every open member except one receives the packet; ids start at 1, so 0 excludes nobody. */
  function Broadcast(conns: map<ConnId, Conn>, members: set<ConnId>, exclude: ConnId, packet: Packet)
    : (r: map<ConnId, Conn>)
    ensures r.Keys == conns.Keys
  {
    map c | c in conns ::
      if c in members && c != exclude && conns[c].Open() then conns[c].Receive([packet]) else conns[c]
  }

  /** A reply to the connection itself. */
  function Reply(w: World, c: ConnId, packet: Packet): World
    requires c in w.conns
  {
    if w.conns[c].closed then w else w.(conns := w.conns[c := w.conns[c].Receive([packet])])
  }

  // Closing

  function CloseRoom(w: World, r: RoomId): World {
    if r !in w.rooms || w.rooms[r].closed then w
    else
      var members := w.rooms[r].participants.Keys;
      World(map c | c in w.conns ::
              if c in members && w.conns[c].Open() then w.conns[c].MarkClosed() else w.conns[c],
            w.rooms - {r},
            map c | c in w.connRoom && w.connRoom[c] != r :: w.connRoom[c],
            w.nextConn, w.nextRoom)
  }

  function DropParticipant(w: World, r: RoomId, c: ConnId): World
    requires r in w.rooms
  {
    w.(rooms := w.rooms[r := w.rooms[r].(participants := w.rooms[r].participants - {c})])
  }

  function RemoveParticipant(w: World, r: RoomId, c: ConnId): World {
    if r !in w.rooms || w.rooms[r].closed || c !in w.rooms[r].participants then w
    else
      var p := w.rooms[r].participants[c];
      var w' := DropParticipant(w, r, c);
      if p.isOwner then CloseRoom(w', r)
      else
        w'.(conns := Broadcast(w'.conns, w'.rooms[r].participants.Keys, 0,
                               Packet(PartnerExit, p.profile.userId, [])))
  }

  function OnConnectionClose(w: World, c: ConnId): World {
    if c !in w.connRoom then w
    else RemoveParticipant(w.(connRoom := w.connRoom - {c}), w.connRoom[c], c)
  }

  function CloseConn(w: World, c: ConnId): World
    requires c in w.conns
  {
    if w.conns[c].closed then w
    else OnConnectionClose(w.(conns := w.conns[c := w.conns[c].MarkClosed()]), c)
  }

  // Packets from a participant

  function HandlePacket(w: World, r: RoomId, c: ConnId, packet: Packet): World
    requires r in w.rooms
  {
    var room := w.rooms[r];
    if room.closed || c !in room.participants then w
    else
      var p := room.participants[c];
      var members := room.participants.Keys;
      match packet.kind
      case TextSend =>
        w.(conns := Broadcast(w.conns, members, c, Packet(TextRecv, p.profile.userId, packet.payload)))
      case CloseCamera =>
        w.(conns := Broadcast(w.conns, members, c, Packet(CloseCamera, p.profile.userId, [])))
      case UserProfile =>
        var profile := ApplyProfile(p.profile, packet.payload);
        w.(rooms := w.rooms[r := room.(participants := room.participants[c := p.(profile := profile)])],
           conns := Broadcast(w.conns, members, c, packet.(userId := profile.userId)))
      case RoomSettings =>
        if !p.isOwner then w
        else
          var flags := if |packet.payload| >= 4 then ReadU32(packet.payload) else room.settings;
          w.(rooms := w.rooms[r := room.(settings := flags)],
             conns := Broadcast(w.conns, members, 0, Packet(RoomSettingsNotify, p.profile.userId, ToBe(4, flags))))
      case _ => w
  }

  // The lobby

  function Emplace<K, V>(m: map<K, V>, k: K, v: V): map<K, V> {
    if k in m then m else m[k := v]
  }

  function HandleCreate(w: World, cfg: Config, c: ConnId, packet: Packet, draws: seq<u32>): World
    requires ValidConfig(cfg) && c in w.conns
  {
    var options := ParseOptions(packet.payload, cfg);
    if packet.userId == 0 then CloseConn(w, c)
    else if !w.conns[c].Open() || |w.rooms| >= cfg.maxRooms then
      Reply(w, c, Packet(CreateMeetingResponse, 0, ToBe(4, 0)))
    else
      var (id, counter) := AllocateRoomId(w.rooms.Keys, draws, w.nextRoom);
      var owner := Participant(Profile(packet.userId, [], []), true);
      var room := Room(RoomLimit(options, cfg), options.durationMinutes, SETTINGS_DEFAULT, false,
                       if RoomLimit(options, cfg) == 0 then map[] else map[c := owner]);
      var w' := w.(rooms := Emplace(w.rooms, id, room), connRoom := Emplace(w.connRoom, c, id), nextRoom := counter);
      Reply(w', c, Packet(CreateMeetingResponse, 0, ToBe(4, id)))
  }

  /** The ids of the other participants, in iteration order. */
  function ListIds(order: seq<ConnId>, parts: map<ConnId, Participant>, newcomer: ConnId): seq<u64> {
    if order == [] then []
    else
      var n := |order| - 1;
      var ids := ListIds(order[..n], parts, newcomer);
      if order[n] == newcomer || order[n] !in parts then ids else ids + [parts[order[n]].profile.userId]
  }

  predicate Resent(p: Profile) {
    p.userId != 0 && (p.name != [] || p.avatar != [])
  }

  function ProfilePacket(p: Profile): Packet {
    Packet(UserProfile, p.userId, ProfilePayload(p))
  }

  /** The cached profiles of the other participants, in iteration order. */
  function ListProfiles(order: seq<ConnId>, parts: map<ConnId, Participant>, newcomer: ConnId): seq<Packet> {
    if order == [] then []
    else
      var n := |order| - 1;
      var packets := ListProfiles(order[..n], parts, newcomer);
      if order[n] == newcomer || order[n] !in parts || !Resent(parts[order[n]].profile) then packets
      else packets + [ProfilePacket(parts[order[n]].profile)]
  }

  /** What a newcomer is sent about the room it entered. */
  function WelcomePackets(order: seq<ConnId>, room: Room, newcomer: ConnId): seq<Packet> {
    [Packet(PartnerJoin2, 0, IdList(ListIds(order, room.participants, newcomer))),
     Packet(RoomSettingsNotify, 0, ToBe(4, room.settings))]
    + ListProfiles(order, room.participants, newcomer)
  }

  function NotifyUserJoined(w: World, r: RoomId, c: ConnId, order: seq<ConnId>): World
    requires r in w.rooms && c in w.conns
  {
    var room := w.rooms[r];
    if room.closed || c !in room.participants then w
    else
      var notice := Packet(PartnerJoin, room.participants[c].profile.userId, []);
      var conns := Broadcast(w.conns, room.participants.Keys, c, notice);
      if conns[c].Open() then w.(conns := conns[c := conns[c].Receive(WelcomePackets(order, room, c))])
      else w.(conns := conns)
  }

  const JOIN_NOT_AVAILABLE: u32 := 0
  const JOIN_FULL: u32 := 0xFFFF_FFFF

  function JoinReply(v: u32): Packet {
    Packet(JoinMeetingResponse, 0, ToBe(4, v))
  }

  function HandleJoin(w: World, c: ConnId, packet: Packet, order: seq<ConnId>): World
    requires c in w.conns
  {
    if |packet.payload| < 4 || packet.userId == 0 then CloseConn(w, c)
    else
      var r := ReadU32(packet.payload);
      if r !in w.rooms || w.rooms[r].closed then Reply(w, c, JoinReply(JOIN_NOT_AVAILABLE))
      else
        var room := w.rooms[r];
        if |room.participants| >= room.maxParticipants || !w.conns[c].Open() then Reply(w, c, JoinReply(JOIN_FULL))
        else
          var newcomer := Participant(Profile(packet.userId, [], []), false);
          var room' := room.(participants := Emplace(room.participants, c, newcomer));
          var w' := w.(rooms := w.rooms[r := room'], connRoom := Emplace(w.connRoom, c, r));
          NotifyUserJoined(Reply(w', c, JoinReply(r)), r, c, order)
  }

  function HandleLobby(w: World, cfg: Config, c: ConnId, packet: Packet, draws: seq<u32>, order: seq<ConnId>): World
    requires ValidConfig(cfg) && c in w.conns
  {
    match packet.kind
    case CreateMeeting => HandleCreate(w, cfg, c, packet, draws)
    case JoinMeeting => HandleJoin(w, c, packet, order)
    case _ => CloseConn(w, c)
  }

  // Events

  /**
   One decoded message (with the random draws and the hash-map iteration order it may use), the end of a
   connection seen by a read or write, a socket that went away before its handler ran, or a room's timer.
   */
  datatype Event =
    | Accept
    | Deliver(c: ConnId, decoded: Decoded, draws: seq<u32>, order: seq<ConnId>)
    | PeerClose(c: ConnId)
    | SocketLost(c: ConnId)
    | Expire(r: RoomId)

  ghost predicate Enumerates(order: seq<ConnId>, s: set<ConnId>) {
    && (forall i, j :: 0 <= i < j < |order| ==> order[i] != order[j])
    && (forall c :: c in order <==> c in s)
  }

  /** The participants a join by this packet would iterate over. */
  function JoinMembers(w: World, c: ConnId, decoded: Decoded): set<ConnId> {
    if decoded.Ok? && |decoded.packet.payload| >= 4 && ReadU32(decoded.packet.payload) in w.rooms
    then w.rooms[ReadU32(decoded.packet.payload)].participants.Keys + {c}
    else {}
  }

  ghost predicate Enabled(w: World, e: Event) {
    match e
    case Accept => true
    case Deliver(c, decoded, draws, order) =>
      c in w.conns && ValidDraws(draws) && Enumerates(order, JoinMembers(w, c, decoded))
    case PeerClose(c) => c in w.conns
    case SocketLost(c) => c in w.conns
    case Expire(r) => true
  }

  function DeliverOne(w: World, cfg: Config, c: ConnId, decoded: Decoded, draws: seq<u32>, order: seq<ConnId>): World
    requires ValidConfig(cfg) && c in w.conns
  {
    if !w.conns[c].Open() then w
    else if decoded.Invalid? then CloseConn(w, c)
    else if c in w.connRoom then
      if w.connRoom[c] in w.rooms then HandlePacket(w, w.connRoom[c], c, decoded.packet) else w
    else HandleLobby(w, cfg, c, decoded.packet, draws, order)
  }

  function Next(w: World, cfg: Config, e: Event): World
    requires ValidConfig(cfg) && Enabled(w, e)
  {
    match e
    case Accept =>
      w.(conns := w.conns[w.nextConn := Conn(false, true, [], 0)], nextConn := w.nextConn + 1)
    case Deliver(c, decoded, draws, order) => DeliverOne(w, cfg, c, decoded, draws, order)
    case PeerClose(c) => CloseConn(w, c)
    case SocketLost(c) => w.(conns := w.conns[c := w.conns[c].(socketOpen := false)])
    case Expire(r) => CloseRoom(w, r)
  }

  /** The state after a run of events, if each was enabled when it happened. */
  ghost function Run(w: World, cfg: Config, events: seq<Event>): Option<World>
    requires ValidConfig(cfg)
  {
    if events == [] then Some(w)
    else
      var n := |events| - 1;
      var before := Run(w, cfg, events[..n]);
      if before.Some? && Enabled(before.value, events[n]) then Some(Next(before.value, cfg, events[n])) else None
  }
}
