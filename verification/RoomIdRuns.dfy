/** Room ids over whole runs: the id 0, which clients read as a refusal, stays out until the counter wraps. */
module RoomIdRuns {
  import opened Options
  import opened Bytes
  import opened Wire
  import opened Framing
  import opened Meeting
  import opened MeetingInvariants
  import opened MeetingProofs
  import opened MeetingRuns
  import opened ServerSteps
  import RoomIds

  /** The counter stands above 0 and no room has the id 0. */
  ghost predicate Positive(w: World) {
    w.nextRoom > 0 && 0 !in w.rooms
  }

  /** The event opens a room. */
  ghost predicate Opens(w: World, cfg: Config, e: Event) {
    && e.Deliver? && e.decoded.Ok? && e.decoded.packet.kind == CreateMeeting && e.decoded.packet.userId != 0
    && e.c in w.conns && w.conns[e.c].Open() && e.c !in w.connRoom && |w.rooms| < cfg.maxRooms
  }

  /** The event opens a room by the counter, which walks to the last 32-bit id or past it. */
  ghost predicate CounterWraps(w: World, cfg: Config, e: Event) {
    && Opens(w, cfg, e) && FirstUnused(w.rooms.Keys, e.draws).None?
    && (var id := Sequential(w.rooms.Keys, w.nextRoom); id < w.nextRoom || id == U32_SIZE - 1)
  }

  lemma OpensRoom(w: World, cfg: Config, e: Event)
    requires ValidConfig(cfg) && Enabled(w, e) && Opens(w, cfg, e)
    ensures var (id, counter) := AllocateRoomId(w.rooms.Keys, e.draws, w.nextRoom);
            Next(w, cfg, e).rooms.Keys == w.rooms.Keys + {id} && Next(w, cfg, e).nextRoom == counter
  {
    hide AllocateRoomId, ParseOptions, ToBe;
    var _ := CreateShape(w, cfg, e.c, e.decoded.packet, e.draws);
  }

  lemma CloseOpensNone(w: World, c: ConnId)
    requires c in w.conns
    ensures CloseConn(w, c).nextRoom == w.nextRoom && CloseConn(w, c).rooms.Keys <= w.rooms.Keys
  {
  }

  lemma LobbyOpensNone(w: World, cfg: Config, c: ConnId, packet: Packet, draws: seq<u32>, order: seq<ConnId>)
    requires ValidConfig(cfg) && c in w.conns && w.conns[c].Open()
    requires packet.kind == CreateMeeting ==> packet.userId == 0 || |w.rooms| >= cfg.maxRooms
    ensures var w' := HandleLobby(w, cfg, c, packet, draws, order);
            w'.nextRoom == w.nextRoom && w'.rooms.Keys <= w.rooms.Keys
  {
    hide CloseConn, ReadU32, ParseOptions, ToBe, WelcomePackets, AllocateRoomId;
    CloseOpensNone(w, c);
  }

  /** No other event adds a room or moves the counter. */
  lemma OpensNone(w: World, cfg: Config, e: Event)
    requires ValidConfig(cfg) && Enabled(w, e) && !Opens(w, cfg, e)
    ensures Next(w, cfg, e).nextRoom == w.nextRoom && Next(w, cfg, e).rooms.Keys <= w.rooms.Keys
  {
    hide CloseConn, HandleLobby, ApplyProfile, ReadU32, ToBe;
    match e
    case Deliver(c, decoded, draws, order) =>
      CloseOpensNone(w, c);
      if w.conns[c].Open() && decoded.Ok? && c !in w.connRoom {
        LobbyOpensNone(w, cfg, c, decoded.packet, draws, order);
      }
    case PeerClose(c) => CloseOpensNone(w, c);
    case _ =>
  }

  /** From a counter above 0 and with no room 0, the allocation keeps both exactly when the counter does not wrap. */
  lemma AllocationPositive(used: set<RoomId>, draws: seq<u32>, counter: u32)
    requires |used| < U32_SIZE && ValidDraws(draws) && counter > 0 && 0 !in used
    ensures var (id, counter') := AllocateRoomId(used, draws, counter);
            var walked := Sequential(used, counter);
            id != 0 && counter' > 0
            <==> FirstUnused(used, draws).Some? || (walked >= counter && walked != U32_SIZE - 1)
  {
    RoomIds.FirstUnusedMeaning(used, draws);
    if FirstUnused(used, draws).None? {
      var k := RoomIds.SequentialStops(used, counter);
      var z := U32_SIZE - counter;
      assert RoomIds.At(counter, z) == 0;
      assert k <= z;
    }
  }

  /** An event keeps the id 0 out, and the counter above it, exactly when it does not wrap the counter. */
  lemma NextPositive(w: World, cfg: Config, e: Event)
    requires ValidConfig(cfg) && Good(w, cfg) && Enabled(w, e) && Positive(w)
    ensures Positive(Next(w, cfg, e)) <==> !CounterWraps(w, cfg, e)
  {
    hide Next, AllocateRoomId, Sequential, FirstUnused, Good;
    if Opens(w, cfg, e) {
      assert |w.rooms.Keys| == |w.rooms|;
      OpensRoom(w, cfg, e);
      Drawn(w.rooms.Keys, e.draws, w.nextRoom);
      AllocationPositive(w.rooms.Keys, e.draws, w.nextRoom);
    } else {
      OpensNone(w, cfg, e);
    }
  }

  lemma Drawn(used: set<RoomId>, draws: seq<u32>, counter: u32)
    ensures var (id, counter') := AllocateRoomId(used, draws, counter);
            FirstUnused(used, draws).Some? ==> counter' == counter
  {
  }

  /** No event of the run wraps the counter. */
  ghost predicate NeverWraps(w: World, cfg: Config, events: seq<Event>)
    requires ValidConfig(cfg)
  {
    forall n :: 0 <= n < |events| && Run(w, cfg, events[..n]).Some? ==>
      !CounterWraps(Run(w, cfg, events[..n]).value, cfg, events[n])
  }

  /** Until the counter wraps, no room of any reachable state has the id 0. */
  lemma {:induction false} EveryRunPositive(cfg: Config, events: seq<Event>)
    requires ValidConfig(cfg) && Run(INITIAL, cfg, events).Some? && NeverWraps(INITIAL, cfg, events)
    ensures Positive(Run(INITIAL, cfg, events).value)
  {
    if events != [] {
      hide Next, CounterWraps, Good;
      var n := |events| - 1;
      forall m | 0 <= m < n
        ensures events[..n][..m] == events[..m]
      {
      }
      EveryRunPositive(cfg, events[..n]);
      EveryRunGood(cfg, events[..n]);
      NextPositive(Run(INITIAL, cfg, events[..n]).value, cfg, events[n]);
    }
  }
}
