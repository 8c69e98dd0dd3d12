/** Each kind of event keeps the invariant of the meeting protocol. */
module MeetingProofs {
  import opened Options
  import opened Bytes
  import opened Wire
  import opened Framing
  import opened Meeting
  import opened MeetingInvariants
  import opened ServerSteps

  lemma MinusSize<K, V>(m: map<K, V>, k: K)
    ensures |m - {k}| == if k in m then |m| - 1 else |m|
  {
    assert (m - {k}).Keys == m.Keys - {k};
    assert |m - {k}| == |(m - {k}).Keys| && |m| == |m.Keys|;
  }

  // Closed forms of the closing paths

  /** The room is gone with every map entry for it, and the given members are closed. */
  ghost function Drained(w: World, r: RoomId, d: set<ConnId>): World {
    World(map c | c in w.conns :: if c in d then w.conns[c].MarkClosed() else w.conns[c],
          w.rooms - {r},
          map c | c in w.connRoom && w.connRoom[c] != r :: w.connRoom[c],
          w.nextConn, w.nextRoom)
  }

  ghost function OpenMembers(w: World, r: RoomId): set<ConnId>
    requires r in w.rooms
  {
    set c | c in w.rooms[r].participants && c in w.conns && w.conns[c].Open()
  }

  lemma ExpireShape(w: World, cfg: Config, r: RoomId)
    requires Inv(w, cfg) && r in w.rooms
    ensures CloseRoom(w, r) == Drained(w, r, OpenMembers(w, r))
  {
    assert RoomOk(w.rooms[r], cfg);
  }

  /** The owner's connection is closed and unmapped, and it is off the list, when close_room runs. */
  ghost function OwnerGone(w: World, r: RoomId, c: ConnId): World
    requires r in w.rooms && c in w.conns
  {
    DropParticipant(w.(conns := w.conns[c := w.conns[c].MarkClosed()], connRoom := w.connRoom - {c}), r, c)
  }

  lemma OwnerGoneDrains(w: World, r: RoomId, c: ConnId)
    requires r in w.rooms && !w.rooms[r].closed && c in w.conns
    requires c in w.connRoom && w.connRoom[c] == r
    ensures CloseRoom(OwnerGone(w, r, c), r) == Drained(w, r, OpenMembers(w, r) + {c})
  {
    var got, want := CloseRoom(OwnerGone(w, r, c), r), Drained(w, r, OpenMembers(w, r) + {c});
    assert got.rooms == want.rooms;
    assert got.connRoom == want.connRoom;
    assert got.conns == want.conns;
  }

  lemma OwnerCloseShape(w: World, cfg: Config, c: ConnId)
    requires Inv(w, cfg) && c in w.connRoom && w.rooms[w.connRoom[c]].participants[c].isOwner
    ensures CloseConn(w, c) == Drained(w, w.connRoom[c], OpenMembers(w, w.connRoom[c]) + {c})
  {
    var r := w.connRoom[c];
    assert RoomOk(w.rooms[r], cfg);
    assert CloseConn(w, c) == CloseRoom(OwnerGone(w, r, c), r);
    OwnerGoneDrains(w, r, c);
  }

  /** A member that is not the owner leaves: the others are told. */
  ghost function Left(w: World, r: RoomId, c: ConnId): World
    requires r in w.rooms && c in w.rooms[r].participants && c in w.conns
  {
    var w' := DropParticipant(w, r, c);
    w'.(connRoom := w.connRoom - {c},
        conns := Broadcast(w.conns[c := w.conns[c].MarkClosed()], w'.rooms[r].participants.Keys, 0,
                           Packet(PartnerExit, w.rooms[r].participants[c].profile.userId, [])))
  }

  lemma MemberCloseShape(w: World, cfg: Config, c: ConnId)
    requires Inv(w, cfg) && c in w.connRoom && !w.rooms[w.connRoom[c]].participants[c].isOwner
    ensures CloseConn(w, c) == Left(w, w.connRoom[c], c)
  {
    assert RoomOk(w.rooms[w.connRoom[c]], cfg);
  }

  // Draining a room

  lemma DrainedAgrees(w: World, r: RoomId, d: set<ConnId>)
    requires Agree(w) && r in w.rooms
    ensures Agree(Drained(w, r, d))
  {
  }

  lemma DrainedRooms(w: World, cfg: Config, r: RoomId, d: set<ConnId>)
    requires RoomsOk(w, cfg) && r in w.rooms
    ensures RoomsOk(Drained(w, r, d), cfg)
  {
    MinusSize(w.rooms, r);
    var w' := Drained(w, r, d);
    assert forall s :: s in w'.rooms ==> s in w.rooms && w'.rooms[s] == w.rooms[s];
  }

  lemma DrainedConns(w: World, r: RoomId, d: set<ConnId>)
    requires Agree(w) && ConnsOk(w) && LobbyOk(w) && r in w.rooms
    requires OpenMembers(w, r) <= d <= w.rooms[r].participants.Keys
    ensures ConnsOk(Drained(w, r, d)) && LobbyOk(Drained(w, r, d))
  {
    var w' := Drained(w, r, d);
    forall c | c in w'.conns
      ensures w'.conns[c].closeEvents == if w'.conns[c].closed then 1 else 0
      ensures c in w'.connRoom ==> !w'.conns[c].closed
    {
      assert c in d ==> c in w.connRoom && w.connRoom[c] == r;
    }
    forall c | c in w'.conns && w'.conns[c].Open() && c !in w'.connRoom
      ensures c !in w.connRoom && w'.conns[c].sent == w.conns[c].sent
    {
    }
  }

  lemma DrainedKeeps(w: World, cfg: Config, r: RoomId, d: set<ConnId>)
    requires Inv(w, cfg) && LobbyOk(w) && r in w.rooms
    requires OpenMembers(w, r) <= d <= w.rooms[r].participants.Keys
    ensures Inv(Drained(w, r, d), cfg) && LobbyOk(Drained(w, r, d))
  {
    DrainedAgrees(w, r, d);
    DrainedRooms(w, cfg, r, d);
    DrainedConns(w, r, d);
  }

  lemma DrainedTells(w: World, cfg: Config, r: RoomId, d: set<ConnId>)
    requires Inv(w, cfg) && r in w.rooms
    requires OpenMembers(w, r) <= d <= w.rooms[r].participants.Keys
    ensures SettingsOk(w) ==> SettingsOk(Drained(w, r, d))
    ensures ViewsOk(w) ==> ViewsOk(Drained(w, r, d))
  {
    var w' := Drained(w, r, d);
    forall c | c in w'.conns
      ensures SettingOk(w, c) ==> SettingOk(w', c)
      ensures ViewOk(w, c) ==> ViewOk(w', c)
    {
    }
  }

  // Leaving

  lemma LeftAgrees(w: World, r: RoomId, c: ConnId)
    requires Agree(w) && c in w.connRoom && w.connRoom[c] == r && c in w.conns
    ensures Agree(Left(w, r, c))
  {
  }

  lemma LeftRoom(room: Room, cfg: Config, c: ConnId)
    requires RoomOk(room, cfg) && c in room.participants && !room.participants[c].isOwner
    ensures RoomOk(room.(participants := room.participants - {c}), cfg)
  {
    var parts, parts' := room.participants, room.participants - {c};
    MinusSize(parts, c);
    var o :| o in parts && parts[o].isOwner && forall d :: d in parts && parts[d].isOwner ==> d == o;
    assert o in parts' && parts'[o].isOwner && forall d :: d in parts' && parts'[d].isOwner ==> d == o;
  }

  lemma LeftRooms(w: World, cfg: Config, r: RoomId, c: ConnId)
    requires RoomsOk(w, cfg) && r in w.rooms && c in w.rooms[r].participants && c in w.conns
    requires !w.rooms[r].participants[c].isOwner
    ensures RoomsOk(Left(w, r, c), cfg)
  {
    hide RoomOk, Broadcast;
    LeftRoom(w.rooms[r], cfg, c);
    RoomReplaced(w, cfg, r, Left(w, r, c).rooms[r]);
  }

  lemma LeftConns(w: World, r: RoomId, c: ConnId)
    requires Agree(w) && ConnsOk(w) && LobbyOk(w) && c in w.connRoom && w.connRoom[c] == r && c in w.conns
    ensures ConnsOk(Left(w, r, c)) && LobbyOk(Left(w, r, c))
  {
    var w' := Left(w, r, c);
    forall d | d in w'.conns && w'.conns[d].Open() && d !in w'.connRoom
      ensures d !in w.connRoom && w'.conns[d].sent == w.conns[d].sent
    {
    }
  }

  lemma LeftKeeps(w: World, cfg: Config, r: RoomId, c: ConnId)
    requires Inv(w, cfg) && LobbyOk(w) && c in w.connRoom && w.connRoom[c] == r
    requires !w.rooms[r].participants[c].isOwner
    ensures Inv(Left(w, r, c), cfg) && LobbyOk(Left(w, r, c))
  {
    LeftAgrees(w, r, c);
    LeftRooms(w, cfg, r, c);
    LeftConns(w, r, c);
  }

  lemma LeftTellsOne(w: World, r: RoomId, c: ConnId, d: ConnId)
    requires Agree(w) && ConnsOk(w) && c in w.connRoom && w.connRoom[c] == r && c in w.conns
    requires d in w.conns && d in w.rooms[r].participants && d != c && w.conns[d].Open()
    ensures SettingOk(w, d) ==> SettingOk(Left(w, r, c), d)
    ensures ViewOk(w, d) ==> ViewOk(Left(w, r, c), d)
  {
    var w' := Left(w, r, c);
    var parts := w.rooms[r].participants;
    var notice := Packet(PartnerExit, parts[c].profile.userId, []);
    assert w'.conns[d].sent == w.conns[d].sent + [notice];
    ReplayAppend(w.conns[d].sent, notice);
    IdsRemove(parts - {d}, c);
    MinusCommutes(parts, c, d);
  }

  lemma LeftTells(w: World, cfg: Config, r: RoomId, c: ConnId)
    requires Inv(w, cfg) && c in w.connRoom && w.connRoom[c] == r
    requires !w.rooms[r].participants[c].isOwner
    ensures SettingsOk(w) ==> SettingsOk(Left(w, r, c))
    ensures ViewsOk(w) ==> ViewsOk(Left(w, r, c))
  {
    var w' := Left(w, r, c);
    forall d | d in w'.conns
      ensures SettingOk(w, d) ==> SettingOk(w', d)
      ensures ViewOk(w, d) ==> ViewOk(w', d)
    {
      if d != c && d in w.rooms[r].participants && w.conns[d].Open() {
        LeftTellsOne(w, r, c, d);
      } else if d != c {
        assert w'.conns[d] == w.conns[d];
      }
    }
  }

  // Events that touch one connection outside rooms

  lemma SameRooms(w: World, w': World, cfg: Config)
    requires Agree(w) && RoomsOk(w, cfg) && w'.rooms == w.rooms && w'.connRoom == w.connRoom
    ensures Agree(w') && RoomsOk(w', cfg)
  {
  }

  /** Connection c changed without touching rooms, and stays silent about them. */
  lemma TouchedKeeps(w: World, cfg: Config, c: ConnId, k: Conn)
    requires Inv(w, cfg) && LobbyOk(w) && c in w.conns
    requires k.closeEvents == if k.closed then 1 else 0
    requires c in w.connRoom ==> !k.closed
    requires k.Open() ==> w.conns[c].Open()
    requires k.Open() && c !in w.connRoom ==> forall p :: p in k.sent ==> LobbyKind(p.kind)
    ensures Inv(w.(conns := w.conns[c := k]), cfg) && LobbyOk(w.(conns := w.conns[c := k]))
  {
    var w' := w.(conns := w.conns[c := k]);
    SameRooms(w, w', cfg);
    assert ConnsOk(w');
  }

  lemma TouchedTells(w: World, c: ConnId, k: Conn)
    requires c in w.conns
    requires k.Open() ==> w.conns[c].Open()
    requires k.Open() && c in w.connRoom ==>
               Replay(k.sent) == Replay(w.conns[c].sent) && LastSettings(k.sent) == LastSettings(w.conns[c].sent)
    ensures SettingsOk(w) ==> SettingsOk(w.(conns := w.conns[c := k]))
    ensures ViewsOk(w) ==> ViewsOk(w.(conns := w.conns[c := k]))
  {
    var w' := w.(conns := w.conns[c := k]);
    forall d | d in w'.conns
      ensures SettingOk(w, d) ==> SettingOk(w', d)
      ensures ViewOk(w, d) ==> ViewOk(w', d)
    {
    }
  }

  lemma AcceptKeeps(w: World, cfg: Config)
    requires ValidConfig(cfg) && Inv(w, cfg) && LobbyOk(w)
    ensures Inv(Next(w, cfg, Accept), cfg) && LobbyOk(Next(w, cfg, Accept))
  {
    SameRooms(w, Next(w, cfg, Accept), cfg);
  }

  lemma AcceptTells(w: World, cfg: Config)
    requires ValidConfig(cfg) && Inv(w, cfg)
    ensures SettingsOk(w) ==> SettingsOk(Next(w, cfg, Accept))
    ensures ViewsOk(w) ==> ViewsOk(Next(w, cfg, Accept))
  {
    var w' := Next(w, cfg, Accept);
    forall d | d in w'.conns
      ensures SettingsOk(w) ==> SettingOk(w', d)
      ensures ViewsOk(w) ==> ViewOk(w', d)
    {
      assert d in w.conns ==> (SettingsOk(w) ==> SettingOk(w, d)) && (ViewsOk(w) ==> ViewOk(w, d));
    }
  }

  /** A lobby reply. */
  lemma ReplyKeeps(w: World, cfg: Config, c: ConnId, p: Packet)
    requires Inv(w, cfg) && LobbyOk(w) && c in w.conns && LobbyKind(p.kind)
    ensures Inv(Reply(w, c, p), cfg) && LobbyOk(Reply(w, c, p))
  {
    if !w.conns[c].closed {
      var k := w.conns[c].Receive([p]);
      assert forall q :: q in k.sent ==> q in w.conns[c].sent || q == p;
      assert w.conns[c].Open() && c !in w.connRoom ==> forall q :: q in w.conns[c].sent ==> LobbyKind(q.kind);
      TouchedKeeps(w, cfg, c, k);
    }
  }

  lemma ReplyTells(w: World, c: ConnId, p: Packet)
    requires c in w.conns && LobbyKind(p.kind)
    ensures SettingsOk(w) ==> SettingsOk(Reply(w, c, p))
    ensures ViewsOk(w) ==> ViewsOk(Reply(w, c, p))
  {
    if !w.conns[c].closed {
      ReplayAppend(w.conns[c].sent, p);
      TouchedTells(w, c, w.conns[c].Receive([p]));
    }
  }

  // Closing a connection, whatever it was doing

  lemma CloseConnKeeps(w: World, cfg: Config, c: ConnId)
    requires Inv(w, cfg) && LobbyOk(w) && c in w.conns
    ensures Inv(CloseConn(w, c), cfg) && LobbyOk(CloseConn(w, c))
    ensures SettingsOk(w) ==> SettingsOk(CloseConn(w, c))
    ensures ViewsOk(w) ==> ViewsOk(CloseConn(w, c))
  {
    if w.conns[c].closed {
    } else if c !in w.connRoom {
      TouchedKeeps(w, cfg, c, w.conns[c].MarkClosed());
      TouchedTells(w, c, w.conns[c].MarkClosed());
    } else {
      var r := w.connRoom[c];
      if w.rooms[r].participants[c].isOwner {
        OwnerCloseShape(w, cfg, c);
        DrainedKeeps(w, cfg, r, OpenMembers(w, r) + {c});
        DrainedTells(w, cfg, r, OpenMembers(w, r) + {c});
      } else {
        MemberCloseShape(w, cfg, c);
        LeftKeeps(w, cfg, r, c);
        LeftTells(w, cfg, r, c);
      }
    }
  }

  lemma ExpireKeeps(w: World, cfg: Config, r: RoomId)
    requires Inv(w, cfg) && LobbyOk(w)
    ensures Inv(CloseRoom(w, r), cfg) && LobbyOk(CloseRoom(w, r))
    ensures SettingsOk(w) ==> SettingsOk(CloseRoom(w, r))
    ensures ViewsOk(w) ==> ViewsOk(CloseRoom(w, r))
  {
    if r in w.rooms {
      ExpireShape(w, cfg, r);
      DrainedKeeps(w, cfg, r, OpenMembers(w, r));
      DrainedTells(w, cfg, r, OpenMembers(w, r));
    }
  }

  // Broadcasts inside a room

  /** Telling members something changes no one's standing. */
  lemma BroadcastKeeps(w: World, cfg: Config, r: RoomId, exclude: ConnId, p: Packet)
    requires Inv(w, cfg) && LobbyOk(w) && r in w.rooms
    ensures var w' := w.(conns := Broadcast(w.conns, w.rooms[r].participants.Keys, exclude, p));
            Inv(w', cfg) && LobbyOk(w')
  {
    var w' := w.(conns := Broadcast(w.conns, w.rooms[r].participants.Keys, exclude, p));
    SameRooms(w, w', cfg);
    BroadcastConns(w, r, exclude, p);
  }

  lemma BroadcastConns(w: World, r: RoomId, exclude: ConnId, p: Packet)
    requires Agree(w) && ConnsOk(w) && LobbyOk(w) && r in w.rooms
    ensures var w' := w.(conns := Broadcast(w.conns, w.rooms[r].participants.Keys, exclude, p));
            ConnsOk(w') && LobbyOk(w')
  {
    var w' := w.(conns := Broadcast(w.conns, w.rooms[r].participants.Keys, exclude, p));
    forall c | c in w'.conns
      ensures w'.conns[c].closed == w.conns[c].closed && w'.conns[c].closeEvents == w.conns[c].closeEvents
      ensures c !in w.connRoom ==> w'.conns[c] == w.conns[c]
    {
    }
  }

  lemma NeutralBroadcastTells(w: World, r: RoomId, exclude: ConnId, p: Packet)
    requires r in w.rooms && Neutral(p.kind)
    ensures var w' := w.(conns := Broadcast(w.conns, w.rooms[r].participants.Keys, exclude, p));
            (SettingsOk(w) ==> SettingsOk(w')) && (ViewsOk(w) ==> ViewsOk(w'))
  {
    var w' := w.(conns := Broadcast(w.conns, w.rooms[r].participants.Keys, exclude, p));
    forall c | c in w'.conns
      ensures SettingOk(w, c) ==> SettingOk(w', c)
      ensures ViewOk(w, c) ==> ViewOk(w', c)
    {
      ReplayAppend(w.conns[c].sent, p);
    }
  }

  // Profiles

  lemma ReprofiledRoom(room: Room, cfg: Config, c: ConnId, profile: Profile)
    requires RoomOk(room, cfg) && c in room.participants
    requires |profile.name| < 0x1_0000 && |profile.avatar| < 0x1_0000
    ensures RoomOk(room.(participants := room.participants[c := room.participants[c].(profile := profile)]), cfg)
  {
    var parts := room.participants;
    var parts' := parts[c := parts[c].(profile := profile)];
    assert parts'.Keys == parts.Keys && |parts'| == |parts'.Keys| && |parts| == |parts.Keys|;
    var o :| o in parts && parts[o].isOwner && forall d :: d in parts && parts[d].isOwner ==> d == o;
    assert o in parts' && parts'[o].isOwner && forall d :: d in parts' && parts'[d].isOwner ==> d == o;
  }

  lemma RoomReplaced(w: World, cfg: Config, r: RoomId, room: Room)
    requires RoomsOk(w, cfg) && r in w.rooms && RoomOk(room, cfg)
    ensures RoomsOk(w.(rooms := w.rooms[r := room]), cfg)
  {
    var rooms := w.rooms[r := room];
    assert rooms.Keys == w.rooms.Keys && |rooms| == |rooms.Keys| && |w.rooms| == |w.rooms.Keys|;
  }

  lemma SameMembers(w: World, r: RoomId, room: Room)
    requires Agree(w) && r in w.rooms && room.participants.Keys == w.rooms[r].participants.Keys
    ensures Agree(w.(rooms := w.rooms[r := room]))
  {
  }

  lemma ReprofiledKeeps(w: World, cfg: Config, r: RoomId, c: ConnId, profile: Profile)
    requires Inv(w, cfg) && LobbyOk(w) && r in w.rooms && c in w.rooms[r].participants
    requires |profile.name| < 0x1_0000 && |profile.avatar| < 0x1_0000
    ensures Inv(Reprofiled(w, r, c, profile), cfg) && LobbyOk(Reprofiled(w, r, c, profile))
  {
    var room := Reprofiled(w, r, c, profile).rooms[r];
    ReprofiledRoom(w.rooms[r], cfg, c, profile);
    RoomReplaced(w, cfg, r, room);
    SameMembers(w, r, room);
  }

  /** Settings knowledge never depends on profiles. */
  lemma ReprofiledSettings(w: World, r: RoomId, c: ConnId, profile: Profile)
    requires r in w.rooms && c in w.rooms[r].participants
    ensures SettingsOk(w) ==> SettingsOk(Reprofiled(w, r, c, profile))
  {
    var w' := Reprofiled(w, r, c, profile);
    forall d | d in w'.conns
      ensures SettingOk(w, d) ==> SettingOk(w', d)
    {
    }
  }

  lemma OthersReprofiled(parts: map<ConnId, Participant>, c: ConnId, p: Participant, d: ConnId)
    requires c in parts && d in parts && c != d
    ensures OthersIds(parts[c := p], d) + multiset{parts[c].profile.userId}
            == OthersIds(parts, d) + multiset{p.profile.userId}
  {
    var rest := parts - {d};
    assert parts[c := p] - {d} == rest[c := p];
    IdsReplace(rest, c, p);
  }

  lemma IdsReplace(m: map<ConnId, Participant>, c: ConnId, p: Participant)
    requires c in m
    ensures Ids(m[c := p]) + multiset{m[c].profile.userId} == Ids(m) + multiset{p.profile.userId}
  {
    hide Ids;
    IdsRemove(m, c);
    IdsRemove(m[c := p], c);
    assert m[c := p] - {c} == m - {c};
    AddsCommute(Ids(m - {c}), m[c].profile.userId, p.profile.userId);
  }

  lemma AddsCommute(b: multiset<u64>, x: u64, y: u64)
    ensures b + multiset{x} + multiset{y} == b + multiset{y} + multiset{x}
  {
  }

  /** Views survive a profile change exactly when the id stays or no one else open is there to see it. */
  lemma ReprofiledViews(w: World, cfg: Config, r: RoomId, c: ConnId, profile: Profile)
    requires Inv(w, cfg) && ViewsOk(w) && r in w.rooms && c in w.rooms[r].participants
    ensures ViewsOk(Reprofiled(w, r, c, profile))
            <==> profile.userId == w.rooms[r].participants[c].profile.userId || OpenMembers(w, r) <= {c}
  {
    var w' := Reprofiled(w, r, c, profile);
    var parts := w.rooms[r].participants;
    var p := parts[c].(profile := profile);
    forall d | d in w'.conns
      ensures ViewOk(w', d)
              <==> profile.userId == parts[c].profile.userId || d == c || d !in OpenMembers(w, r)
    {
      assert ViewOk(w, d);
      ReprofiledView(w, r, c, profile, d);
    }
    if d :| d in OpenMembers(w, r) && d != c {
      assert d in w'.conns;
    }
  }

  lemma ReprofiledView(w: World, r: RoomId, c: ConnId, profile: Profile, d: ConnId)
    requires Agree(w) && r in w.rooms && c in w.rooms[r].participants && d in w.conns && ViewOk(w, d)
    ensures ViewOk(Reprofiled(w, r, c, profile), d)
            <==> profile.userId == w.rooms[r].participants[c].profile.userId || d == c || d !in OpenMembers(w, r)
  {
    var parts := w.rooms[r].participants;
    var p := parts[c].(profile := profile);
    if d == c {
      assert parts[c := p] - {c} == parts - {c};
    } else if d in OpenMembers(w, r) {
      OthersReprofiled(parts, c, p, d);
      SingletonsDiffer(OthersIds(parts[c := p], d), OthersIds(parts, d), parts[c].profile.userId, profile.userId);
    }
  }

  lemma SingletonsDiffer(a: multiset<u64>, b: multiset<u64>, x: u64, y: u64)
    requires a + multiset{x} == b + multiset{y}
    ensures a == b <==> x == y
  {
    if a == b {
      assert (a + multiset{x})[x] == (b + multiset{y})[x];
    }
    if x == y {
      assert a == a + multiset{x} - multiset{x};
      assert b == b + multiset{y} - multiset{y};
    }
  }

  // Settings

  /** New flags for a room, told to every open member including the sender. */
  ghost function Resettled(w: World, r: RoomId, flags: u32, userId: u64): World
    requires r in w.rooms
  {
    w.(rooms := w.rooms[r := w.rooms[r].(settings := flags)],
       conns := Broadcast(w.conns, w.rooms[r].participants.Keys, 0, Packet(RoomSettingsNotify, userId, ToBe(4, flags))))
  }

  lemma ResettledKeeps(w: World, cfg: Config, r: RoomId, flags: u32, userId: u64)
    requires Inv(w, cfg) && LobbyOk(w) && r in w.rooms
    ensures Inv(Resettled(w, r, flags, userId), cfg) && LobbyOk(Resettled(w, r, flags, userId))
  {
    var room := w.rooms[r].(settings := flags);
    assert RoomOk(w.rooms[r], cfg) && RoomOk(room, cfg);
    var w1 := w.(rooms := w.rooms[r := room]);
    RoomReplaced(w, cfg, r, room);
    SameMembers(w, r, room);
    BroadcastKeeps(w1, cfg, r, 0, Packet(RoomSettingsNotify, userId, ToBe(4, flags)));
  }

  lemma SettingsTells(sent: seq<Packet>, userId: u64, flags: u32)
    ensures var notice := Packet(RoomSettingsNotify, userId, ToBe(4, flags));
            Replay(sent + [notice]) == Replay(sent) && LastSettings(sent + [notice]) == Some(flags)
  {
    ReadWrittenU32(flags);
    ReplayAppend(sent, Packet(RoomSettingsNotify, userId, ToBe(4, flags)));
  }

  lemma ResettledTells(w: World, cfg: Config, r: RoomId, flags: u32, userId: u64)
    requires Inv(w, cfg) && r in w.rooms
    ensures SettingsOk(w) ==> SettingsOk(Resettled(w, r, flags, userId))
    ensures ViewsOk(w) ==> ViewsOk(Resettled(w, r, flags, userId))
  {
    hide Replay, LastSettings, Ids, ToBe;
    var w' := Resettled(w, r, flags, userId);
    forall c | c in w'.conns
      ensures SettingOk(w, c) ==> SettingOk(w', c)
      ensures ViewOk(w, c) ==> ViewOk(w', c)
    {
      SettingsTells(w.conns[c].sent, userId, flags);
    }
  }

  // Creating

  lemma OpenedAgrees(w: World, id: RoomId, c: ConnId, room: Room, counter: u32)
    requires Agree(w) && id !in w.rooms && c !in w.connRoom && room.participants.Keys == {c}
    ensures Agree(Opened(w, id, c, room, counter))
  {
  }

  lemma OpenedKeeps(w: World, cfg: Config, id: RoomId, c: ConnId, room: Room, counter: u32)
    requires Inv(w, cfg) && LobbyOk(w) && id !in w.rooms && |w.rooms| < cfg.maxRooms
    requires c in w.conns && w.conns[c].Open() && c !in w.connRoom
    requires RoomOk(room, cfg) && room.participants.Keys == {c}
    ensures Inv(Opened(w, id, c, room, counter), cfg) && LobbyOk(Opened(w, id, c, room, counter))
  {
    hide RoomOk;
    var w' := Opened(w, id, c, room, counter);
    OpenedAgrees(w, id, c, room, counter);
    assert RoomsOk(w', cfg);
  }

  lemma OpenedTells(w: World, cfg: Config, id: RoomId, c: ConnId, room: Room, counter: u32)
    requires Inv(w, cfg) && LobbyOk(w) && id !in w.rooms
    requires c in w.conns && w.conns[c].Open() && c !in w.connRoom
    requires room.participants.Keys == {c} && room.participants[c].isOwner && room.settings == SETTINGS_DEFAULT
    ensures SettingsOk(w) ==> SettingsOk(Opened(w, id, c, room, counter))
    ensures ViewsOk(w) ==> ViewsOk(Opened(w, id, c, room, counter))
  {
    var w' := Opened(w, id, c, room, counter);
    LobbySent(w.conns[c].sent);
    assert room.participants - {c} == map[];
    forall d | d in w'.conns
      ensures SettingOk(w, d) ==> SettingOk(w', d)
      ensures ViewOk(w, d) ==> ViewOk(w', d)
    {
    }
  }

  // Joining

  lemma EnteredRoom(room: Room, cfg: Config, c: ConnId, p: Participant)
    requires RoomOk(room, cfg) && c !in room.participants && |room.participants| < room.maxParticipants
    requires !p.isOwner && p.profile.name == [] && p.profile.avatar == []
    ensures RoomOk(room.(participants := room.participants[c := p]), cfg)
  {
    var parts, parts' := room.participants, room.participants[c := p];
    var o :| o in parts && parts[o].isOwner && forall d :: d in parts && parts[d].isOwner ==> d == o;
    assert o in parts' && parts'[o].isOwner && forall d :: d in parts' && parts'[d].isOwner ==> d == o;
  }

  lemma EnteredAgrees(w: World, r: RoomId, c: ConnId, p: Participant)
    requires Agree(w) && r in w.rooms && c !in w.connRoom
    ensures Agree(Entered(w, r, c, p))
  {
  }

  lemma EnteredKeeps(w: World, cfg: Config, r: RoomId, c: ConnId, p: Participant)
    requires Inv(w, cfg) && LobbyOk(w) && r in w.rooms && c !in w.connRoom && c in w.conns && w.conns[c].Open()
    requires |w.rooms[r].participants| < w.rooms[r].maxParticipants
    requires !p.isOwner && p.profile.name == [] && p.profile.avatar == []
    ensures Inv(Entered(w, r, c, p), cfg) && LobbyOk(Entered(w, r, c, p))
  {
    EnteredRoom(w.rooms[r], cfg, c, p);
    RoomReplaced(w, cfg, r, Entered(w, r, c, p).rooms[r]);
    EnteredAgrees(w, r, c, p);
  }

  /** The participants whose connections appear in a list, without one. */
  ghost function Listed(order: seq<ConnId>, parts: map<ConnId, Participant>, newcomer: ConnId)
    : map<ConnId, Participant>
  {
    map c | c in parts && c in order && c != newcomer :: parts[c]
  }

  lemma ListedOneMore(init: seq<ConnId>, c: ConnId, parts: map<ConnId, Participant>, newcomer: ConnId)
    ensures Listed(init + [c], parts, newcomer)
            == if c == newcomer || c !in parts then Listed(init, parts, newcomer)
               else Listed(init, parts, newcomer)[c := parts[c]]
  {
  }

  /** A newcomer's list holds the ids of exactly the listed others, whatever the iteration order. */
  lemma {:induction false} ListIdsExact(order: seq<ConnId>, parts: map<ConnId, Participant>, newcomer: ConnId)
    requires forall i, j :: 0 <= i < j < |order| ==> order[i] != order[j]
    ensures multiset(ListIds(order, parts, newcomer)) == Ids(Listed(order, parts, newcomer))
  {
    hide Ids;
    if order == [] {
      assert Listed(order, parts, newcomer) == map[];
      IdsOfNone();
    } else {
      var n := |order| - 1;
      var init, c := order[..n], order[n];
      ListIdsExact(init, parts, newcomer);
      assert order == init + [c];
      ListedOneMore(init, c, parts, newcomer);
      if c != newcomer && c in parts {
        assert c !in init;
        IdsAdd(Listed(init, parts, newcomer), c, parts[c]);
      }
    }
  }

  lemma IdsOfNone()
    ensures Ids(map[]) == multiset{}
  {
  }

  lemma EnumeratedIds(order: seq<ConnId>, parts: map<ConnId, Participant>, newcomer: ConnId)
    requires Enumerates(order, parts.Keys)
    ensures multiset(ListIds(order, parts, newcomer)) == OthersIds(parts, newcomer)
  {
    ListIdsExact(order, parts, newcomer);
    assert Listed(order, parts, newcomer) == parts - {newcomer};
  }

  lemma {:induction false} ListedProfilesNeutral(order: seq<ConnId>, parts: map<ConnId, Participant>, newcomer: ConnId)
    ensures forall p :: p in ListProfiles(order, parts, newcomer) ==> p.kind == UserProfile
  {
    if order != [] {
      ListedProfilesNeutral(order[..|order| - 1], parts, newcomer);
    }
  }

  /** A welcome leaves the newcomer with the others' ids and the room's flags, whatever it knew before. */
  lemma WelcomeTells(sent: seq<Packet>, order: seq<ConnId>, room: Room, newcomer: ConnId)
    requires Enumerates(order, room.participants.Keys)
    ensures var after := sent + WelcomePackets(order, room, newcomer);
            Replay(after) == OthersIds(room.participants, newcomer) && LastSettings(after) == Some(room.settings)
  {
    var ids := ListIds(order, room.participants, newcomer);
    var list := Packet(PartnerJoin2, 0, IdList(ids));
    var settings := Packet(RoomSettingsNotify, 0, ToBe(4, room.settings));
    var profiles := ListProfiles(order, room.participants, newcomer);
    EnumeratedIds(order, room.participants, newcomer);
    ListTells(sent, ids);
    SettingsTells(sent + [list], 0, room.settings);
    ListedProfilesNeutral(order, room.participants, newcomer);
    NeutralTail(sent, list, settings, profiles);
  }

  lemma NeutralTail(sent: seq<Packet>, a: Packet, b: Packet, more: seq<Packet>)
    requires forall p :: p in more ==> p.kind == UserProfile
    ensures Replay(sent + ([a, b] + more)) == Replay(sent + [a] + [b])
    ensures LastSettings(sent + ([a, b] + more)) == LastSettings(sent + [a] + [b])
  {
    hide Replay, LastSettings;
    NeutralAppend(sent + [a] + [b], more);
    assert sent + ([a, b] + more) == sent + [a] + [b] + more;
  }

  lemma ListTells(sent: seq<Packet>, ids: seq<u64>)
    ensures Replay(sent + [Packet(PartnerJoin2, 0, IdList(ids))]) == multiset(ids)
  {
    IdListRoundTrip(ids, []);
    assert IdList(ids) + [] == IdList(ids);
    ReplayAppend(sent, Packet(PartnerJoin2, 0, IdList(ids)));
  }

  lemma NotifyKeeps(w: World, cfg: Config, r: RoomId, c: ConnId, order: seq<ConnId>)
    requires Inv(w, cfg) && LobbyOk(w) && c in w.connRoom && w.connRoom[c] == r
    ensures Inv(NotifyUserJoined(w, r, c, order), cfg) && LobbyOk(NotifyUserJoined(w, r, c, order))
  {
    var room := w.rooms[r];
    assert RoomOk(room, cfg);
    var notice := Packet(PartnerJoin, room.participants[c].profile.userId, []);
    var w1 := w.(conns := Broadcast(w.conns, room.participants.Keys, c, notice));
    BroadcastKeeps(w, cfg, r, c, notice);
    if w1.conns[c].Open() {
      TouchedKeeps(w1, cfg, c, w1.conns[c].Receive(WelcomePackets(order, room, c)));
    }
  }

  /** A whole successful join: on the list, replied to, announced and welcomed. */
  ghost function Joined(w: World, r: RoomId, c: ConnId, p: Participant, order: seq<ConnId>): (w': World)
    requires r in w.rooms && c in w.conns
    ensures w'.conns.Keys == w.conns.Keys
  {
    NotifyUserJoined(Reply(Entered(w, r, c, p), c, JoinReply(r)), r, c, order)
  }

  lemma JoinedKeeps(w: World, cfg: Config, r: RoomId, c: ConnId, p: Participant, order: seq<ConnId>)
    requires Inv(w, cfg) && LobbyOk(w) && r in w.rooms && c !in w.connRoom && c in w.conns && w.conns[c].Open()
    requires |w.rooms[r].participants| < w.rooms[r].maxParticipants
    requires !p.isOwner && p.profile.name == [] && p.profile.avatar == []
    ensures Inv(Joined(w, r, c, p, order), cfg) && LobbyOk(Joined(w, r, c, p, order))
  {
    EnteredKeeps(w, cfg, r, c, p);
    ReplyKeeps(Entered(w, r, c, p), cfg, c, JoinReply(r));
    NotifyKeeps(Reply(Entered(w, r, c, p), c, JoinReply(r)), cfg, r, c, order);
  }

  lemma JoinedShape(w: World, r: RoomId, c: ConnId, p: Participant, order: seq<ConnId>)
    requires r in w.rooms && !w.rooms[r].closed && c in w.conns && w.conns[c].Open()
    ensures var w' := Joined(w, r, c, p, order);
            var room' := w.rooms[r].(participants := w.rooms[r].participants[c := p]);
            && w'.connRoom == w.connRoom[c := r] && w'.rooms == w.rooms[r := room'] && w'.nextConn == w.nextConn
            && w'.conns.Keys == w.conns.Keys
            && w'.conns[c] == w.conns[c].Receive([JoinReply(r)]).Receive(WelcomePackets(order, room', c))
            && forall d :: d in w.conns && d != c ==>
                 w'.conns[d] == if d in w.rooms[r].participants && w.conns[d].Open()
                                then w.conns[d].Receive([Packet(PartnerJoin, p.profile.userId, [])])
                                else w.conns[d]
  {
  }

  lemma JoinedTellsNewcomer(w: World, r: RoomId, c: ConnId, p: Participant, order: seq<ConnId>)
    requires r in w.rooms && !w.rooms[r].closed && c in w.conns && w.conns[c].Open() && c !in w.rooms[r].participants
    requires Enumerates(order, w.rooms[r].participants.Keys + {c})
    ensures SettingOk(Joined(w, r, c, p, order), c) && ViewOk(Joined(w, r, c, p, order), c)
  {
    JoinedShape(w, r, c, p, order);
    var room' := w.rooms[r].(participants := w.rooms[r].participants[c := p]);
    assert room'.participants.Keys == w.rooms[r].participants.Keys + {c};
    WelcomeTells(w.conns[c].sent + [JoinReply(r)], order, room', c);
  }

  lemma JoinedTellsMember(w: World, r: RoomId, c: ConnId, p: Participant, order: seq<ConnId>, d: ConnId)
    requires Agree(w) && r in w.rooms && !w.rooms[r].closed && c in w.conns && w.conns[c].Open() && c !in w.connRoom
    requires d in w.conns && d in w.rooms[r].participants && w.conns[d].Open()
    ensures SettingOk(w, d) ==> SettingOk(Joined(w, r, c, p, order), d)
    ensures ViewOk(w, d) ==> ViewOk(Joined(w, r, c, p, order), d)
  {
    hide Ids, Replay, LastSettings, Joined, WelcomePackets;
    JoinedShape(w, r, c, p, order);
    var parts := w.rooms[r].participants;
    ReplayAppend(w.conns[d].sent, Packet(PartnerJoin, p.profile.userId, []));
    assert parts[c := p] - {d} == (parts - {d})[c := p];
    IdsAdd(parts - {d}, c, p);
  }

  lemma JoinedTellsOne(w: World, cfg: Config, r: RoomId, c: ConnId, p: Participant, order: seq<ConnId>, d: ConnId)
    requires Inv(w, cfg) && r in w.rooms && c !in w.connRoom && c in w.conns && w.conns[c].Open()
    requires Enumerates(order, w.rooms[r].participants.Keys + {c}) && d in w.conns
    ensures SettingOk(w, d) ==> SettingOk(Joined(w, r, c, p, order), d)
    ensures ViewOk(w, d) ==> ViewOk(Joined(w, r, c, p, order), d)
  {
    assert RoomOk(w.rooms[r], cfg);
    hide Joined, RoomOk, SettingOk, ViewOk;
    if d == c {
      JoinedTellsNewcomer(w, r, c, p, order);
    } else if d in w.rooms[r].participants && w.conns[d].Open() {
      JoinedTellsMember(w, r, c, p, order, d);
    } else {
      JoinedTellsOther(w, r, c, p, order, d);
    }
  }

  lemma JoinedTellsOther(w: World, r: RoomId, c: ConnId, p: Participant, order: seq<ConnId>, d: ConnId)
    requires Agree(w) && r in w.rooms && !w.rooms[r].closed && c in w.conns && w.conns[c].Open()
    requires d in w.conns && d != c && !(d in w.rooms[r].participants && w.conns[d].Open())
    ensures SettingOk(w, d) ==> SettingOk(Joined(w, r, c, p, order), d)
    ensures ViewOk(w, d) ==> ViewOk(Joined(w, r, c, p, order), d)
  {
    hide Joined, OthersIds, Replay, WelcomePackets, KnowsSettings;
    JoinedShape(w, r, c, p, order);
  }

  lemma JoinedTells(w: World, cfg: Config, r: RoomId, c: ConnId, p: Participant, order: seq<ConnId>)
    requires Inv(w, cfg) && r in w.rooms && c !in w.connRoom && c in w.conns && w.conns[c].Open()
    requires Enumerates(order, w.rooms[r].participants.Keys + {c})
    ensures SettingsOk(w) ==> SettingsOk(Joined(w, r, c, p, order))
    ensures ViewsOk(w) ==> ViewsOk(Joined(w, r, c, p, order))
  {
    var w' := Joined(w, r, c, p, order);
    assert RoomOk(w.rooms[r], cfg);
    JoinedShape(w, r, c, p, order);
    forall d | d in w'.conns
      ensures SettingOk(w, d) ==> SettingOk(w', d)
      ensures ViewOk(w, d) ==> ViewOk(w', d)
    {
      JoinedTellsOne(w, cfg, r, c, p, order, d);
    }
  }
}
