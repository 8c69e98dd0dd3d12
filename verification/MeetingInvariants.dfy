/** What every run of the meeting protocol keeps. */
module MeetingInvariants {
  import opened Options
  import opened Bytes
  import opened Wire
  import opened Framing
  import opened Meeting

  // The state invariant

  /** The connection-to-room map and the rooms' participant lists say the same. */
  ghost predicate Agree(w: World) {
    && (forall c :: c in w.connRoom ==> w.connRoom[c] in w.rooms && c in w.rooms[w.connRoom[c]].participants)
    && (forall r, c :: r in w.rooms && c in w.rooms[r].participants ==> c in w.connRoom && w.connRoom[c] == r)
  }

  ghost predicate OneOwner(parts: map<ConnId, Participant>) {
    exists o :: o in parts && parts[o].isOwner && forall c :: c in parts && parts[c].isOwner ==> c == o
  }

  ghost predicate RoomOk(room: Room, cfg: Config) {
    && !room.closed
    && OneOwner(room.participants)
    && |room.participants| <= room.maxParticipants <= cfg.maxParticipants
    && MIN_PARTICIPANTS <= room.maxParticipants
    && MIN_DURATION_MINUTES <= room.durationMinutes <= MAX_DURATION_MINUTES
    && forall c :: c in room.participants ==>
         |room.participants[c].profile.name| < 0x1_0000 && |room.participants[c].profile.avatar| < 0x1_0000
  }

  ghost predicate RoomsOk(w: World, cfg: Config) {
    && |w.rooms| <= cfg.maxRooms
    && forall r :: r in w.rooms ==> RoomOk(w.rooms[r], cfg)
  }

  /** Every mapped connection exists and is not closed; each close handler ran once exactly when closed. */
  ghost predicate ConnsOk(w: World) {
    && w.nextConn > 0
    && (forall c :: c in w.connRoom ==> c in w.conns && !w.conns[c].closed)
    && (forall c :: c in w.conns ==> 0 < c < w.nextConn)
    && (forall c :: c in w.conns ==> w.conns[c].closeEvents == if w.conns[c].closed then 1 else 0)
  }

  ghost predicate Inv(w: World, cfg: Config) {
    Agree(w) && RoomsOk(w, cfg) && ConnsOk(w)
  }

  // What a participant has been told

  /** The partners a client knows from the packets it was sent. */
  ghost function Replay(sent: seq<Packet>): multiset<u64> {
    if sent == [] then multiset{}
    else
      var n := |sent| - 1;
      ReplayOne(Replay(sent[..n]), sent[n])
  }

  ghost function ReplayOne(known: multiset<u64>, p: Packet): multiset<u64> {
    if p.kind == PartnerJoin2 then multiset(ReadIds(p.payload))
    else if p.kind == PartnerJoin then known + multiset{p.userId}
    else if p.kind == PartnerExit then known - multiset{p.userId}
    else known
  }

  /** The flags of the last settings notice among the packets. */
  ghost function LastSettings(sent: seq<Packet>): Option<u32> {
    if sent == [] then None
    else
      var n := |sent| - 1;
      if sent[n].kind == RoomSettingsNotify && |sent[n].payload| >= 4 then Some(ReadU32(sent[n].payload))
      else LastSettings(sent[..n])
  }

  ghost function Pick(m: map<ConnId, Participant>): (c: ConnId)
    requires m != map[]
    ensures c in m
  {
    var c :| c in m;
    c
  }

  /** The multiset of user ids of some participants. */
  ghost function Ids(m: map<ConnId, Participant>): multiset<u64>
    decreases m.Keys
  {
    if m == map[] then multiset{}
    else
      var c := Pick(m);
      Ids(m - {c}) + multiset{m[c].profile.userId}
  }

  ghost function OthersIds(parts: map<ConnId, Participant>, c: ConnId): multiset<u64> {
    Ids(parts - {c})
  }

  /** The kinds the lobby answers with. */
  predicate LobbyKind(kind: MessageType) {
    kind == CreateMeetingResponse || kind == JoinMeetingResponse
  }

  /** An open connection outside every room has been told nothing about any room. */
  ghost predicate LobbyOk(w: World) {
    forall c :: c in w.conns && w.conns[c].Open() && c !in w.connRoom ==>
      forall p :: p in w.conns[c].sent ==> LobbyKind(p.kind)
  }

  ghost predicate ViewOk(w: World, c: ConnId)
    requires c in w.conns
  {
    w.conns[c].Open() && c in w.connRoom && w.connRoom[c] in w.rooms ==>
      Replay(w.conns[c].sent) == OthersIds(w.rooms[w.connRoom[c]].participants, c)
  }

  /** Replaying what an open participant was sent gives the ids of the others in its room. */
  ghost predicate ViewsOk(w: World) {
    forall c :: c in w.conns ==> ViewOk(w, c)
  }

  /** The last notice sent carries the current flags; an owner that got none is at the default. */
  ghost predicate KnowsSettings(sent: seq<Packet>, settings: u32, isOwner: bool) {
    LastSettings(sent) == Some(settings) || (LastSettings(sent) == None && isOwner && settings == SETTINGS_DEFAULT)
  }

  ghost predicate SettingOk(w: World, c: ConnId)
    requires c in w.conns
  {
    w.conns[c].Open() && c in w.connRoom && w.connRoom[c] in w.rooms
    && c in w.rooms[w.connRoom[c]].participants ==>
      KnowsSettings(w.conns[c].sent, w.rooms[w.connRoom[c]].settings,
                    w.rooms[w.connRoom[c]].participants[c].isOwner)
  }

  ghost predicate SettingsOk(w: World) {
    forall c :: c in w.conns ==> SettingOk(w, c)
  }

  // Multisets of ids

  lemma {:induction false} IdsRemove(m: map<ConnId, Participant>, c: ConnId)
    requires c in m
    ensures Ids(m) == Ids(m - {c}) + multiset{m[c].profile.userId}
    decreases m.Keys
  {
    var d := Pick(m);
    if d != c {
      var without := m - {d};
      IdsRemove(without, c);
      MinusCommutes(m, c, d);
      IdsRemove(m - {c}, d);
    }
  }

  lemma MinusCommutes(m: map<ConnId, Participant>, c: ConnId, d: ConnId)
    ensures m - {d} - {c} == m - {c} - {d}
  {
  }

  lemma IdsAdd(m: map<ConnId, Participant>, c: ConnId, p: Participant)
    requires c !in m
    ensures Ids(m[c := p]) == Ids(m) + multiset{p.profile.userId}
  {
    IdsRemove(m[c := p], c);
    assert m[c := p] - {c} == m;
  }

  lemma ReplayAppend(sent: seq<Packet>, p: Packet)
    ensures Replay(sent + [p]) == ReplayOne(Replay(sent), p)
    ensures LastSettings(sent + [p])
            == if p.kind == RoomSettingsNotify && |p.payload| >= 4 then Some(ReadU32(p.payload))
               else LastSettings(sent)
  {
    assert (sent + [p])[..|sent|] == sent;
  }

  /** Kinds that say nothing about members or settings. */
  predicate Neutral(kind: MessageType) {
    kind != PartnerJoin2 && kind != PartnerJoin && kind != PartnerExit && kind != RoomSettingsNotify
  }

  lemma {:induction false} NeutralAppend(sent: seq<Packet>, more: seq<Packet>)
    requires forall p :: p in more ==> Neutral(p.kind)
    ensures Replay(sent + more) == Replay(sent) && LastSettings(sent + more) == LastSettings(sent)
    decreases |more|
  {
    hide Replay, LastSettings;
    if more == [] {
      assert sent + more == sent;
    } else {
      var n := |more| - 1;
      var init := more[..n];
      assert forall p :: p in init ==> p in more;
      NeutralAppend(sent, init);
      assert more[n] in more;
      ReplayAppend(sent + init, more[n]);
      assert sent + more == sent + init + [more[n]];
    }
  }

  lemma LobbySent(sent: seq<Packet>)
    requires forall p :: p in sent ==> LobbyKind(p.kind)
    ensures Replay(sent) == multiset{} && LastSettings(sent) == None
  {
    NeutralAppend([], sent);
    assert [] + sent == sent;
  }
}
