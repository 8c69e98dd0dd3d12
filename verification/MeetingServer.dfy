/**
 The message server's objects, re-entrant as in the source: closing a connection calls back into the
 service, which calls the room, which may close further connections. Every method's effect on the whole
 heap, seen through MeetingService.View, is the corresponding step of the Meeting state machine.
 Methods that call back out take the service the callbacks were bound to.
 */
module MeetingServer {
  import opened Options
  import opened Bytes
  import opened Wire
  import opened Framing
  import M = Meeting
  import opened ServerSteps
  import RoomIds
  import MeetingInvariants
  import MeetingRuns

  class Connection {
    const id: M.ConnId
    const reader: MessageReader
    var closed: bool
    var socketOpen: bool
    var writeQueue: seq<Packet>
    var writeInProgress: bool
    /** Started writes not yet completed: what the event loop still holds. */
    var inFlight: nat
    /** Everything send accepted, what writes have completed, handler runs. */
    ghost var sent: seq<Packet>
    ghost var written: seq<Packet>
    ghost var closeEvents: nat

    /** Writes complete in order, one at a time, and an open connection never stalls. */
    ghost predicate Valid()
      reads this
    {
      && id > 0
      && sent == written + writeQueue
      && inFlight <= 1
      && (inFlight == 1 ==> writeInProgress && writeQueue != [])
      && (!closed ==> (inFlight == 1 <==> writeQueue != []) && (writeInProgress <==> writeQueue != []))
    }

    ghost function Value(): M.Conn
      reads this
    {
      M.Conn(closed, socketOpen, sent, closeEvents)
    }

    constructor (id: M.ConnId)
      requires id > 0
      ensures Valid() && this.id == id && Value() == M.Conn(false, true, [], 0)
      ensures reader.Valid() && fresh(reader.Repr()) && reader.appended == []
    {
      this.id := id;
      reader := new MessageReader();
      closed, socketOpen := false, true;
      writeQueue, writeInProgress := [], false;
      sent, written, inFlight, closeEvents := [], [], 0, 0;
    }

    predicate IsOpen()
      reads this
    {
      !closed && socketOpen
    }

    /** The stream holds the same messages in the same place, handed over or not. */
    twostate predicate SameStream()
      reads reader, reader.Repr()
    {
      reader.Valid() && reader.appended == old(reader.appended) && reader.Repr() == old(reader.Repr())
    }

    /**
     What was handed over since is what the events deliver, in order; if an empty message comes next, one more event
     has found it invalid and the connection is closed.
    */
    ghost predicate HandedOn(events: seq<M.Event>, parse: Parser, before: seq<seq<byte>>)
      reads this, reader
    {
      && reader.handed <= reader.appended
      && (Passed(id, events, parse, before, reader.handed) || Refused(events, parse, before))
    }

    ghost predicate Refused(events: seq<M.Event>, parse: Parser, before: seq<seq<byte>>)
      reads this, reader
    {
      && reader.Stuck() && !IsOpen() && events != []
      && (var last := |events| - 1;
          && events[last].Deliver? && events[last].c == id && events[last].decoded == Invalid
          && Passed(id, events[..last], parse, before, reader.handed))
    }

    lemma NoneHandedOn(parse: Parser)
      requires reader.handed <= reader.appended
      ensures HandedOn([], parse, reader.handed)
    {
      NonePassed(id, parse, reader.handed);
    }

    lemma OneHandedOn(e: M.Event, parse: Parser, before: seq<seq<byte>>)
      requires before <= reader.handed <= reader.appended && e.Deliver? && e.c == id
      requires if reader.handed == before then reader.Stuck() && !IsOpen() && e.decoded == Invalid
               else |reader.handed| == |before| + 1 && e.decoded == Interpret(parse, reader.handed[|before|])
      ensures HandedOn([e], parse, before)
    {
      if reader.handed == before {
        NonePassed(id, parse, before);
        assert [e][..0] == [];
      } else {
        OnePassed(id, e, parse, before, reader.handed);
      }
    }

    lemma MoreHandedOn(events: seq<M.Event>, step: seq<M.Event>, parse: Parser,
                       before: seq<seq<byte>>, middle: seq<seq<byte>>)
      requires Passed(id, events, parse, before, middle) && HandedOn(step, parse, middle)
      ensures HandedOn(events + step, parse, before)
    {
      hide Passed;
      if Passed(id, step, parse, middle, reader.handed) {
        MorePassed(id, events, step, parse, before, middle, reader.handed);
      } else {
        var last := |step| - 1;
        MorePassed(id, events, step[..last], parse, before, middle, reader.handed);
        assert (events + step)[..|events + step| - 1] == events + step[..last];
      }
    }

    /** Only a closed connection has messages left. */
    ghost predicate ReadOut()
      reads this, reader
    {
      IsOpen() ==> reader.handed == reader.appended
    }

    method Send(packet: Packet)
      requires Valid()
      modifies this
      ensures Valid()
      ensures Value() == if old(closed) then old(Value()) else old(Value()).Receive([packet])
      ensures written == old(written)
    {
      if closed {
        return;
      }
      writeQueue := writeQueue + [packet];
      sent := sent + [packet];
      DoWrite();
    }

    /** Send, seen from the service: this connection's entry changes and nothing else does. */
    method SendIn(s: MeetingService, packet: Packet)
      requires s.Valid() && s.Registered(this)
      modifies this
      ensures s.Valid() && s.Unclosed() == old(s.Unclosed())
      ensures s.View() == old(s.View()).(conns := old(s.View()).conns[id := Value()])
      ensures Value() == if old(closed) then old(Value()) else old(Value()).Receive([packet])
    {
      Send(packet);
      s.ConnChanged(this);
    }

    method DoWrite()
      requires id > 0 && sent == written + writeQueue && inFlight <= 1
      requires inFlight == 1 <==> writeInProgress
      requires writeInProgress ==> writeQueue != []
      requires !closed
      modifies this`writeInProgress, this`inFlight
      ensures Valid()
    {
      if writeInProgress || writeQueue == [] || closed {
        return;
      }
      writeInProgress := true;
      inFlight := inFlight + 1;
    }

    /** async_write's completion without an error. */
    method OnWritten()
      requires Valid() && inFlight == 1
      modifies this
      ensures Valid() && Value() == old(Value())
      ensures written == old(written) + [old(sent)[|old(written)|]]
    {
      inFlight := inFlight - 1;
      writeInProgress := false;
      written := written + [writeQueue[0]];
      writeQueue := writeQueue[1..];
      if writeQueue != [] && !closed {
        DoWrite();
      }
    }

    /** async_write's completion, seen from the service. */
    method WriteDone(s: MeetingService)
      requires s.Valid() && s.Registered(this) && inFlight == 1
      modifies this
      ensures s.Valid() && s.View() == old(s.View())
      ensures written == old(written) + [old(sent)[|old(written)|]]
    {
      OnWritten();
      s.ConnChanged(this);
    }

    /** async_write's completion with an error: the connection closes and the write is over. */
    method WriteFailed(s: MeetingService)
      requires s.Valid() && s.Registered(this) && inFlight == 1
      modifies s, s.manager, s.conns.Values, s.manager.rooms.Values
      ensures s.Evolved() && inFlight == 0
      ensures s.View() == M.CloseConn(old(s.View()), id)
    {
      hide MeetingService.View, MeetingService.Unclosed, M.CloseConn;
      ghost var w := s.View();
      s.Seen(this, w);
      Close(s);
      ClosedStays(w, id);
      s.Seen(this, s.View());
      Settle(s);
    }

    /** The pending operation of a closed connection is over. */
    method Settle(s: MeetingService)
      requires s.Valid() && s.Registered(this) && closed
      modifies this`inFlight
      ensures s.Valid() && inFlight == 0 && s.View() == old(s.View()) && s.Unclosed() == old(s.Unclosed())
    {
      hide MeetingService.Valid, MeetingService.View;
      ghost var w := s.View();
      s.Seen(this, w);
      s.OneValid(this);
      inFlight := 0;
      s.ConnChanged(this);
    }

    /** The socket went away, with no handler run yet. */
    method LoseSocket(s: MeetingService, ghost w: M.World)
      requires s.Valid() && s.Registered(this) && s.View() == w && id in w.conns
      modifies this`socketOpen
      ensures s.Valid() && s.View() == w.(conns := w.conns[id := w.conns[id].(socketOpen := false)])
    {
      assert w.conns[id] == Value();
      socketOpen := false;
      s.ConnChanged(this);
    }

    /** Idempotent; the first call runs the close handler. */
    method Close(s: MeetingService)
      requires s.Valid() && s.Registered(this)
      modifies s, s.manager, s.conns.Values, s.manager.rooms.Values
      ensures s.Evolved()
      ensures s.View() == M.CloseConn(old(s.View()), id)
      decreases s.Unclosed(), 0, 0
    {
      if closed {
        return;
      }
      MarkClosed(s);
      s.OnConnectionClose(this);
    }

    /** The socket is shut and the close handler is about to run. */
    method MarkClosed(s: MeetingService)
      requires s.Valid() && s.Registered(this) && !closed
      modifies this
      ensures s.Valid() && s.Unclosed() < old(s.Unclosed())
      ensures s.View() == old(s.View()).(conns := old(s.View()).conns[id := old(Value()).MarkClosed()])
    {
      closed := true;
      socketOpen := false;
      closeEvents := closeEvents + 1;
      s.ConnChanged(this);
      assert this in old(s.Unclosed()) && this !in s.Unclosed();
    }
  }

  datatype Member = Member(connection: Connection, profile: Profile, isOwner: bool) {
    function Value(): M.Participant {
      M.Participant(profile, isOwner)
    }
  }

  ghost function Values(m: map<M.ConnId, Member>): (v: map<M.ConnId, M.Participant>)
    ensures v.Keys == m.Keys
  {
    map c | c in m :: m[c].Value()
  }

  lemma ValuesMinus(m: map<M.ConnId, Member>, c: M.ConnId)
    ensures Values(m - {c}) == Values(m) - {c}
  {
  }

  lemma ValuesUpdate(m: map<M.ConnId, Member>, c: M.ConnId, member: Member)
    ensures Values(m[c := member]) == Values(m)[c := member.Value()]
  {
  }

  class Room {
    const id: M.RoomId
    const maxParticipants: nat
    const durationMinutes: u32
    var closed: bool
    var settings: u32
    var participants: map<M.ConnId, Member>

    ghost function Value(): M.Room
      reads this
    {
      M.Room(maxParticipants, durationMinutes, settings, closed, Values(participants))
    }

    method Erase(s: MeetingService, c: M.ConnId)
      requires s.Valid() && s.Listed(this)
      modifies this`participants
      ensures s.Valid() && participants == old(participants) - {c}
      ensures s.View() == M.DropParticipant(old(s.View()), id, c)
    {
      ValuesMinus(participants, c);
      participants := participants - {c};
      assert s.MembersValid(this);
      s.RoomChanged(this);
    }

    method RemoveParticipant(s: MeetingService, c: M.ConnId)
      requires s.Valid() && s.Listed(this)
      modifies s, s.manager, s.conns.Values, s.manager.rooms.Values
      ensures s.Evolved()
      ensures s.View() == M.RemoveParticipant(old(s.View()), id, c)
      decreases s.Unclosed(), 2
    {
      hide MeetingService.Valid, MeetingService.View, MeetingService.Unclosed;
      ghost var w := s.View();
      s.Shown(this, w);
      if closed || c !in participants {
        return;
      }
      assert w.rooms[id].participants[c] == participants[c].Value();
      var isOwner, userId := participants[c].isOwner, participants[c].profile.userId;
      Erase(s, c);
      if isOwner {
        CloseRoom(s);
      } else {
        s.Shown(this, s.View());
        Broadcast(s, Packet(PartnerExit, userId, []), 0);
      }
    }

    /** Every open member but one is sent the packet, in whatever order the map yields them. */
    method Broadcast(s: MeetingService, packet: Packet, exclude: M.ConnId)
      requires s.Valid() && s.Listed(this)
      modifies s.conns.Values
      ensures s.Valid() && s.Unclosed() == old(s.Unclosed())
      ensures id in old(s.View()).rooms && s.View() == Relayed(old(s.View()), id, exclude, packet)
    {
      hide MeetingService.Valid, MeetingService.View, MeetingService.Unclosed;
      hide M.Broadcast;
      ghost var w := s.View();
      ghost var done := {};
      s.Shown(this, w);
      s.MembersOf(this, w);
      var todo := participants.Keys;
      BroadcastNone(w.conns, exclude, packet);
      while todo != {}
        invariant done + todo == participants.Keys && done !! todo
        invariant s.Valid() && s.Unclosed() == old(s.Unclosed())
        invariant s.View() == w.(conns := M.Broadcast(w.conns, done, exclude, packet))
        decreases todo
      {
        var c :| c in todo;
        var target := participants[c].connection;
        s.Seen(target, s.View());
        BroadcastOneMore(w.conns, done, exclude, packet, c);
        todo := todo - {c};
        done := done + {c};
        if c != exclude && target.IsOpen() {
          target.SendIn(s, packet);
        }
      }
      assert done == participants.Keys;
    }

    method CloseRoom(s: MeetingService)
      requires s.Valid() && s.Listed(this)
      modifies s, s.manager, s.conns.Values, s.manager.rooms.Values
      ensures s.Evolved()
      ensures s.View() == M.CloseRoom(old(s.View()), id)
      decreases s.Unclosed(), 1, 1
    {
      hide MeetingService.Valid, MeetingService.View, MeetingService.Unclosed;
      ghost var w := s.View();
      s.Shown(this, w);
      if closed {
        AlreadyClosed(w, id);
        return;
      }
      s.MembersOf(this, w);
      CloseRoomStages(w, id);
      var members := participants;
      ShutIn(s);
      CloseMembers(s, members);
      s.CleanupRoom(id);
    }

    method ShutIn(s: MeetingService)
      requires s.Valid() && s.Listed(this)
      modifies this`closed, this`participants
      ensures s.Valid() && closed
      ensures s.View() == Shut(old(s.View()), id)
    {
      closed := true;
      participants := map[];
      assert Values(participants) == map[];
      assert s.MembersValid(this);
      s.RoomChanged(this);
    }

    /** The loop of close_room over its copy of the participants, each close calling back in. */
    method CloseMembers(s: MeetingService, members: map<M.ConnId, Member>)
      requires s.Valid() && s.Listed(this) && closed
      requires s.Accepted(members) && OwnEntries(s.View(), members.Keys, id)
      modifies s, s.manager, s.conns.Values, s.manager.rooms.Values
      ensures s.Evolved() && closed
      ensures s.View() == MembersClosed(old(s.View()), members.Keys)
      decreases s.Unclosed(), 1, 0
    {
      hide MeetingService.Valid, MeetingService.View, MeetingService.Unclosed;
      ghost var w := s.View();
      ghost var done := {};
      var todo := members.Keys;
      NoneClosed(w);
      while todo != {}
        invariant done + todo == members.Keys && done !! todo && s.Accepted(members)
        invariant s.Evolved() && s.Listed(this) && closed
        invariant s.View() == MembersClosed(w, done)
        decreases todo
      {
        var c :| c in todo;
        todo := todo - {c};
        CloseMember(s, members[c].connection, w, done);
        done := done + {c};
      }
      assert done == members.Keys;
    }

    /** One turn of that loop. */
    method CloseMember(s: MeetingService, conn: Connection, ghost w: M.World, ghost done: set<M.ConnId>)
      requires s.Valid() && s.Listed(this) && closed && s.Registered(conn)
      requires s.View() == MembersClosed(w, done) && conn.id !in done
      requires conn.id in w.connRoom ==> w.connRoom[conn.id] == id
      modifies s, s.manager, s.conns.Values, s.manager.rooms.Values
      ensures s.Evolved()
      ensures s.Listed(this) && closed
      ensures s.View() == MembersClosed(w, done + {conn.id})
      decreases s.Unclosed(), 0, 1
    {
      assert s.View().rooms[id] == Value();
      assert s.View().conns[conn.id] == conn.Value();
      if conn.IsOpen() {
        OneMoreClosed(w, id, done, conn.id);
        conn.Close(s);
      } else {
        SkippedClosed(w, done, conn.id);
      }
      assert id in s.RoomsView() && s.RoomsView()[id] == Value();
    }

    // Packets from a participant

    /** send_to: only an open connection is sent to. */
    method SendTo(s: MeetingService, target: Connection, packet: Packet)
      requires s.Valid() && s.Registered(target)
      modifies target
      ensures s.Valid()
      ensures s.View() == if old(target.IsOpen())
                          then old(s.View()).(conns := old(s.View()).conns
                                                [target.id := old(target.Value()).Receive([packet])])
                          else old(s.View())
    {
      if !target.IsOpen() {
        return;
      }
      target.SendIn(s, packet);
    }

    /** Reads a profile payload into the cached one, field by field. */
    static method ParseProfile(old': Profile, payload: seq<byte>) returns (p: Profile)
      ensures p == ApplyProfile(old', payload)
    {
      p := old';
      if |payload| >= 12 {
        var offset := 0;
        var userId := ReadBe64(payload);
        offset := offset + 8;
        var nameLen := ReadU16(payload[offset..]);
        offset := offset + 2;
        if offset + nameLen + 2 <= |payload| {
          p := p.(userId := userId, name := payload[offset..offset + nameLen]);
          offset := offset + nameLen;
          var avatarLen := ReadU16(payload[offset..]);
          offset := offset + 2;
          if offset + avatarLen <= |payload| {
            p := p.(avatar := payload[offset..offset + avatarLen]);
          }
        }
      }
    }

    method SetProfile(s: MeetingService, c: M.ConnId, profile: Profile)
      requires s.Valid() && s.Listed(this) && !closed && c in participants
      modifies this`participants
      ensures s.Valid() && participants == old(participants)[c := old(participants)[c].(profile := profile)]
      ensures Holds(old(s.View()), id, c) && s.View() == Reprofiled(old(s.View()), id, c, profile)
    {
      assert s.View().rooms[id] == Value();
      var member := participants[c].(profile := profile);
      ValuesUpdate(participants, c, member);
      participants := participants[c := member];
      assert s.MembersValid(this);
      s.RoomChanged(this);
    }

    method SetSettings(s: MeetingService, flags: u32)
      requires s.Valid() && s.Listed(this)
      modifies this`settings
      ensures s.Valid() && settings == flags
      ensures s.View() == WithSettings(old(s.View()), id, flags)
    {
      assert s.View().rooms[id] == Value();
      settings := flags;
      assert s.MembersValid(this);
      s.RoomChanged(this);
    }

    method HandlePacket(s: MeetingService, from: Connection, packet: Packet)
      requires s.Valid() && s.Listed(this)
      modifies this`participants, this`settings, s.conns.Values
      ensures s.Valid()
      ensures s.View() == M.HandlePacket(old(s.View()), id, from.id, packet)
    {
      hide MeetingService.Valid, MeetingService.View, MeetingService.Unclosed;
      ghost var w := s.View();
      s.Shown(this, w);
      if closed || from.id !in participants {
        return;
      }
      var member := participants[from.id];
      assert w.rooms[id].participants[from.id] == member.Value();
      hide M.HandlePacket, Relayed, Reprofiled, WithSettings, ApplyProfile, ReadU32, ToBe;
      match packet.kind
      case TextSend =>
        TextStep(w, id, from.id, packet);
        Broadcast(s, packet.(kind := TextRecv, userId := member.profile.userId), from.id);
      case CloseCamera =>
        CameraStep(w, id, from.id, packet);
        Broadcast(s, Packet(CloseCamera, member.profile.userId, []), from.id);
      case UserProfile =>
        ProfileStep(w, id, from.id, packet);
        var profile := ParseProfile(member.profile, packet.payload);
        SetProfile(s, from.id, profile);
        Broadcast(s, packet.(userId := profile.userId), from.id);
      case RoomSettings =>
        ChangeSettings(s, from, member, packet);
      case _ =>
        IgnoredStep(w, id, from.id, packet);
    }

    /** Only an owner changes the flags; a packet without any announces the current ones. */
    method ChangeSettings(s: MeetingService, from: Connection, member: Member, packet: Packet)
      requires s.Valid() && s.Listed(this) && !closed && packet.kind == RoomSettings
      requires from.id in participants && participants[from.id] == member
      modifies this`settings, s.conns.Values
      ensures s.Valid()
      ensures s.View() == M.HandlePacket(old(s.View()), id, from.id, packet)
    {
      hide MeetingService.Valid, MeetingService.View, MeetingService.Unclosed;
      hide M.HandlePacket, Relayed, WithSettings, ReadU32, ToBe;
      ghost var w := s.View();
      s.Shown(this, w);
      assert w.rooms[id].participants[from.id] == member.Value();
      SettingsStep(w, id, from.id, packet);
      if member.isOwner {
        var flags := settings;
        if |packet.payload| >= 4 {
          flags := ReadU32(packet.payload);
        }
        SetSettings(s, flags);
        Broadcast(s, Packet(RoomSettingsNotify, member.profile.userId, ToBe(4, flags)), 0);
      }
    }

    // A newcomer

    /** Some order in which the hash map yields its entries. */
    static method IterationOrder(m: map<M.ConnId, Member>) returns (order: seq<M.ConnId>)
      ensures M.Enumerates(order, m.Keys)
    {
      order := [];
      var todo := m.Keys;
      while todo != {}
        invariant todo <= m.Keys && M.Enumerates(order, m.Keys - todo)
        decreases todo
      {
        var c :| c in todo;
        todo := todo - {c};
        order := order + [c];
      }
    }

    /** The payload of PartnerJoin2. */
    method PartnerList(order: seq<M.ConnId>, newcomer: M.ConnId) returns (payload: seq<byte>)
      requires forall c :: c in order ==> c in participants
      ensures payload == IdList(M.ListIds(order, Values(participants), newcomer))
    {
      payload := [];
      ghost var ids := [];
      for i := 0 to |order|
        invariant ids == M.ListIds(order[..i], Values(participants), newcomer) && payload == IdList(ids)
      {
        ListIdsOneMore(order, i, Values(participants), newcomer);
        if order[i] != newcomer {
          var wire := new byte[8](_ => 0);
          WriteBe64(wire, participants[order[i]].profile.userId);
          payload := payload + wire[..8];
          IdListAppend(ids, participants[order[i]].profile.userId);
          ids := ids + [participants[order[i]].profile.userId];
        }
      }
      assert order[..|order|] == order;
    }

    /** The cached profiles a newcomer is sent. */
    method CachedProfiles(order: seq<M.ConnId>, newcomer: M.ConnId) returns (packets: seq<Packet>)
      requires forall c :: c in order ==> c in participants
      ensures packets == M.ListProfiles(order, Values(participants), newcomer)
    {
      packets := [];
      for i := 0 to |order|
        invariant packets == M.ListProfiles(order[..i], Values(participants), newcomer)
      {
        ListProfilesOneMore(order, i, Values(participants), newcomer);
        if order[i] != newcomer {
          var p := participants[order[i]].profile;
          if !(p.userId == 0 || (p.name == [] && p.avatar == [])) {
            packets := packets + [M.ProfilePacket(p)];
          }
        }
      }
      assert order[..|order|] == order;
    }

    /** The list of partners, the flags and the cached profiles, as packets. */
    method Welcome(order: seq<M.ConnId>, newcomer: M.ConnId) returns (packets: seq<Packet>)
      requires forall c :: c in order ==> c in participants
      ensures packets == M.WelcomePackets(order, Value(), newcomer)
    {
      var list := PartnerList(order, newcomer);
      var profiles := CachedProfiles(order, newcomer);
      packets := [Packet(PartnerJoin2, 0, list), Packet(RoomSettingsNotify, 0, ToBe(4, settings))] + profiles;
    }

    method NotifyUserJoined(s: MeetingService, newcomer: Connection, ghost w: M.World)
      returns (ghost order: seq<M.ConnId>)
      requires s.Valid() && s.Listed(this) && s.Registered(newcomer) && s.View() == w
      modifies s.conns.Values
      ensures s.Valid() && id in w.rooms && newcomer.id in w.conns
      ensures M.Enumerates(order, w.rooms[id].participants.Keys)
      ensures s.View() == M.NotifyUserJoined(w, id, newcomer.id, order)
    {
      hide MeetingService.Valid, MeetingService.View, MeetingService.Unclosed;
      s.Shown(this, w);
      s.Seen(newcomer, w);
      var sequence := IterationOrder(participants);
      order := sequence;
      if closed || newcomer.id !in participants {
        return;
      }
      hide M.NotifyUserJoined, M.WelcomePackets, Told;
      var userId := participants[newcomer.id].profile.userId;
      assert w.rooms[id].participants[newcomer.id] == participants[newcomer.id].Value();
      NotifyStep(w, id, newcomer.id, order);
      Broadcast(s, Packet(PartnerJoin, userId, []), newcomer.id);
      var packets := Welcome(sequence, newcomer.id);
      SendAll(s, newcomer, packets, Relayed(w, id, newcomer.id, Packet(PartnerJoin, userId, [])));
    }

    /** One packet after another, while the connection is open. */
    method SendAll(s: MeetingService, target: Connection, packets: seq<Packet>, ghost w: M.World)
      requires s.Valid() && s.Registered(target) && s.View() == w && target.id in w.conns
      modifies target
      ensures s.Valid() && s.View() == if w.conns[target.id].Open() then Told(w, target.id, packets) else w
    {
      hide MeetingService.Valid, MeetingService.View, MeetingService.Unclosed;
      ToldNothing(w, target.id);
      for i := 0 to |packets|
        invariant s.Valid()
        invariant s.View() == if w.conns[target.id].Open() then Told(w, target.id, packets[..i]) else w
      {
        s.Seen(target, s.View());
        ToldMore(w, target.id, packets[..i], packets[i]);
        assert packets[..i + 1] == packets[..i] + [packets[i]];
        SendTo(s, target, packets[i]);
      }
      assert packets[..|packets|] == packets;
    }

    /** Whether the connection may enter; emplace keeps an entry that is already there. */
    method AddParticipant(conn: Connection, isOwner: bool, userId: u64) returns (ok: bool)
      modifies this`participants
      ensures ok == (!closed && conn.IsOpen() && |old(participants)| < maxParticipants && userId != 0)
      ensures participants
              == if ok then M.Emplace(old(participants), conn.id, Member(conn, Profile(userId, [], []), isOwner))
                 else old(participants)
    {
      if closed || !conn.IsOpen() {
        return false;
      }
      if |participants| >= maxParticipants {
        return false;
      }
      if userId == 0 {
        return false;
      }
      participants := M.Emplace(participants, conn.id, Member(conn, Profile(userId, [], []), isOwner));
      return true;
    }

    constructor (id: M.RoomId, owner: Connection, cfg: M.Config, options: M.RoomOptions, ownerUserId: u64)
      ensures this.id == id
      ensures maxParticipants == M.RoomLimit(options, cfg) && durationMinutes == options.durationMinutes
      ensures !closed && settings == SETTINGS_DEFAULT
      ensures participants == if maxParticipants == 0 || !owner.IsOpen() || ownerUserId == 0 then map[]
                              else map[owner.id := Member(owner, Profile(ownerUserId, [], []), true)]
    {
      this.id := id;
      maxParticipants := M.RoomLimit(options, cfg);
      durationMinutes := options.durationMinutes;
      closed, settings, participants := false, SETTINGS_DEFAULT, map[];
      new;
      var _ := AddParticipant(owner, true, ownerUserId);
    }
  }

  ghost function IdsOf(m: map<M.ConnId, Room>): map<M.ConnId, M.RoomId> {
    map c | c in m :: m[c].id
  }

  lemma IdsOfMinus(m: map<M.ConnId, Room>, c: M.ConnId)
    ensures IdsOf(m - {c}) == IdsOf(m) - {c}
  {
  }

  lemma IdsOfUpdate(m: map<M.ConnId, Room>, c: M.ConnId, room: Room)
    ensures IdsOf(m[c := room]) == IdsOf(m)[c := room.id]
  {
  }

  /** The map without the given room's entries, except those still to be looked at. */
  ghost function WithoutRoom(m: map<M.ConnId, Room>, todo: set<M.ConnId>, room: M.RoomId): map<M.ConnId, Room> {
    map c | c in m && (c in todo || m[c].id != room) :: m[c]
  }

  lemma WithoutNothing(m: map<M.ConnId, Room>, todo: set<M.ConnId>, room: M.RoomId)
    requires todo == m.Keys
    ensures WithoutRoom(m, todo, room) == m
  {
  }

  lemma WithoutOne(m: map<M.ConnId, Room>, todo: set<M.ConnId>, room: M.RoomId, c: M.ConnId)
    requires c in todo && todo <= m.Keys
    ensures WithoutRoom(m, todo - {c}, room)
            == if m[c].id == room then WithoutRoom(m, todo, room) - {c} else WithoutRoom(m, todo, room)
  {
  }

  lemma WithoutMeaning(m: map<M.ConnId, Room>, room: M.RoomId)
    ensures IdsOf(WithoutRoom(m, {}, room)) == WithoutEntries(IdsOf(m), room)
  {
  }

  lemma SameSize<K, U, V>(a: map<K, U>, b: map<K, V>)
    requires a.Keys == b.Keys
    ensures |a| == |b|
  {
    assert |a| == |a.Keys| && |b| == |b.Keys|;
  }

  lemma RunNone(w: M.World, cfg: M.Config)
    requires M.ValidConfig(cfg)
    ensures M.Run(w, cfg, []) == Some(w)
  {
  }

  lemma RunOne(w: M.World, cfg: M.Config, e: M.Event)
    requires M.ValidConfig(cfg) && M.Enabled(w, e)
    ensures M.Run(w, cfg, [e]) == Some(M.Next(w, cfg, e))
  {
    MeetingRuns.RunAppend(w, cfg, [], e);
    assert [] + [e] == [e];
  }

  lemma InvalidCloses(w: M.World, cfg: M.Config, e: M.Event)
    requires M.ValidConfig(cfg) && M.Enabled(w, e) && e.Deliver? && e.decoded.Invalid?
    ensures e.c in M.Next(w, cfg, e).conns && !M.Next(w, cfg, e).conns[e.c].Open()
  {
  }

  /** The events deliver exactly these messages to the connection, in order. */
  ghost predicate Delivers(c: M.ConnId, events: seq<M.Event>, parse: Parser, messages: seq<seq<byte>>) {
    && |events| == |messages|
    && forall i :: 0 <= i < |events| ==>
         events[i].Deliver? && events[i].c == c && events[i].decoded == Interpret(parse, messages[i])
  }

  /** Between the two moments exactly these messages were handed over. */
  ghost predicate Passed(c: M.ConnId, events: seq<M.Event>, parse: Parser,
                         before: seq<seq<byte>>, after: seq<seq<byte>>) {
    before <= after && Delivers(c, events, parse, after[|before|..])
  }

  lemma NonePassed(c: M.ConnId, parse: Parser, before: seq<seq<byte>>)
    ensures Passed(c, [], parse, before, before)
  {
  }

  lemma OnePassed(c: M.ConnId, e: M.Event, parse: Parser, before: seq<seq<byte>>, after: seq<seq<byte>>)
    requires before <= after && |after| == |before| + 1
    requires e.Deliver? && e.c == c && e.decoded == Interpret(parse, after[|before|])
    ensures Passed(c, [e], parse, before, after)
  {
    assert after[|before|..] == [after[|before|]];
  }

  lemma MorePassed(c: M.ConnId, events: seq<M.Event>, step: seq<M.Event>, parse: Parser,
                   before: seq<seq<byte>>, middle: seq<seq<byte>>, after: seq<seq<byte>>)
    requires Passed(c, events, parse, before, middle) && Passed(c, step, parse, middle, after)
    ensures Passed(c, events + step, parse, before, after)
  {
    assert after[|before|..] == middle[|before|..] + after[|middle|..];
  }

  lemma LobbyOutside(w: M.World, cfg: M.Config, c: M.ConnId)
    requires MeetingInvariants.Inv(w, cfg) && c in w.conns && c !in w.connRoom
    ensures Outside(w, c)
  {
  }

  datatype JoinResult = JoinOk | NotFound | Full | RoomClosed

  class RoomManager {
    const cfg: M.Config
    var rooms: map<M.RoomId, Room>
    var nextRoomId: u32

    constructor (cfg: M.Config)
      ensures this.cfg == cfg && rooms == map[] && nextRoomId == 1
    {
      this.cfg := cfg;
      rooms, nextRoomId := map[], 1;
    }

    /** Thirty-two outcomes of the random engine. */
    static method RandomDraws() returns (draws: seq<u32>)
      ensures M.ValidDraws(draws)
    {
      draws := [];
      while |draws| < M.ROOM_ID_ATTEMPTS
        invariant |draws| <= M.ROOM_ID_ATTEMPTS
        invariant forall d :: d in draws ==> M.ROOM_ID_MIN <= d <= M.ROOM_ID_MAX
      {
        var d: u32 :| M.ROOM_ID_MIN <= d <= M.ROOM_ID_MAX;
        draws := draws + [d];
      }
    }

    /** Random candidates first, then the counter until it meets a free id. */
    method AllocateId(draws: seq<u32>) returns (id: M.RoomId)
      requires M.ValidDraws(draws) && |rooms| < U32_SIZE
      modifies this`nextRoomId
      ensures (id, nextRoomId) == M.AllocateRoomId(rooms.Keys, draws, old(nextRoomId))
      ensures id !in rooms
    {
      id := 0;
      var attempt := 0;
      assert draws[0..] == draws;
      while attempt < M.ROOM_ID_ATTEMPTS && id == 0
        invariant 0 <= attempt <= M.ROOM_ID_ATTEMPTS
        invariant id == 0 ==> M.FirstUnused(rooms.Keys, draws) == M.FirstUnused(rooms.Keys, draws[attempt..])
        invariant id != 0 ==> M.FirstUnused(rooms.Keys, draws) == Some(id)
        decreases M.ROOM_ID_ATTEMPTS - attempt
      {
        var candidate := draws[attempt];
        assert candidate in draws && draws[attempt..][1..] == draws[attempt + 1..];
        if candidate !in rooms {
          id := candidate;
        }
        attempt := attempt + 1;
      }
      RoomIds.FirstUnusedMeaning(rooms.Keys, draws);
      if id == 0 {
        id := WalkCounter();
      }
    }

    method WalkCounter() returns (id: M.RoomId)
      requires |rooms| < U32_SIZE
      modifies this`nextRoomId
      ensures id == M.Sequential(rooms.Keys, old(nextRoomId)) && id !in rooms
      ensures nextRoomId == (id + 1) % U32_SIZE
    {
      ghost var start := nextRoomId;
      ghost var k := 0;
      ghost var stop := RoomIds.SequentialStops(rooms.Keys, start);
      id := nextRoomId;
      nextRoomId := RoomIds.At(nextRoomId, 1);
      while id in rooms
        invariant k <= stop && id == RoomIds.At(start, k) && nextRoomId == RoomIds.At(id, 1)
        decreases stop - k
      {
        RoomIds.OneStep(start, k);
        id := nextRoomId;
        nextRoomId := RoomIds.At(nextRoomId, 1);
        k := k + 1;
      }
    }

    method CreateRoom(owner: Connection, options: M.RoomOptions, ownerUserId: u64)
      returns (room: Option<Room>, ghost draws: seq<u32>)
      requires cfg.maxRooms <= U32_SIZE
      modifies this
      ensures M.ValidDraws(draws)
      ensures room.None? <==> !owner.IsOpen() || |old(rooms)| >= cfg.maxRooms
      ensures room.None? ==> rooms == old(rooms) && nextRoomId == old(nextRoomId)
      ensures room.Some? ==>
                && fresh(room.value) && room.value.id !in old(rooms) && rooms == old(rooms)[room.value.id := room.value]
                && (room.value.id, nextRoomId) == M.AllocateRoomId(old(rooms).Keys, draws, old(nextRoomId))
                && room.value.Value() == NewRoom(options, cfg, owner.id, ownerUserId)
                && room.value.participants.Keys <= {owner.id}
                && (owner.id in room.value.participants ==> room.value.participants[owner.id].connection == owner)
    {
      var sequence := RandomDraws();
      draws := sequence;
      if !owner.IsOpen() {
        return None, draws;
      }
      if |rooms| >= cfg.maxRooms {
        return None, draws;
      }
      var id := AllocateId(sequence);
      var created := new Room(id, owner, cfg, options, ownerUserId);
      rooms := M.Emplace(rooms, id, created);
      room := Some(created);
    }

    method GetRoom(id: M.RoomId) returns (room: Option<Room>)
      ensures room == if id in rooms then Some(rooms[id]) else None
    {
      room := if id in rooms then Some(rooms[id]) else None;
    }

    method JoinRoom(id: M.RoomId, conn: Connection, userId: u64) returns (result: JoinResult)
      modifies rooms.Values
      ensures id !in rooms ==> result == NotFound
      ensures id in rooms && rooms[id].closed ==> result == RoomClosed
      ensures id in rooms && !rooms[id].closed ==>
                result == if |old(rooms[id].participants)| < rooms[id].maxParticipants && conn.IsOpen() && userId != 0
                          then JoinOk else Full
      ensures result != JoinOk ==> forall r :: r in rooms ==> unchanged(rooms[r])
      ensures result == JoinOk ==>
                && id in rooms
                && (forall r :: r in rooms && rooms[r] != rooms[id] ==> unchanged(rooms[r]))
                && rooms[id].closed == old(rooms[id].closed) && rooms[id].settings == old(rooms[id].settings)
                && rooms[id].participants
                   == M.Emplace(old(rooms[id].participants), conn.id, Member(conn, Profile(userId, [], []), false))
    {
      var found := GetRoom(id);
      if found.None? {
        return NotFound;
      }
      var room := found.value;
      if room.closed {
        return RoomClosed;
      }
      if |room.participants| >= room.maxParticipants {
        return Full;
      }
      var ok := room.AddParticipant(conn, false, userId);
      if !ok {
        return Full;
      }
      return JoinOk;
    }

    method RemoveRoom(room: M.RoomId)
      modifies this`rooms
      ensures rooms == old(rooms) - {room}
    {
      rooms := rooms - {room};
    }
  }

  class MeetingService {
    const cfg: M.Config
    const manager: RoomManager
    var connRoom: map<M.ConnId, Room>
    var nextConn: M.ConnId
    /** Every connection ever accepted and every room ever made: pending operations and timers keep them alive. */
    var conns: map<M.ConnId, Connection>
    var made: set<Room>

    constructor (cfg: M.Config)
      ensures Valid() && fresh(manager) && conns == map[] && made == {} && View() == M.INITIAL
      ensures this.cfg == cfg && manager.cfg == cfg
    {
      this.cfg := cfg;
      manager := new RoomManager(cfg);
      connRoom, nextConn, conns, made := map[], 1, map[], {};
    }

    ghost predicate Registered(conn: Connection)
      reads this`conns
    {
      conn.id in conns && conns[conn.id] == conn
    }

    /** Each member stands under its own accepted connection's id. */
    ghost predicate Accepted(members: map<M.ConnId, Member>)
      reads this`conns
    {
      forall c :: c in members ==> Registered(members[c].connection) && members[c].connection.id == c
    }

    ghost predicate Listed(room: Room)
      reads manager`rooms
    {
      room.id in manager.rooms && manager.rooms[room.id] == room
    }

    ghost predicate OnlyRoomsOf(rooms: map<M.RoomId, Room>)
      reads manager`rooms
    {
      forall r :: r in manager.rooms ==> r in rooms && manager.rooms[r] == rooms[r]
    }

    ghost predicate ConnsValid()
      reads this`conns, conns.Values
    {
      forall c :: c in conns ==> conns[c].id == c && conns[c].Valid()
    }

    ghost predicate MapValid()
      reads this`conns, this`connRoom, manager`rooms
    {
      && (forall r :: r in manager.rooms ==> manager.rooms[r].id == r)
      && (forall c :: c in connRoom ==> c in conns && Listed(connRoom[c]))
    }

    /** A room's members are accepted connections, mapped to no other room. */
    ghost predicate MembersValid(room: Room)
      reads this`conns, this`connRoom, room`participants
    {
      forall c :: c in room.participants ==>
        && Registered(room.participants[c].connection)
        && room.participants[c].connection.id == c
        && (c in connRoom ==> connRoom[c] == room)
    }

    ghost predicate RoomsValid()
      reads this`conns, this`connRoom, manager`rooms, manager.rooms.Values
    {
      forall r :: r in manager.rooms ==> MembersValid(manager.rooms[r])
    }

    /** A room is taken off the list only once it has closed. */
    ghost predicate MadeValid()
      reads this`made, manager`rooms, made
    {
      && (forall r :: r in manager.rooms ==> manager.rooms[r] in made)
      && forall room :: room in made ==> Listed(room) || room.closed
    }

    ghost predicate Valid()
      reads this, manager, conns.Values, manager.rooms.Values, made
    {
      ConnsValid() && MapValid() && RoomsValid() && MadeValid()
    }

    ghost function ConnsView(): map<M.ConnId, M.Conn>
      reads this`conns, conns.Values
    {
      map c | c in conns :: conns[c].Value()
    }

    ghost function RoomsView(): map<M.RoomId, M.Room>
      reads manager`rooms, manager.rooms.Values
    {
      map r | r in manager.rooms :: manager.rooms[r].Value()
    }

    ghost function MapView(): map<M.ConnId, M.RoomId>
      reads this`connRoom
    {
      IdsOf(connRoom)
    }

    /** The heap as a state of the meeting protocol. */
    ghost function View(): M.World
      reads this, manager, conns.Values, manager.rooms.Values
    {
      M.World(ConnsView(), RoomsView(), MapView(), nextConn, manager.nextRoomId)
    }

    /** The measure of the closing cascade. */
    ghost function Unclosed(): set<Connection>
      reads this`conns, conns.Values
    {
      set c | c in conns.Values && !c.closed
    }

    /** The objects are consistent, none was replaced or opened again, and no room was added. */
    twostate predicate Evolved()
      reads this, manager, conns.Values, manager.rooms.Values, made
    {
      && Valid() && conns == old(conns) && made == old(made) && nextConn == old(nextConn)
      && OnlyRoomsOf(old(manager.rooms))
      && Unclosed() <= old(Unclosed())
    }

    /** The only objects that joined the service's are new rooms. */
    twostate predicate Grown()
      reads this`conns, this`made
    {
      conns == old(conns) && old(made) <= made && fresh(made - old(made))
    }

    lemma ListedMade()
      requires Valid()
      ensures manager.rooms.Values <= made && forall room :: room in made ==> Listed(room) || room.closed
    {
    }

    /** Only one accepted connection's fields changed. */
    twostate lemma ConnChanged(conn: Connection)
      requires old(Valid()) && Registered(conn) && unchanged(this) && unchanged(manager)
      requires forall r :: r in manager.rooms ==> unchanged(manager.rooms[r])
      requires forall room :: room in made ==> unchanged(room)
      requires forall c :: c in conns && conns[c] != conn ==> unchanged(conns[c])
      requires conn.Valid()
      ensures Valid()
      ensures View() == old(View()).(conns := old(View()).conns[conn.id := conn.Value()])
      ensures ConnsView() == old(ConnsView())[conn.id := conn.Value()]
    {
      assert ConnsValid();
      assert forall r :: r in manager.rooms ==> old(MembersValid(manager.rooms[r]));
      assert ConnsView() == old(ConnsView())[conn.id := conn.Value()];
    }

    /** Only one listed room's fields changed. */
    twostate lemma RoomChanged(room: Room)
      requires old(Valid()) && Listed(room) && unchanged(this) && unchanged(manager)
      requires forall r :: r in manager.rooms && manager.rooms[r] != room ==> unchanged(manager.rooms[r])
      requires forall other :: other in made && other != room ==> unchanged(other)
      requires forall c :: c in conns ==> unchanged(conns[c])
      requires MembersValid(room)
      ensures Valid()
      ensures View() == old(View()).(rooms := old(View()).rooms[room.id := room.Value()])
    {
      assert RoomsValid();
      assert RoomsView() == old(RoomsView())[room.id := room.Value()];
    }

    /** Only map entries went away. */
    twostate lemma EntriesDropped()
      requires old(Valid()) && unchanged(manager) && unchanged(`conns) && unchanged(`made) && unchanged(`nextConn)
      requires forall r :: r in manager.rooms ==> unchanged(manager.rooms[r])
      requires forall room :: room in made ==> unchanged(room)
      requires forall c :: c in conns ==> unchanged(conns[c])
      requires forall c :: c in connRoom ==> c in old(connRoom) && connRoom[c] == old(connRoom[c])
      ensures Valid()
      ensures View() == old(View()).(connRoom := IdsOf(connRoom))
    {
      assert ConnsValid();
      assert MapValid();
      assert forall r :: r in manager.rooms ==> old(MembersValid(manager.rooms[r]));
      assert RoomsValid();
    }

    method Unmap(c: M.ConnId)
      requires Valid()
      modifies this`connRoom
      ensures Valid() && connRoom == old(connRoom) - {c}
      ensures View() == old(View()).(connRoom := old(View()).connRoom - {c})
    {
      IdsOfMinus(connRoom, c);
      connRoom := connRoom - {c};
      EntriesDropped();
    }

    /** The loop of cleanup_room, erasing the room's entries as it goes. */
    method EraseEntries(room: M.RoomId)
      requires Valid()
      modifies this`connRoom
      ensures Valid() && forall c :: c in connRoom ==> connRoom[c].id != room
      ensures View() == old(View()).(connRoom := WithoutEntries(old(View()).connRoom, room))
    {
      ghost var before := connRoom;
      WithoutMeaning(before, room);
      var todo := connRoom.Keys;
      WithoutNothing(before, todo, room);
      while todo != {}
        invariant connRoom == WithoutRoom(before, todo, room) && todo <= before.Keys
        decreases todo
      {
        var c :| c in todo;
        WithoutOne(before, todo, room, c);
        todo := todo - {c};
        if connRoom[c].id == room {
          connRoom := connRoom - {c};
        }
      }
      EntriesDropped();
    }

    /** Only an unmapped room went away. */
    twostate lemma RoomDropped(room: M.RoomId)
      requires old(Valid()) && unchanged(this) && manager.nextRoomId == old(manager.nextRoomId)
      requires manager.rooms == old(manager.rooms) - {room}
      requires room in old(manager.rooms) ==> old(manager.rooms[room].closed)
      requires forall r :: r in manager.rooms ==> unchanged(manager.rooms[r])
      requires forall room :: room in made ==> unchanged(room)
      requires forall c :: c in conns ==> unchanged(conns[c])
      requires forall c :: c in connRoom ==> connRoom[c].id != room
      ensures Valid() && OnlyRoomsOf(old(manager.rooms))
      ensures View() == old(View()).(rooms := old(View()).rooms - {room})
    {
      assert forall r :: r in manager.rooms ==> old(MembersValid(manager.rooms[r]));
      assert RoomsValid();
      assert RoomsView() == old(RoomsView()) - {room};
    }

    method CleanupRoom(room: M.RoomId)
      requires Valid() && (room in manager.rooms ==> manager.rooms[room].closed)
      modifies this`connRoom, manager`rooms
      ensures Valid() && OnlyRoomsOf(old(manager.rooms))
      ensures View() == Cleaned(old(View()), room)
    {
      hide Valid, View, Unclosed;
      EraseEntries(room);
      label erased:
      manager.RemoveRoom(room);
      RoomDropped@erased(room);
    }

    method OnConnectionClose(conn: Connection)
      requires Valid() && Registered(conn)
      modifies this, manager, conns.Values, manager.rooms.Values
      ensures Evolved()
      ensures View() == M.OnConnectionClose(old(View()), conn.id)
      decreases Unclosed(), 3
    {
      hide Valid, View, Unclosed;
      hide M.RemoveParticipant;
      Mapped(conn.id);
      if conn.id !in connRoom {
        return;
      }
      var room := connRoom[conn.id];
      Unmap(conn.id);
      room.RemoveParticipant(this, conn.id);
    }

    /** What the protocol state shows of the map. */
    lemma Mapped(c: M.ConnId)
      requires Valid()
      ensures c in View().connRoom <==> c in connRoom
      ensures c in connRoom ==> Listed(connRoom[c]) && View().connRoom[c] == connRoom[c].id
    {
    }

    // Handlers

    /** One map entry was added, for a connection no other room lists. */
    twostate lemma EntryAdded(new conn: Connection, new room: Room)
      requires old(Valid()) && unchanged(manager) && unchanged(`conns) && unchanged(`made) && unchanged(`nextConn)
      requires Registered(conn) && Listed(room) && connRoom == old(connRoom)[conn.id := room]
      requires forall r :: r in manager.rooms ==> unchanged(manager.rooms[r])
      requires forall o :: o in made ==> unchanged(o)
      requires forall c :: c in conns ==> unchanged(conns[c])
      requires forall r :: r in manager.rooms && manager.rooms[r] != room ==> conn.id !in manager.rooms[r].participants
      ensures Valid()
    {
      assert ConnsValid();
      forall r | r in manager.rooms
        ensures MembersValid(manager.rooms[r])
      {
        assert old(MembersValid(manager.rooms[r]));
      }
    }

    twostate lemma OnlyMapChanged()
      requires unchanged(manager) && unchanged(`conns) && unchanged(`nextConn)
      requires forall r :: r in manager.rooms ==> unchanged(manager.rooms[r])
      requires forall c :: c in conns ==> unchanged(conns[c])
      ensures View() == old(View()).(connRoom := MapView())
    {
      assert ConnsView() == old(ConnsView());
      assert RoomsView() == old(RoomsView());
    }

    /** One room was added. */
    twostate lemma RoomAdded(new room: Room)
      requires old(Valid()) && unchanged(`conns) && unchanged(`connRoom) && made == old(made) + {room}
      requires room.id !in old(manager.rooms) && manager.rooms == old(manager.rooms)[room.id := room]
      requires forall r :: r in old(manager.rooms) ==> unchanged(old(manager.rooms)[r])
      requires forall o :: o in old(made) ==> unchanged(o)
      requires forall c :: c in conns ==> unchanged(conns[c])
      requires MembersValid(room)
      ensures Valid()
    {
      assert ConnsValid();
      forall r | r in manager.rooms
        ensures MembersValid(manager.rooms[r])
      {
        assert r != room.id ==> old(MembersValid(manager.rooms[r]));
      }
    }

    twostate lemma RoomAddedView(new room: Room)
      requires unchanged(`conns) && unchanged(`connRoom) && unchanged(`nextConn)
      requires room.id !in old(manager.rooms) && manager.rooms == old(manager.rooms)[room.id := room]
      requires forall r :: r in old(manager.rooms) ==> unchanged(old(manager.rooms)[r])
      requires forall c :: c in conns ==> unchanged(conns[c])
      ensures View() == old(View()).(rooms := old(View()).rooms[room.id := room.Value()],
                                     nextRoom := manager.nextRoomId)
    {
      assert ConnsView() == old(ConnsView());
      assert RoomsView() == old(RoomsView())[room.id := room.Value()];
    }

    method Reply(conn: Connection, packet: Packet, ghost w: M.World)
      requires Valid() && Registered(conn) && View() == w && conn.id in w.conns
      modifies conn
      ensures Valid() && View() == M.Reply(w, conn.id, packet)
    {
      assert w.conns[conn.id] == conn.Value();
      conn.SendIn(this, packet);
    }

    /** A listed room's members are accepted connections whose map entries, if any, lead to it. */
    lemma MembersOf(room: Room, w: M.World)
      requires Valid() && Listed(room) && View() == w && room.id in w.rooms
      ensures MembersValid(room) && Accepted(room.participants) && OwnEntries(w, room.participants.Keys, room.id)
    {
      assert MembersValid(room);
    }

    /** What the protocol state shows of a listed room. */
    lemma Shown(room: Room, w: M.World)
      requires Listed(room) && View() == w
      ensures room.id in w.rooms && w.rooms[room.id] == room.Value() && w.conns == ConnsView()
    {
    }

    lemma OneValid(conn: Connection)
      requires Valid() && Registered(conn)
      ensures conn.Valid()
    {
    }

    /** What the protocol state shows of a connection and of the manager's map. */
    lemma Seen(conn: Connection, w: M.World)
      requires Registered(conn) && View() == w
      ensures conn.id in w.conns && w.conns[conn.id] == conn.Value()
      ensures w.rooms.Keys == manager.rooms.Keys && |w.rooms| == |manager.rooms| && w.nextRoom == manager.nextRoomId
    {
      SameSize(w.rooms, manager.rooms);
    }

    /** create_room, seen from the service. */
    method CreateRoomIn(conn: Connection, options: M.RoomOptions, userId: u64, ghost w: M.World)
      returns (room: Option<Room>, ghost draws: seq<u32>)
      requires Valid() && Registered(conn) && View() == w && Outside(w, conn.id)
      requires M.ValidConfig(cfg) && manager.cfg == cfg && userId != 0
      modifies manager, this`made
      ensures Valid() && Grown() && M.ValidDraws(draws)
      ensures room.None? <==> !w.conns[conn.id].Open() || |w.rooms| >= cfg.maxRooms
      ensures room.None? ==> View() == w
      ensures room.Some? ==>
                && room.value.id !in w.rooms && Listed(room.value)
                && M.AllocateRoomId(w.rooms.Keys, draws, w.nextRoom) == (room.value.id, manager.nextRoomId)
                && View() == w.(rooms := w.rooms[room.value.id := NewRoom(options, cfg, conn.id, userId)],
                                nextRoom := manager.nextRoomId)
    {
      hide Valid, View, Unclosed;
      hide M.AllocateRoomId, NewRoom;
      Seen(conn, w);
      Mapped(conn.id);
      room, draws := manager.CreateRoom(conn, options, userId);
      if room.Some? {
        made := made + {room.value};
        RoomAdded(room.value);
        RoomAddedView(room.value);
        OneRoomMore(room.value);
      } else {
        NothingChanged();
      }
    }

    twostate lemma OneRoomMore(new room: Room)
      requires conns == old(conns) && fresh(room) && made == old(made) + {room}
      ensures Grown()
    {
    }

    lemma ElsewhereUnlisted(c: M.ConnId, room: Room, w: M.World)
      requires Valid() && Listed(room) && View() == w
      requires forall r :: r in w.rooms && r != room.id ==> c !in w.rooms[r].participants
      ensures forall r :: r in manager.rooms && manager.rooms[r] != room ==> c !in manager.rooms[r].participants
    {
      forall r | r in manager.rooms && manager.rooms[r] != room
        ensures c !in manager.rooms[r].participants
      {
        assert w.rooms[r] == manager.rooms[r].Value();
      }
    }

    /** _connection_room.emplace. */
    method MapRoom(conn: Connection, room: Room, ghost w: M.World)
      requires Valid() && Registered(conn) && Listed(room) && View() == w && conn.id !in w.connRoom
      requires forall r :: r in w.rooms && r != room.id ==> conn.id !in w.rooms[r].participants
      modifies this`connRoom
      ensures Valid() && View() == w.(connRoom := w.connRoom[conn.id := room.id])
    {
      hide Valid, IdsOf;
      Mapped(conn.id);
      ElsewhereUnlisted(conn.id, room, w);
      IdsOfUpdate(connRoom, conn.id, room);
      connRoom := M.Emplace(connRoom, conn.id, room);
      EntryAdded(conn, room);
      OnlyMapChanged();
    }

    /** Answers with the new room's id, or with 0 when none could be made. */
    method HandleCreate(conn: Connection, packet: Packet, ghost w: M.World) returns (ghost draws: seq<u32>)
      requires Valid() && Registered(conn) && View() == w && Outside(w, conn.id)
      requires M.ValidConfig(cfg) && manager.cfg == cfg
      modifies this, manager, conns.Values, made
      ensures Valid() && Grown() && M.ValidDraws(draws)
      ensures View() == M.HandleCreate(w, cfg, conn.id, packet, draws)
    {
      hide Valid, View, Unclosed;
      hide M.HandleCreate, M.CloseConn, M.ParseOptions, M.AllocateRoomId, M.Reply, NewRoom, ToBe;
      ListedMade();
      var options := M.ParseOptions(packet.payload, cfg);
      if packet.userId == 0 {
        draws := SomeDraws();
        CreateRejected(w, cfg, conn.id, packet, draws);
        conn.Close(this);
        return;
      }
      var room;
      room, draws := CreateRoomIn(conn, options, packet.userId, w);
      var roomNo: u32 := 0;
      if room.Some? {
        CreateStep(w, cfg, conn.id, packet, draws, room.value.id, manager.nextRoomId);
        MapRoom(conn, room.value, View());
        roomNo := room.value.id;
      } else {
        CreateRejected(w, cfg, conn.id, packet, draws);
      }
      Reply(conn, Packet(CreateMeetingResponse, 0, ToBe(4, roomNo)), View());
    }

    /** join_room, seen from the service. */
    method JoinRoomIn(roomId: M.RoomId, conn: Connection, userId: u64, ghost w: M.World) returns (result: JoinResult)
      requires Valid() && Registered(conn) && View() == w && Outside(w, conn.id) && userId != 0
      modifies manager.rooms.Values
      ensures Valid() && manager.rooms.Keys == w.rooms.Keys
      ensures result == NotFound || result == RoomClosed <==> roomId !in w.rooms || w.rooms[roomId].closed
      ensures result == JoinOk <==>
                && roomId in w.rooms && !w.rooms[roomId].closed && w.conns[conn.id].Open()
                && |w.rooms[roomId].participants| < w.rooms[roomId].maxParticipants
      ensures result != JoinOk ==> View() == w
      ensures result == JoinOk ==> View() == w.(rooms := Entered(w, roomId, conn.id, Newcomer(userId)).rooms)
    {
      hide Valid, View, Unclosed;
      Seen(conn, w);
      Mapped(conn.id);
      if roomId in manager.rooms {
        RoomIdOf(roomId);
        Shown(manager.rooms[roomId], w);
        MembersOf(manager.rooms[roomId], w);
      }
      result := manager.JoinRoom(roomId, conn, userId);
      if result == JoinOk {
        var room := manager.rooms[roomId];
        ValuesUpdate(old(room.participants), conn.id, Member(conn, Profile(userId, [], []), false));
        assert old(MembersValid(room));
        RoomChanged(room);
      } else {
        NothingChanged();
      }
    }

    /** The rest of a join that the room let in. */
    method Enter(conn: Connection, roomId: M.RoomId, packet: Packet, ghost w: M.World)
      returns (ghost order: seq<M.ConnId>)
      requires Valid() && Registered(conn) && Outside(w, conn.id) && roomId in manager.rooms
      requires Joinable(w, conn.id, packet) && roomId == ReadU32(packet.payload)
      requires View() == w.(rooms := Entered(w, roomId, conn.id, Newcomer(packet.userId)).rooms)
      modifies this`connRoom, conns.Values
      ensures Valid() && M.Enumerates(order, M.JoinMembers(w, conn.id, Ok(packet)))
      ensures View() == M.HandleJoin(w, conn.id, packet, order)
    {
      hide Valid, View, Unclosed;
      hide M.HandleJoin, M.CloseConn, M.Reply, M.NotifyUserJoined, M.Enumerates, ReadU32, ToBe;
      var room := manager.rooms[roomId];
      RoomIdOf(roomId);
      MapRoom(conn, room, View());
      Reply(conn, M.JoinReply(roomId), Entered(w, roomId, conn.id, Newcomer(packet.userId)));
      order := room.NotifyUserJoined(this, conn, View());
      JoinStep(w, conn.id, packet, order);
    }

    /** A newcomer is listed, mapped, answered and announced, in that order; anyone else is answered or closed. */
    method HandleJoin(conn: Connection, packet: Packet, ghost w: M.World) returns (ghost order: seq<M.ConnId>)
      requires Valid() && Registered(conn) && View() == w && Outside(w, conn.id)
      modifies this, manager, conns.Values, made
      ensures Valid() && conns == old(conns) && made == old(made)
      ensures M.Enumerates(order, M.JoinMembers(w, conn.id, Ok(packet)))
      ensures View() == M.HandleJoin(w, conn.id, packet, order)
    {
      hide Valid, View, Unclosed;
      hide M.HandleJoin, M.CloseConn, M.Reply, M.NotifyUserJoined, M.Enumerates, ReadU32, ToBe;
      ListedMade();
      order := SomeOrder(M.JoinMembers(w, conn.id, Ok(packet)));
      if |packet.payload| < 4 {
        JoinRejected(w, conn.id, packet, order);
        conn.Close(this);
        return;
      }
      var roomId := ReadU32(packet.payload);
      if packet.userId == 0 {
        JoinRejected(w, conn.id, packet, order);
        conn.Close(this);
        return;
      }
      var result := JoinRoomIn(roomId, conn, packet.userId, w);
      if result == JoinOk {
        order := Enter(conn, roomId, packet, w);
        return;
      }
      JoinRejected(w, conn.id, packet, order);
      var value := M.JOIN_NOT_AVAILABLE;
      if result == Full {
        value := M.JOIN_FULL;
      }
      Reply(conn, M.JoinReply(value), w);
    }

    lemma RoomIdOf(r: M.RoomId)
      requires Valid() && r in manager.rooms
      ensures manager.rooms[r].id == r && Listed(manager.rooms[r])
    {
    }

    method HandleLobby(conn: Connection, packet: Packet, ghost w: M.World)
      returns (ghost draws: seq<u32>, ghost order: seq<M.ConnId>)
      requires Valid() && Registered(conn) && View() == w && Outside(w, conn.id)
      requires M.ValidConfig(cfg) && manager.cfg == cfg
      modifies this, manager, conns.Values, made
      ensures Valid() && Grown()
      ensures M.ValidDraws(draws) && M.Enumerates(order, M.JoinMembers(w, conn.id, Ok(packet)))
      ensures View() == M.HandleLobby(w, cfg, conn.id, packet, draws, order)
    {
      hide Valid, View, Unclosed;
      hide M.HandleCreate, M.HandleJoin, M.CloseConn, M.JoinMembers, M.Enumerates, M.ValidDraws;
      ListedMade();
      draws := SomeDraws();
      order := SomeOrder(M.JoinMembers(w, conn.id, Ok(packet)));
      match packet.kind
      case CreateMeeting =>
        draws := HandleCreate(conn, packet, w);
      case JoinMeeting =>
        order := HandleJoin(conn, packet, w);
      case _ =>
        conn.Close(this);
    }

    // Events

    /** One turn of the read loop; the event is the protocol's name for what happened. */
    method DeliverOne(conn: Connection, decoded: Decoded, ghost w: M.World) returns (ghost e: M.Event)
      requires Valid() && Registered(conn) && View() == w && conn.IsOpen()
      requires conn.id !in w.connRoom ==> Outside(w, conn.id)
      requires M.ValidConfig(cfg) && manager.cfg == cfg
      modifies this, manager, conns.Values, made
      ensures Valid() && Grown()
      ensures e.Deliver? && e.c == conn.id && e.decoded == decoded && M.Enabled(w, e)
      ensures View() == M.Next(w, cfg, e)
    {
      hide Valid, View, Unclosed, M.HandlePacket, M.HandleLobby, M.CloseConn, M.JoinMembers, M.Enumerates, M.ValidDraws;
      ghost var draws := SomeDraws();
      ghost var order := SomeOrder(M.JoinMembers(w, conn.id, decoded));
      ListedMade();
      Seen(conn, w);
      Mapped(conn.id);
      if decoded.Invalid? {
        conn.Close(this);
      } else if conn.id in connRoom {
        connRoom[conn.id].HandlePacket(this, conn, decoded.packet);
      } else {
        draws, order := HandleLobby(conn, decoded.packet, w);
      }
      e := M.Deliver(conn.id, decoded, draws, order);
    }

    method Turn(conn: Connection, decoded: Decoded, ghost w: M.World) returns (ghost e: M.Event)
      requires Valid() && Registered(conn) && View() == w && conn.IsOpen()
      requires M.ValidConfig(cfg) && manager.cfg == cfg && MeetingRuns.Good(w, cfg)
      modifies this, manager, conns.Values, made
      ensures Valid() && Grown() && MeetingRuns.Good(View(), cfg)
      ensures e.Deliver? && e.c == conn.id && e.decoded == decoded && M.Enabled(w, e)
      ensures View() == M.Next(w, cfg, e) && (decoded.Invalid? ==> !conn.IsOpen())
    {
      Seen(conn, w);
      if conn.id !in w.connRoom {
        LobbyOutside(w, cfg, conn.id);
      }
      e := DeliverOne(conn, decoded, w);
      MeetingRuns.NextKeeps(w, cfg, e);
      if decoded.Invalid? {
        InvalidCloses(w, cfg, e);
        Seen(conn, View());
      }
    }

    /** One turn of the read loop: the next complete message, if there is one, and its handler. */
    method ReadOne(conn: Connection, parse: Parser, ghost w: M.World) returns (more: bool, ghost step: seq<M.Event>)
      requires Valid() && Registered(conn) && View() == w && conn.IsOpen() && conn.reader.Valid()
      requires M.ValidConfig(cfg) && manager.cfg == cfg && MeetingRuns.Good(w, cfg)
      modifies this, manager, conns.Values, made, conn.reader`handed, conn.reader.buffer
      ensures Valid() && Grown() && MeetingRuns.Good(View(), cfg)
      ensures conn.SameStream()
      ensures more ==> conn.reader.Unread() < old(conn.reader.Unread())
      ensures M.Run(w, cfg, step) == Some(View())
      ensures conn.reader.Framed() ==> conn.HandedOn(step, parse, old(conn.reader.handed))
      ensures conn.reader.Framed() && !more ==> conn.ReadOut()
    {
      hide M.Next, M.Run, M.Enabled, MeetingRuns.Good, M.ValidConfig, Valid, View;
      hide MessageReader.Valid, MessageReader.Framed, Connection.HandedOn;
      Seen(conn, w);
      ghost var before := conn.reader.handed;
      var decoded := conn.reader.Next(parse);
      RunNone(w, cfg);
      if decoded.None? {
        if conn.reader.Framed() {
          conn.NoneHandedOn(parse);
        }
        return false, [];
      }
      ghost var e := Turn(conn, decoded.value, w);
      RunOne(w, cfg, e);
      step := [e];
      more := decoded.value.Ok?;
      if conn.reader.Framed() {
        conn.OneHandedOn(e, parse, before);
      }
    }

    /**
     The read loop: hands over every complete message in the stream, in order, until one closes the connection.
     What the service does meanwhile is a run of the protocol.
    */
    method OnConnectionRead(conn: Connection, parse: Parser, ghost w: M.World) returns (ghost events: seq<M.Event>)
      requires Valid() && Registered(conn) && View() == w && conn.reader.Valid()
      requires M.ValidConfig(cfg) && manager.cfg == cfg && MeetingRuns.Good(w, cfg)
      modifies this, manager, conns.Values, made, conn.reader`handed, conn.reader.buffer
      ensures Valid() && Grown()
      ensures conn.SameStream()
      ensures M.Run(w, cfg, events) == Some(View())
      ensures conn.reader.Framed() ==> conn.HandedOn(events, parse, old(conn.reader.handed)) && conn.ReadOut()
    {
      hide M.Next, M.Run, M.Enabled, M.ValidConfig, MeetingRuns.Good, Valid, View, MessageReader.Valid;
      hide MessageReader.Framed, Passed;
      events := [];
      RunNone(w, cfg);
      ghost var now := w;
      ghost var before := conn.reader.handed;
      conn.reader.HandedPrefix();
      NonePassed(conn.id, parse, before);
      var more := true;
      while more && conn.IsOpen()
        invariant Valid() && Grown() && View() == now && MeetingRuns.Good(now, cfg)
        invariant conn.SameStream()
        invariant M.Run(w, cfg, events) == Some(now)
        invariant conn.reader.Framed() ==> conn.HandedOn(events, parse, before)
        invariant conn.reader.Framed() && !more ==> conn.ReadOut()
        decreases if more then conn.reader.Unread() + 1 else 0
      {
        ghost var middle := conn.reader.handed;
        ghost var step;
        more, step := ReadOne(conn, parse, now);
        MeetingRuns.RunConcat(w, cfg, events, step);
        if conn.reader.Framed() {
          conn.MoreHandedOn(events, step, parse, before, middle);
        }
        events := events + step;
        now := View();
      }
    }

    /** A connection is accepted and its handlers are bound to this service. */
    method OnNewConnection(ghost w: M.World) returns (conn: Connection)
      requires Valid() && View() == w && M.ValidConfig(cfg) && MeetingRuns.Good(w, cfg)
      modifies this
      ensures Valid() && fresh(conn) && conn.id !in old(conns)
      ensures conns == old(conns)[conn.id := conn] && made == old(made)
      ensures fresh(conn.reader.Repr()) && conn.reader.Valid() && conn.reader.appended == []
      ensures View() == M.Next(w, cfg, M.Accept)
    {
      hide Valid, View, MeetingRuns.Good;
      NextIsNew(w);
      conn := new Connection(nextConn);
      nextConn := nextConn + 1;
      conns := conns[conn.id := conn];
      ConnAdded(conn);
      ConnAddedView(conn);
    }

    lemma NextIsNew(w: M.World)
      requires Valid() && View() == w && M.ValidConfig(cfg) && MeetingRuns.Good(w, cfg)
      ensures nextConn > 0 && nextConn !in conns && w.nextConn == nextConn
    {
      assert w.conns.Keys == conns.Keys;
    }

    /** One connection was added under a new id. */
    twostate lemma ConnAdded(new conn: Connection)
      requires old(Valid()) && unchanged(manager) && unchanged(`connRoom) && unchanged(`made)
      requires conn.id !in old(conns) && conns == old(conns)[conn.id := conn] && conn.Valid()
      requires forall r :: r in manager.rooms ==> unchanged(manager.rooms[r])
      requires forall room :: room in made ==> unchanged(room)
      requires forall c :: c in old(conns) ==> unchanged(old(conns)[c])
      ensures Valid()
    {
      assert ConnsValid();
      forall r | r in manager.rooms
        ensures MembersValid(manager.rooms[r])
      {
        assert old(MembersValid(manager.rooms[r]));
      }
    }

    twostate lemma ConnAddedView(new conn: Connection)
      requires unchanged(manager) && unchanged(`connRoom)
      requires conn.id !in old(conns) && conns == old(conns)[conn.id := conn]
      requires forall r :: r in manager.rooms ==> unchanged(manager.rooms[r])
      requires forall c :: c in old(conns) ==> unchanged(old(conns)[c])
      ensures View() == old(View()).(conns := old(View()).conns[conn.id := conn.Value()], nextConn := nextConn)
    {
      assert ConnsView() == old(ConnsView())[conn.id := conn.Value()];
      assert RoomsView() == old(RoomsView());
    }

    twostate lemma NothingChanged()
      requires old(Valid()) && unchanged(this)
      requires manager.rooms == old(manager.rooms) && manager.nextRoomId == old(manager.nextRoomId)
      requires forall r :: r in manager.rooms ==> unchanged(manager.rooms[r])
      requires forall room :: room in made ==> unchanged(room)
      requires forall c :: c in conns ==> unchanged(conns[c])
      ensures Valid() && View() == old(View())
    {
      assert ConnsView() == old(ConnsView()) && RoomsView() == old(RoomsView());
    }
  }
}
