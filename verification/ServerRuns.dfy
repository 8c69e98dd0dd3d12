/**
 The server as the event loop drives it: one handler at a time, each run to completion. Whichever handlers the
 loop picks, with whatever arguments, the objects show a state that a run of the meeting protocol reaches.
 */
module ServerRuns {
  import opened Options
  import opened Bytes
  import opened Wire
  import opened Framing
  import opened MeetingServer
  import M = Meeting
  import MeetingRuns
  import opened ServerSteps

  class Server {
    const service: MeetingService
    /** The protocol events that the handlers called so far amount to. */
    ghost var history: seq<M.Event>

    ghost function Readers(): set<MessageReader>
      reads service`conns
    {
      set c | c in service.conns.Values :: c.reader
    }

    /** Every connection's read stream is in order, and no two share any part. */
    ghost predicate ReadersValid()
      reads service`conns, Readers(), set r | r in Readers() :: r.buffer, set r | r in Readers() :: r.buffer.data
    {
      && (forall c :: c in service.conns ==> service.conns[c].reader.Valid())
      && (forall c, d :: c in service.conns && d in service.conns && c != d ==>
            service.conns[c].reader.Repr() !! service.conns[d].reader.Repr())
    }

    /** Every object the server is made of. */
    ghost function Footprint(): set<object>
      reads service`conns, service`made, Readers(), set r | r in Readers() :: r.buffer
    {
      {this, service, service.manager} + service.conns.Values + service.made + Streams()
    }

    ghost function Streams(): set<object>
      reads service`conns, Readers(), set r | r in Readers() :: r.buffer
    {
      set r, o | r in Readers() && o in r.Repr() :: o
    }

    /** Only new objects joined. */
    twostate predicate Extended()
      reads service`conns, service`made, Readers(), set r | r in Readers() :: r.buffer
    {
      forall o :: o in Footprint() ==> o in old(Footprint()) || fresh(o)
    }

    /** A handler that adds only new rooms, and only new parts to the streams, adds nothing else. */
    twostate lemma FootprintGrown()
      requires service.Grown()
      requires forall r :: r in Readers() ==> fresh(r.Repr() - old(r.Repr()))
      ensures Extended()
    {
      forall o | o in Streams()
        ensures o in old(Streams()) || fresh(o)
      {
        var r :| r in Readers() && o in r.Repr();
        assert r in old(Readers());
      }
    }

    twostate lemma FootprintJoined(new conn: Connection)
      requires conn.id !in old(service.conns) && service.conns == old(service.conns)[conn.id := conn]
      requires fresh(conn) && fresh(conn.reader.Repr()) && service.made == old(service.made)
      requires forall r :: r in old(Readers()) ==> r.Repr() == old(r.Repr())
      ensures Extended()
    {
      forall o | o in Streams()
        ensures o in old(Streams()) || fresh(o)
      {
        var r :| r in Readers() && o in r.Repr();
        assert r == conn.reader || r in old(Readers());
      }
    }

    /** Handlers that leave the streams alone leave them in order. */
    twostate lemma ReadersKept()
      requires old(ReadersValid()) && service.Grown()
      requires forall r :: r in Readers() ==> unchanged(r) && unchanged(r.buffer) && unchanged(r.buffer.data)
      ensures ReadersValid() && Extended()
    {
      hide Footprint;
      FootprintGrown();
    }

    /** A new connection's stream is its own. */
    twostate lemma ReadersJoined(new conn: Connection)
      requires old(ReadersValid()) && conn.id !in old(service.conns)
      requires service.conns == old(service.conns)[conn.id := conn]
      requires fresh(conn) && fresh(conn.reader.Repr()) && conn.reader.Valid() && service.made == old(service.made)
      requires forall r :: r in old(Readers()) ==> unchanged(r) && unchanged(r.buffer) && unchanged(r.buffer.data)
      ensures ReadersValid() && Extended()
    {
      hide MessageReader.Valid, Footprint;
      FootprintJoined(conn);
      forall c | c in service.conns
        ensures service.conns[c].reader.Valid()
        ensures c != conn.id ==> service.conns[c].reader.Repr() !! conn.reader.Repr()
      {
        if c != conn.id {
          assert service.conns[c].reader in old(Readers());
        }
      }
    }

    /** Work on one connection's stream leaves the others in order. */
    twostate lemma ReaderWorked(conn: Connection)
      requires old(ReadersValid()) && service.Grown() && service.Registered(conn)
      requires conn.reader.Valid() && fresh(conn.reader.Repr() - old(conn.reader.Repr()))
      requires forall r :: r in Readers() && r != conn.reader ==>
                 unchanged(r) && unchanged(r.buffer) && unchanged(r.buffer.data)
      ensures ReadersValid() && Extended()
    {
      hide Footprint, MessageReader.Valid;
      FootprintGrown();
      forall c | c in service.conns && c != conn.id
        ensures service.conns[c].reader.Valid()
        ensures service.conns[c].reader.Repr() == old(service.conns[c].reader.Repr())
        ensures service.conns[c].reader.Repr() !! conn.reader.Repr()
      {
        OtherReader(conn.id, c);
      }
    }

    twostate lemma OtherReader(new k: M.ConnId, new c: M.ConnId)
      requires old(ReadersValid()) && service.Grown() && k in service.conns && c in service.conns && c != k
      requires fresh(service.conns[k].reader.Repr() - old(service.conns[k].reader.Repr()))
      requires service.conns[c].reader != service.conns[k].reader
      requires forall r :: r in Readers() && r != service.conns[k].reader ==>
                 unchanged(r) && unchanged(r.buffer) && unchanged(r.buffer.data)
      ensures service.conns[c].reader.Valid()
      ensures service.conns[c].reader.Repr() == old(service.conns[c].reader.Repr())
      ensures service.conns[c].reader.Repr() !! service.conns[k].reader.Repr()
    {
      hide MessageReader.Valid;
      assert service.conns[c].reader in Readers();
    }

    lemma StreamOf(conn: Connection)
      requires ReadersValid() && service.Registered(conn)
      ensures conn.reader.Valid()
      ensures forall r :: r in Readers() && r != conn.reader ==> r.Repr() !! conn.reader.Repr()
    {
    }

    ghost predicate Consistent()
      reads service, service.manager, service.conns.Values, service.manager.rooms.Values, service.made
    {
      service.Valid() && service.manager.cfg == service.cfg && M.ValidConfig(service.cfg)
    }

    /** The objects are consistent and show the state reached by the protocol run in history. */
    ghost predicate Live()
      reads this, service, service.manager, service.conns.Values, service.manager.rooms.Values, service.made
    {
      Consistent() && M.Run(M.INITIAL, service.cfg, history) == Some(service.View())
    }

    constructor (cfg: M.Config)
      requires M.ValidConfig(cfg)
      ensures Live() && ReadersValid() && history == [] && service.cfg == cfg
      ensures forall o :: o in Footprint() ==> o == this || fresh(o)
    {
      hide MeetingService.Valid, MeetingService.View, Footprint, ReadersValid;
      service := new MeetingService(cfg);
      history := [];
      new;
      NobodyYet();
    }

    lemma NobodyYet()
      requires service.conns == map[] && service.made == {}
      ensures ReadersValid() && Footprint() == {this, service, service.manager}
    {
    }

    /** Whenever no handler is running, everything proved about reachable protocol states holds of the objects. */
    lemma LiveIsGood()
      requires Live()
      ensures MeetingRuns.Good(service.View(), service.cfg)
    {
      MeetingRuns.EveryRunGood(service.cfg, history);
    }

    lemma Extend(w: M.World, e: M.Event)
      requires M.ValidConfig(service.cfg) && M.Run(M.INITIAL, service.cfg, history) == Some(w) && M.Enabled(w, e)
      ensures M.Run(M.INITIAL, service.cfg, history + [e]) == Some(M.Next(w, service.cfg, e))
    {
      MeetingRuns.RunAppend(M.INITIAL, service.cfg, history, e);
    }

    method OnAccept() returns (conn: Connection)
      requires Live() && ReadersValid()
      modifies this`history, service
      ensures Live() && ReadersValid() && history == old(history) + [M.Accept]
      ensures fresh(conn) && conn.id !in old(service.conns) && service.conns == old(service.conns)[conn.id := conn]
      ensures Extended()
    {
      hide M.Run, M.Next, ReadersValid, MeetingRuns.Good, MessageReader.Valid, Footprint;
      hide MeetingService.Valid, MeetingService.View;
      ghost var w := service.View();
      LiveIsGood();
      Extend(w, M.Accept);
      conn := service.OnNewConnection(w);
      history := history + [M.Accept];
      ReadersJoined(conn);
    }

    /** A WebSocket message arrived: it joins the stream, and everything complete in there is handled. */
    method OnMessage(conn: Connection, message: seq<byte>, parse: Parser) returns (ghost events: seq<M.Event>)
      requires Live() && ReadersValid() && service.Registered(conn)
      modifies this`history, service, service.manager, service.conns.Values, service.made
      modifies conn.reader.Repr()
      ensures service.Grown() && Extended()
      ensures Live() && ReadersValid() && history == old(history) + events
      ensures conn.reader.appended == old(conn.reader.appended) + [message]
      ensures conn.reader.Framed() ==> conn.HandedOn(events, parse, old(conn.reader.handed)) && conn.ReadOut()
    {
      hide M.Run, MeetingService.Valid, MeetingService.View, ReadersValid, MessageReader.Valid, Passed, Footprint;
      Receive(conn, message);
      events := Read(conn, parse);
    }

    method Receive(conn: Connection, message: seq<byte>)
      requires ReadersValid() && service.Registered(conn)
      modifies conn.reader.Repr()
      ensures service.Grown() && Extended()
      ensures ReadersValid() && fresh(conn.reader.Repr() - old(conn.reader.Repr()))
      ensures conn.reader.appended == old(conn.reader.appended) + [message]
      ensures conn.reader.handed == old(conn.reader.handed)
    {
      hide ReadersValid, MessageReader.Valid, Footprint;
      StreamOf(conn);
      conn.reader.Append(message);
      ReaderWorked(conn);
    }

    method Read(conn: Connection, parse: Parser) returns (ghost events: seq<M.Event>)
      requires Live() && ReadersValid() && service.Registered(conn)
      modifies this`history, service, service.manager, service.conns.Values, service.made
      modifies conn.reader`handed, conn.reader.buffer
      ensures service.Grown() && Extended()
      ensures Live() && ReadersValid() && history == old(history) + events
      ensures conn.reader.appended == old(conn.reader.appended)
      ensures conn.reader.Framed() ==> conn.HandedOn(events, parse, old(conn.reader.handed)) && conn.ReadOut()
    {
      hide M.Run, M.ValidConfig, MeetingService.Valid, MeetingService.View, MeetingRuns.Good, Footprint;
      hide ReadersValid, MessageReader.Valid, MessageReader.Framed, Connection.HandedOn, Connection.ReadOut;
      ghost var w := service.View();
      LiveIsGood();
      StreamOf(conn);
      events := service.OnConnectionRead(conn, parse, w);
      ReaderWorked(conn);
      MeetingRuns.RunConcat(M.INITIAL, service.cfg, history, events);
      history := history + events;
    }

    /** A failed handshake, or a read that ended in an error. */
    method OnPeerClosed(conn: Connection)
      requires Live() && ReadersValid() && service.Registered(conn)
      modifies this`history, service, service.manager, service.conns.Values, service.made
      ensures service.Grown() && Extended()
      ensures Live() && ReadersValid() && history == old(history) + [M.PeerClose(conn.id)] && conn.closed
    {
      hide M.Run, ReadersValid, MeetingService.Valid, MeetingService.View, M.CloseConn, Footprint;
      ghost var w := service.View();
      service.Seen(conn, w);
      Extend(w, M.PeerClose(conn.id));
      ClosedStays(w, conn.id);
      service.ListedMade();
      conn.Close(service);
      service.Seen(conn, service.View());
      history := history + [M.PeerClose(conn.id)];
      ReadersKept();
    }

    method OnSocketLost(conn: Connection)
      requires Live() && ReadersValid() && service.Registered(conn)
      modifies this`history, conn`socketOpen
      ensures service.Grown() && Extended()
      ensures Live() && ReadersValid() && history == old(history) + [M.SocketLost(conn.id)]
    {
      hide M.Run, ReadersValid, MeetingService.Valid, MeetingService.View, Footprint;
      ghost var w := service.View();
      service.Seen(conn, w);
      Extend(w, M.SocketLost(conn.id));
      conn.LoseSocket(service, w);
      history := history + [M.SocketLost(conn.id)];
      ReadersKept();
    }

    /** A write completed: the oldest packet not yet written now is, and the protocol state is unchanged. */
    method OnWritten(conn: Connection)
      requires Live() && ReadersValid() && service.Registered(conn) && conn.inFlight == 1
      modifies conn
      ensures service.Grown() && Extended()
      ensures Live() && ReadersValid()
      ensures conn.written == old(conn.written) + [old(conn.sent)[|old(conn.written)|]]
    {
      hide M.Run, ReadersValid, MeetingService.Valid, MeetingService.View, Footprint;
      conn.WriteDone(service);
      ReadersKept();
    }

    method OnWriteFailed(conn: Connection)
      requires Live() && ReadersValid() && service.Registered(conn) && conn.inFlight == 1
      modifies this`history, service, service.manager, service.conns.Values, service.made
      ensures service.Grown() && Extended()
      ensures Live() && ReadersValid() && history == old(history) + [M.PeerClose(conn.id)]
    {
      hide M.Run, ReadersValid, MeetingService.Valid, MeetingService.View, M.CloseConn, Footprint;
      ghost var w := service.View();
      service.Seen(conn, w);
      Extend(w, M.PeerClose(conn.id));
      service.ListedMade();
      conn.WriteFailed(service);
      history := history + [M.PeerClose(conn.id)];
      ReadersKept();
    }

    /** A room's duration timer; one that fires after the room has closed does nothing. */
    method OnTimer(room: Room)
      requires Live() && ReadersValid() && room in service.made
      modifies this`history, service, service.manager, service.conns.Values, service.made
      ensures service.Grown() && Extended()
      ensures Live() && ReadersValid()
      ensures history == old(history) + if old(room.closed) then [] else [M.Expire(room.id)]
    {
      hide M.Run, ReadersValid, MeetingService.Valid, MeetingService.View, M.CloseRoom, Footprint;
      if room.closed {
        return;
      }
      ghost var w := service.View();
      Extend(w, M.Expire(room.id));
      service.ListedMade();
      room.CloseRoom(service);
      history := history + [M.Expire(room.id)];
      ReadersKept();
    }

    lemma Owned()
      requires Live()
      ensures {this, service, service.manager} <= Footprint()
      ensures service.conns.Values <= Footprint() && service.made <= Footprint()
      ensures forall c :: c in service.conns ==>
                service.Registered(service.conns[c]) && service.conns[c].reader.Repr() <= Footprint()
    {
      assert forall c :: c in service.conns ==> service.conns[c] in service.conns.Values;
      assert forall c :: c in service.conns ==> service.conns[c].reader in Readers();
    }

    /** Any handler at all, with any arguments. */
    method AnyHandler(parse: Parser)
      requires Live() && ReadersValid()
      modifies Footprint()
      ensures Live() && ReadersValid() && old(history) <= history
      ensures Extended()
    {
      hide Live, ReadersValid, Footprint, MessageReader.Repr, Connection.HandedOn, Connection.ReadOut;
      Owned();
      if {
        case true =>
          var _ := OnAccept();
        case service.conns != map[] =>
          var c :| c in service.conns;
          AnyOf(service.conns[c], parse);
        case service.made != {} =>
          var room :| room in service.made;
          OnTimer(room);
      }
    }

    /** Any handler of one connection. */
    method AnyOf(conn: Connection, parse: Parser)
      requires Live() && ReadersValid() && service.Registered(conn)
      modifies this`history, service, service.manager, service.conns.Values, service.made, conn.reader.Repr()
      ensures Live() && ReadersValid() && old(history) <= history
      ensures Extended()
    {
      hide Live, ReadersValid, Footprint, MessageReader.Repr, Connection.HandedOn, Connection.ReadOut;
      if {
        case true =>
          var message: seq<byte> := *;
          var _ := OnMessage(conn, message, parse);
        case true =>
          OnPeerClosed(conn);
        case true =>
          OnSocketLost(conn);
        case conn.inFlight == 1 =>
          OnWritten(conn);
        case conn.inFlight == 1 =>
          OnWriteFailed(conn);
      }
    }

    /** A whole life of the server: whatever the handlers are, it stays in states that the protocol reaches. */
    method Serve(steps: nat, parse: Parser)
      requires Live() && ReadersValid()
      modifies Footprint()
      ensures Live() && ReadersValid() && old(history) <= history
      ensures Extended()
    {
      hide Live, ReadersValid, Footprint;
      for i := 0 to steps
        invariant Live() && ReadersValid() && old(history) <= history
        invariant Extended()
      {
        AnyHandler(parse);
      }
    }
  }

  /** The whole life of a server from its start. */
  method Run(cfg: M.Config, steps: nat, parse: Parser) returns (server: Server)
    requires M.ValidConfig(cfg)
    ensures fresh(server) && server.service.cfg == cfg
    ensures server.Live() && server.ReadersValid() && MeetingRuns.Good(server.service.View(), cfg)
  {
    hide Server.Live, Server.ReadersValid, Server.Footprint, MeetingRuns.Good, MeetingService.View;
    server := new Server(cfg);
    server.Serve(steps, parse);
    server.LiveIsGood();
  }
}
