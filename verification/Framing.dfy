/** The internal stream `[uint32 big-endian length][JSON]` between a connection and the codec. */
module Framing {
  import opened Options
  import opened Bytes
  import opened Wire
  import opened ByteBuffer

  const LENGTH_PREFIX_SIZE: nat := 4

  /** What do_read appends for one WebSocket message; the cast keeps the low 32 bits of the size. */
  function Frame(message: seq<byte>): seq<byte> {
    ToBe(4, |message| % U32_SIZE) + message
  }

  function Frames(messages: seq<seq<byte>>): seq<byte> {
    if messages == [] then [] else Frame(messages[0]) + Frames(messages[1..])
  }

  datatype Cut = Incomplete | ZeroLength | Complete(body: seq<byte>, rest: seq<byte>)

  /** How the stream's head divides. */
  function CutFrame(s: seq<byte>): Cut {
    if |s| < LENGTH_PREFIX_SIZE then Incomplete
    else if ReadU32(s) == 0 then ZeroLength
    else if |s| < LENGTH_PREFIX_SIZE + ReadU32(s) then Incomplete
    else Complete(s[LENGTH_PREFIX_SIZE..LENGTH_PREFIX_SIZE + ReadU32(s)], s[LENGTH_PREFIX_SIZE + ReadU32(s)..])
  }

  predicate Framable(message: seq<byte>) {
    0 < |message| < U32_SIZE
  }

  /** A frame is cut back to its own message, leaving what follows, exactly for sizes 1 to 2^32 - 1. */
  lemma FrameRoundTrip(message: seq<byte>, rest: seq<byte>)
    ensures CutFrame(Frame(message) + rest) == Complete(message, rest) <==> Framable(message)
  {
    var size: u32 := |message| % U32_SIZE;
    var s := Frame(message) + rest;
    assert s == ToBe(4, size) + (message + rest);
    assert s[..4] == ToBe(4, size)[..4];
    ReadWrittenU32(size);
    if Framable(message) {
      assert s[4..4 + size] == message;
    }
  }

  /** An empty message's frame is no message but a zero length. */
  lemma EmptyFrame(rest: seq<byte>)
    ensures CutFrame(Frame([]) + rest) == ZeroLength
  {
    var s := Frame([]) + rest;
    assert s[..4] == ToBe(4, 0);
    assert ReadU32(ToBe(4, 0)) == ReadU32(s);
    ReadWrittenU32(0);
  }

  /** What the rest of a stream of these messages begins with. */
  lemma NextCut(messages: seq<seq<byte>>, n: nat)
    requires n <= |messages| && forall m :: m in messages ==> |m| < U32_SIZE
    ensures CutFrame(Frames(messages[n..]))
            == if n == |messages| then Incomplete
               else if messages[n] == [] then ZeroLength
               else Complete(messages[n], Frames(messages[n + 1..]))
    ensures n < |messages| ==> messages[..n + 1] == messages[..n] + [messages[n]]
  {
    if n < |messages| {
      assert messages[n..][1..] == messages[n + 1..];
      FrameRoundTrip(messages[n], Frames(messages[n + 1..]));
      EmptyFrame(Frames(messages[n + 1..]));
      assert messages[n] in messages;
    }
  }

  lemma CutShorter(s: seq<byte>)
    ensures CutFrame(s).Complete? ==> |CutFrame(s).rest| < |s|
  {
  }

  lemma {:induction false} FramesAppend(messages: seq<seq<byte>>, message: seq<byte>)
    ensures Frames(messages + [message]) == Frames(messages) + Frame(message)
  {
    if messages == [] {
      assert [message][1..] == [];
    } else {
      assert (messages + [message])[1..] == messages[1..] + [message];
      FramesAppend(messages[1..], message);
    }
  }

  datatype Decoded = Invalid | Ok(packet: Packet)

  /** A JSON parser as an unknown partial function on bytes; absent means it threw. */
  type Parser = seq<byte> -> Option<Document>

  function Interpret(parse: Parser, body: seq<byte>): Decoded {
    if parse(body).None? || FromDocument(parse(body).value).None? then Invalid
    else Ok(FromDocument(parse(body).value).value)
  }

  /** One call of try_decode: None is NeedMore, which leaves the buffer alone, as a zero length does. */
  method TryDecode(buffer: Buffer, parse: Parser) returns (r: Option<Decoded>)
    requires buffer.Valid()
    modifies buffer`readPos, buffer`consumed
    ensures buffer.Valid() && buffer.written == old(buffer.written)
    ensures match CutFrame(old(buffer.Contents()))
            case Incomplete => r == None && buffer.Contents() == old(buffer.Contents())
            case ZeroLength => r == Some(Invalid) && buffer.Contents() == old(buffer.Contents())
            case Complete(body, rest) => r == Some(Interpret(parse, body)) && buffer.Contents() == rest
  {
    if buffer.ReadableSize() < LENGTH_PREFIX_SIZE {
      return None;
    }
    var unread := buffer.data[buffer.readPos..buffer.writePos];
    var size := ReadU32(unread);
    if size == 0 {
      return Some(Invalid);
    }
    if buffer.ReadableSize() < LENGTH_PREFIX_SIZE + size {
      return None;
    }
    var document := parse(unread[LENGTH_PREFIX_SIZE..LENGTH_PREFIX_SIZE + size]);
    if document.None? || document.value.t.None? {
      buffer.MoveReadPos(LENGTH_PREFIX_SIZE + size);
      return Some(Invalid);
    }
    var packet := FromDocument(document.value).value;
    buffer.MoveReadPos(LENGTH_PREFIX_SIZE + size);
    return Some(Ok(packet));
  }

  /** The read side of a connection, with ghost histories of what came in and what was cut out. */
  class MessageReader {
    const buffer: Buffer
    ghost var appended: seq<seq<byte>>
    ghost var handed: seq<seq<byte>>

    ghost function Repr(): set<object>
      reads this, buffer
    {
      {this, buffer, buffer.data}
    }

    ghost predicate Framed()
      reads this`appended
    {
      forall m :: m in appended ==> |m| < U32_SIZE
    }

    /** The next message is empty, which the decoder refuses for good. */
    ghost predicate Stuck()
      reads this
    {
      |handed| < |appended| && appended[|handed|] == []
    }

    /** While no message is too long for its prefix, the buffer holds exactly the frames not yet handed over. */
    ghost predicate Valid()
      reads this, buffer, buffer.data
    {
      && buffer.Valid()
      && (Framed() ==>
            && handed <= appended
            && buffer.Contents() == Frames(appended[|handed|..]))
    }

    ghost function Unread(): nat
      requires Valid()
      reads this, buffer, buffer.data
    {
      |buffer.Contents()|
    }

    lemma HandedPrefix()
      requires Valid()
      ensures Framed() ==> handed <= appended
    {
    }

    constructor ()
      ensures Valid() && fresh(Repr()) && appended == [] && handed == []
    {
      buffer := new Buffer();
      appended, handed := [], [];
    }

    /** do_read's completion: prefix and message join the stream. */
    method Append(message: seq<byte>)
      requires Valid()
      modifies Repr()
      ensures Valid() && fresh(Repr() - old(Repr()))
      ensures appended == old(appended) + [message] && handed == old(handed)
      ensures buffer.Contents() == old(buffer.Contents()) + Frame(message)
    {
      ghost var before := buffer.Contents();
      buffer.Write(ToBe(4, |message| % U32_SIZE));
      buffer.Write(message);
      assert buffer.Contents() == before + Frame(message);
      ghost var was := appended;
      appended := appended + [message];
      if Framed() {
        assert forall m :: m in was ==> m in appended;
        assert appended[|handed|..] == was[|handed|..] + [message];
        FramesAppend(was[|handed|..], message);
      }
    }

    /** try_decode on this stream: the next message in order, or nothing when all have been handed over. */
    method Next(parse: Parser) returns (r: Option<Decoded>)
      requires Valid()
      modifies this`handed, buffer
      ensures Valid() && Repr() == old(Repr()) && appended == old(appended)
      ensures r.None? ==> buffer.Contents() == old(buffer.Contents()) && handed == old(handed)
      ensures r.Some? && r.value.Ok? ==> Unread() < old(Unread())
      ensures Framed() ==> old(handed) <= handed <= appended
      ensures Framed() && r.None? ==> handed == appended
      ensures Framed() && r.Some? ==>
                if old(Stuck()) then handed == old(handed) && r.value == Invalid
                else |handed| == |old(handed)| + 1 && r.value == Interpret(parse, handed[|handed| - 1])
    {
      hide CutFrame, Frames;
      ghost var cut := CutFrame(buffer.Contents());
      CutShorter(buffer.Contents());
      if Framed() {
        NextCut(appended, |handed|);
      }
      r := TryDecode(buffer, parse);
      if cut.Complete? {
        handed := handed + [cut.body];
      }
    }

    lemma NotStuck()
      requires forall m :: m in appended ==> Framable(m)
      ensures Framed() && !Stuck()
    {
      assert forall i :: 0 <= i < |appended| ==> appended[i] in appended;
    }

    lemma NothingUnread()
      requires Valid() && Framed() && handed == appended
      ensures buffer.Valid() && buffer.Contents() == []
    {
    }

    /** Draining the stream hands over every message appended so far, in order, and empties the buffer. */
    method Drain(parse: Parser) returns (out: seq<Decoded>)
      requires Valid() && forall m :: m in appended ==> Framable(m)
      modifies this`handed, buffer
      ensures Valid() && appended == old(appended) && handed == appended
      ensures buffer.Contents() == []
      ensures |out| == |appended| - |old(handed)|
      ensures forall i :: 0 <= i < |out| ==> out[i] == Interpret(parse, appended[|old(handed)| + i])
    {
      hide Framed, Stuck, Valid;
      out := [];
      NotStuck();
      var r := Next(parse);
      while r.Some?
        invariant Valid() && appended == old(appended) && Repr() == old(Repr())
        invariant |old(handed)| + |out| + (if r.Some? then 1 else 0) == |handed| <= |appended|
        invariant r.Some? ==> r == Some(Interpret(parse, appended[|old(handed)| + |out|]))
        invariant r.None? ==> |handed| == |appended|
        invariant forall i :: 0 <= i < |out| ==> out[i] == Interpret(parse, appended[|old(handed)| + i])
        decreases |appended| - |out|
      {
        NotStuck();
        out := out + [r.value];
        r := Next(parse);
      }
      NotStuck();
      HandedPrefix();
      NothingUnread();
    }
  }
}
