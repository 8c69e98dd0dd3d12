/** The client's receiving end: reassembly of JSON frames and decoding of packets into messages. */
module ClientReceive {
  import opened Options
  import opened Bytes
  import opened Wire
  import opened Doubles

  // Decoding a packet

  datatype ClientMessage =
    | CreateResult(roomNo: u32)
    | JoinResult(verdict: JoinVerdict)
    | Partners(ids: seq<qint64>)
    | Text(userId: qint64, text: seq<byte>)
    | ProfileNotice(profile: Profile)
    | SettingsNotice(flags: u32)
    | Joined(userId: qint64)
    | Exited(userId: qint64)
    | CameraClosed(userId: qint64)

  /** decode_payload: absent for malformed profiles and for the kinds a client does not receive. */
  function DecodePayload(p: Packet): Option<ClientMessage> {
    var first := if |p.payload| >= 4 then ReadU32(p.payload) else 0;
    match p.kind
    case CreateMeetingResponse => Some(CreateResult(first))
    case JoinMeetingResponse => Some(JoinResult(ReadJoinReply(p.payload)))
    case PartnerJoin2 => Some(Partners(SignedIds(ReadIds(p.payload))))
    case TextRecv => Some(Text(ToSigned(p.userId), p.payload))
    case UserProfile =>
      var profile := DecodeUserProfile(p.payload, p.userId);
      if profile.None? then None else Some(ProfileNotice(profile.value))
    case RoomSettingsNotify => Some(SettingsNotice(first))
    case PartnerJoin => Some(Joined(ToSigned(p.userId)))
    case PartnerExit => Some(Exited(ToSigned(p.userId)))
    case CloseCamera => Some(CameraClosed(ToSigned(p.userId)))
    case _ => None
  }

  /** The packet as the client takes it out of its document. */
  function ClientPacket(d: Document): Option<Packet> {
    match FromDocument(d)
    case None => None
    case Some(packet) => Some(packet.(userId := Bits(CastI64(d.u))))
  }

  function DecodeFrame(document: Document): seq<ClientMessage> {
    var packet := ClientPacket(document);
    if packet.None? || DecodePayload(packet.value).None? then [] else [DecodePayload(packet.value).value]
  }

  // What the server sends, read by the client

  /** What the client makes of a packet the server sends, the document between them included. */
  function Read(p: Packet): (r: Option<ClientMessage>)
    ensures DecodeFrame(ToDocument(p)) == if r.None? then [] else [r.value]
  {
    Carried(p);
    DecodePayload(ClientPacket(ToDocument(p)).value)
  }

  lemma ReadAs(p: Packet)
    ensures Read(p) == DecodePayload(p.(userId := ClientReceived(p.userId)))
  {
    hide FromDocument, DecodePayload;
    Carried(p);
  }

  /** The sender's id only replaces the embedded one. */
  lemma OtherSender(body: seq<byte>, a: u64, b: u64)
    requires a == 0 <==> b == 0
    ensures match DecodeUserProfile(body, a)
            case None => DecodeUserProfile(body, b) == None
            case Some(p) => DecodeUserProfile(body, b) == Some(if b != 0 then p.(userId := b) else p)
  {
  }

  /** The client ends up with a cached profile exactly when its lengths fit 16 bits and it can read its id. */
  lemma ProfileRead(p: Profile)
    ensures Read(Packet(UserProfile, p.userId, ProfilePayload(p))) == Some(ProfileNotice(p))
            <==> |p.name| < 0x1_0000 && |p.avatar| < 0x1_0000 && Readable(p.userId)
  {
    hide Read, ClientReceived, Readable, ProfilePayload, DecodeUserProfile;
    ReadAs(Packet(UserProfile, p.userId, ProfilePayload(p)));
    ClientReceivedExact(p.userId);
    ProfileRoundTrip(p);
    OtherSender(ProfilePayload(p), p.userId, ClientReceived(p.userId));
  }

  // Reassembling frames

  /** What the JSON parser makes of some bytes. */
  datatype Json = Malformed | NotObject | Object(document: Document)

  type JsonParser = seq<byte> -> Json

  const MAX_BUFFER: nat := 4 * 1024 * 1024
  const MAX_INCOMPLETE: nat := 1024 * 1024
  const BRACE: byte := 123

  predicate Space(b: byte) {
    b == 32 || 9 <= b <= 13
  }

  function TrimLeft(s: seq<byte>): seq<byte> {
    if s != [] && Space(s[0]) then TrimLeft(s[1..]) else s
  }

  function TrimRight(s: seq<byte>): seq<byte> {
    if s != [] && Space(s[|s| - 1]) then TrimRight(s[..|s| - 1]) else s
  }

  function Trimmed(s: seq<byte>): seq<byte> {
    TrimRight(TrimLeft(s))
  }

  /** The buffer and the messages after one chunk has come in. */
  function Fed(buffer: seq<byte>, data: seq<byte>, parse: JsonParser): (seq<byte>, seq<ClientMessage>) {
    if data == [] then (buffer, [])
    else
      var b := (if |buffer| + |data| > MAX_BUFFER then [] else buffer) + data;
      var frame := Trimmed(b);
      if frame == [] then (b, [])
      else if frame[0] != BRACE then ([], [])
      else
        match parse(frame)
        case Malformed => (if |b| > MAX_INCOMPLETE then [] else b, [])
        case NotObject => ([], [])
        case Object(document) => ([], DecodeFrame(document))
  }

  function FeedAll(buffer: seq<byte>, chunks: seq<seq<byte>>, parse: JsonParser): (seq<byte>, seq<ClientMessage>) {
    if chunks == [] then (buffer, [])
    else
      var n := |chunks| - 1;
      var (before, out) := FeedAll(buffer, chunks[..n], parse);
      var (after, more) := Fed(before, chunks[n], parse);
      (after, out + more)
  }

  class WireStreamParser {
    var buffer: seq<byte>

    constructor ()
      ensures buffer == []
    {
      buffer := [];
    }

    method Reset()
      modifies this
      ensures buffer == []
    {
      buffer := [];
    }

    method Feed(data: seq<byte>, parse: JsonParser) returns (out: seq<ClientMessage>)
      modifies this
      ensures (buffer, out) == Fed(old(buffer), data, parse)
    {
      out := [];
      if data == [] {
        return;
      }
      if |buffer| + |data| > MAX_BUFFER {
        buffer := [];
      }
      buffer := buffer + data;
      var frame := Trimmed(buffer);
      if frame == [] {
        return;
      }
      if frame[0] != BRACE {
        buffer := [];
        return;
      }
      var document := parse(frame);
      if document.Malformed? {
        if |buffer| > MAX_INCOMPLETE {
          buffer := [];
        }
        return;
      }
      buffer := [];
      if document.Object? {
        out := DecodeFrame(document.document);
      }
    }
  }

  /** A chunk that is one JSON object, blanks around it allowed. */
  predicate Whole(chunk: seq<byte>, parse: JsonParser) {
    var frame := Trimmed(chunk);
    frame != [] && frame[0] == BRACE && parse(frame).Object?
  }

  function Contents(chunks: seq<seq<byte>>, parse: JsonParser): seq<ClientMessage>
    requires forall chunk :: chunk in chunks ==> Whole(chunk, parse)
  {
    if chunks == [] then []
    else
      var n := |chunks| - 1;
      assert Whole(chunks[n], parse);
      Contents(chunks[..n], parse) + DecodeFrame(parse(Trimmed(chunks[n])).document)
  }

  /** Whole objects come out one by one, in order, each from its own bytes, and nothing stays behind. */
  lemma {:induction false} WholeFramesArrive(chunks: seq<seq<byte>>, parse: JsonParser)
    requires forall chunk :: chunk in chunks ==> Whole(chunk, parse)
    ensures FeedAll([], chunks, parse) == ([], Contents(chunks, parse))
  {
    if chunks != [] {
      hide Trimmed, DecodeFrame;
      var n := |chunks| - 1;
      WholeFramesArrive(chunks[..n], parse);
      TrimmedEmpty();
      assert Whole(chunks[n], parse) && [] + chunks[n] == chunks[n];
      assert Fed([], chunks[n], parse) == ([], DecodeFrame(parse(Trimmed(chunks[n])).document));
    }
  }

  lemma TrimmedEmpty()
    ensures Trimmed([]) == []
  {
  }

  function Joint(pieces: seq<seq<byte>>): seq<byte> {
    if pieces == [] then [] else Joint(pieces[..|pieces| - 1]) + pieces[|pieces| - 1]
  }

  /** Blanks, or bytes after a brace that do not parse, be it yet or ever, and short enough to be kept. */
  predicate Partial(text: seq<byte>, parse: JsonParser) {
    |text| <= MAX_INCOMPLETE && (Trimmed(text) == [] || (Trimmed(text)[0] == BRACE && parse(Trimmed(text)).Malformed?))
  }

  /** An object split into pieces is kept until its last piece and then comes out whole. */
  lemma {:induction false} PiecesAreKept(pieces: seq<seq<byte>>, parse: JsonParser)
    requires forall k :: 0 <= k <= |pieces| ==> Partial(Joint(pieces[..k]), parse)
    ensures FeedAll([], pieces, parse) == (Joint(pieces), [])
  {
    hide Trimmed;
    if pieces != [] {
      var n := |pieces| - 1;
      forall k | 0 <= k <= n
        ensures pieces[..n][..k] == pieces[..k]
      {
      }
      PiecesAreKept(pieces[..n], parse);
      assert pieces[..n + 1] == pieces;
      assert Partial(Joint(pieces), parse);
      assert Joint(pieces[..n]) + [] == Joint(pieces[..n]);
      assert Fed(Joint(pieces[..n]), pieces[n], parse) == (Joint(pieces), []);
    }
  }

  lemma SplitFrameArrives(pieces: seq<seq<byte>>, last: seq<byte>, parse: JsonParser)
    requires forall k :: 0 <= k <= |pieces| ==> Partial(Joint(pieces[..k]), parse)
    requires last != [] && |Joint(pieces + [last])| <= MAX_BUFFER && Whole(Joint(pieces + [last]), parse)
    ensures FeedAll([], pieces + [last], parse) == ([], DecodeFrame(parse(Trimmed(Joint(pieces + [last]))).document))
  {
    hide Trimmed, DecodeFrame;
    PiecesAreKept(pieces, parse);
    assert (pieces + [last])[..|pieces|] == pieces;
    var frame := Trimmed(Joint(pieces + [last]));
    var out := DecodeFrame(parse(frame).document);
    assert Fed(Joint(pieces), last, parse) == ([], out);
    assert [] + out == out;
  }

  /** Kept bytes: blanks, or up to the limit bytes after a brace that do not parse. */
  predicate Kept(buffer: seq<byte>, parse: JsonParser) {
    Trimmed(buffer) == [] || Partial(buffer, parse)
  }

  lemma FedKeeps(buffer: seq<byte>, data: seq<byte>, parse: JsonParser)
    requires Kept(buffer, parse)
    ensures Kept(Fed(buffer, data, parse).0, parse)
    ensures data != [] && Fed(buffer, data, parse).1 != [] ==> Fed(buffer, data, parse).0 == []
  {
    hide Trimmed;
    TrimmedEmpty();
  }

  /** Whatever has come in, nothing else is ever kept. */
  lemma {:induction false} EveryBufferKept(chunks: seq<seq<byte>>, parse: JsonParser)
    ensures Kept(FeedAll([], chunks, parse).0, parse)
  {
    hide Trimmed, Fed, Kept;
    if chunks == [] {
      NothingKept(parse);
    } else {
      var n := |chunks| - 1;
      EveryBufferKept(chunks[..n], parse);
      FedKeeps(FeedAll([], chunks[..n], parse).0, chunks[n], parse);
    }
  }

  lemma NothingKept(parse: JsonParser)
    ensures Kept([], parse)
  {
    TrimmedEmpty();
  }

  /** A chunk that would take the buffer over 4 MiB is read as if it were the first. */
  lemma OverflowForgets(buffer: seq<byte>, data: seq<byte>, parse: JsonParser)
    requires data != [] && |buffer| + |data| > 4 * 1024 * 1024
    ensures Fed(buffer, data, parse) == Fed([], data, parse)
  {
    assert [] + data == data;
  }
}
