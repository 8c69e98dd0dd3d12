/** Packets, the payload layouts both ends agree on, and the JSON document that carries a packet. */
module Wire {
  import opened Options
  import opened Bytes
  import Base64
  import opened Doubles

  datatype MessageType =
    | ImgSend | ImgRecv | AudioSend | AudioRecv | TextSend | TextRecv
    | CreateMeeting | ExitMeeting | JoinMeeting | CloseCamera | RoomSettings
    | CreateMeetingResponse | PartnerExit | PartnerJoin | JoinMeetingResponse | PartnerJoin2
    | UserProfile | RoomSettingsNotify

  datatype Packet = Packet(kind: MessageType, userId: u64, payload: seq<byte>)

  const SETTINGS_ALLOW_RECORD: u32 := 1
  const SETTINGS_ALLOW_MEMBER_SHARE: u32 := 2
  const SETTINGS_DEFAULT: u32 := SETTINGS_ALLOW_RECORD + SETTINGS_ALLOW_MEMBER_SHARE

  // 32-bit fields

  function ReadU32(payload: seq<byte>): (v: u32)
    requires |payload| >= 4
  {
    FromBeBound(payload[..4]);
    Pow256Values();
    FromBe(payload[..4])
  }

  lemma ReadWrittenU32(v: u32)
    ensures ReadU32(ToBe(4, v)) == v
  {
    Pow256Values();
    FromToBe(4, v);
    assert ToBe(4, v)[..4] == ToBe(4, v);
  }

  lemma ReadsBigEndian(payload: seq<byte>)
    requires |payload| >= 4
    ensures BigEndian(payload[..4], ReadU32(payload))
  {
    BigEndianRead(payload[..4]);
  }

  lemma WritesBigEndian(v: u32)
    ensures BigEndian(ToBe(4, v), v)
  {
    ReadWrittenU32(v);
    ReadsBigEndian(ToBe(4, v));
    assert ToBe(4, v)[..4] == ToBe(4, v);
  }

  // Id lists (PartnerJoin2)

  type qint64 = x: int | -0x8000_0000_0000_0000 <= x < 0x8000_0000_0000_0000

  /** The client's cast of a 64-bit id to its signed type. */
  function ToSigned(v: u64): (q: qint64) {
    if v < 0x8000_0000_0000_0000 then v else v - U64_SIZE
  }

  function ToSigned32(v: u32): (q: int)
    ensures -0x8000_0000 <= q < 0x8000_0000
  {
    if v < 0x8000_0000 then v else v - U32_SIZE
  }

  function ReadU64(s: seq<byte>): (v: u64)
    requires |s| >= 8
  {
    FromBeBound(s[..8]);
    Pow256Values();
    FromBe(s[..8])
  }

  /** The payload the server writes: eight bytes an id. */
  function IdList(ids: seq<u64>): seq<byte> {
    if ids == [] then [] else ToBe(8, ids[0]) + IdList(ids[1..])
  }

  /** Whole eight-byte groups from the front; a shorter rest is ignored. */
  function ReadIds(body: seq<byte>): seq<u64> {
    if |body| < 8 then [] else [ReadU64(body)] + ReadIds(body[8..])
  }

  lemma {:induction false} IdListRoundTrip(ids: seq<u64>, rest: seq<byte>)
    requires |rest| < 8
    ensures ReadIds(IdList(ids) + rest) == ids
  {
    if ids == [] {
      assert IdList(ids) + rest == rest;
    } else {
      var head := ToBe(8, ids[0]);
      var body := IdList(ids) + rest;
      assert body == head + (IdList(ids[1..]) + rest);
      assert body[..8] == head && body[8..] == IdList(ids[1..]) + rest;
      Pow256Values();
      FromToBe(8, ids[0]);
      IdListRoundTrip(ids[1..], rest);
    }
  }

  /** Nothing is lost of a list of whole groups. */
  lemma {:induction false} ListIdRoundTrip(body: seq<byte>)
    requires |body| % 8 == 0
    ensures IdList(ReadIds(body)) == body
  {
    if |body| >= 8 {
      ListIdRoundTrip(body[8..]);
      ToFromBe(body[..8]);
      assert body == body[..8] + body[8..];
    }
  }

  lemma {:induction false} IdListSize(ids: seq<u64>)
    ensures |IdList(ids)| == 8 * |ids|
  {
    if ids != [] {
      IdListSize(ids[1..]);
    }
  }

  lemma {:induction false} IdListAppend(ids: seq<u64>, id: u64)
    ensures IdList(ids + [id]) == IdList(ids) + ToBe(8, id)
  {
    if ids == [] {
      assert [id][1..] == [];
    } else {
      assert (ids + [id])[1..] == ids[1..] + [id];
      IdListAppend(ids[1..], id);
    }
  }

  lemma {:induction false} ReadIdsAt(body: seq<byte>, k: nat)
    requires 8 * k + 8 <= |body|
    ensures |ReadIds(body)| == |body| / 8
    ensures ReadIds(body)[k] == ReadU64(body[8 * k..])
  {
    ReadIdsLength(body);
    if k > 0 {
      ReadIdsAt(body[8..], k - 1);
      assert body[8..][8 * (k - 1)..] == body[8 * k..];
    } else {
      assert body[0..] == body;
    }
  }

  lemma {:induction false} ReadIdsLength(body: seq<byte>)
    ensures |ReadIds(body)| == |body| / 8
  {
    if |body| >= 8 {
      ReadIdsLength(body[8..]);
    }
  }

  function SignedIds(ids: seq<u64>): (r: seq<qint64>)
    ensures |r| == |ids|
    ensures forall k :: 0 <= k < |r| ==> r[k] == ToSigned(ids[k])
  {
    if ids == [] then [] else SignedIds(ids[..|ids| - 1]) + [ToSigned(ids[|ids| - 1])]
  }

  /** The client's stride-eight loop. */
  method DecodePartnerJoin2(body: seq<byte>) returns (ids: seq<qint64>)
    ensures ids == SignedIds(ReadIds(body))
  {
    ids := [];
    var offset := 0;
    while offset + 8 <= |body|
      invariant 0 <= offset <= |body| && offset == 8 * |ids|
      invariant |ids| <= |ReadIds(body)|
      invariant forall k :: 0 <= k < |ids| ==> ids[k] == ToSigned(ReadIds(body)[k])
    {
      ReadIdsAt(body, |ids|);
      ids := ids + [ToSigned(ReadU64(body[offset..]))];
      offset := offset + 8;
    }
    ReadIdsLength(body);
  }

  // Profiles

  datatype Profile = Profile(userId: u64, name: seq<byte>, avatar: seq<byte>)

  /** A length-prefixed string; the 16-bit cast drops the high bits of the length. */
  function LengthPrefixed(s: seq<byte>): seq<byte> {
    ToBe(2, |s| % 0x1_0000) + s
  }

  /** The payload both ends write for a profile. */
  function ProfilePayload(p: Profile): seq<byte> {
    ToBe(8, p.userId) + LengthPrefixed(p.name) + LengthPrefixed(p.avatar)
  }

  function ReadU16(s: seq<byte>): u16
    requires |s| >= 2
  {
    s[0] as int * 0x100 + s[1] as int
  }

  /** What the server caches from a profile payload: nothing, id and name, or all three. */
  function ApplyProfile(old': Profile, payload: seq<byte>): (p: Profile)
    ensures |old'.name| < 0x1_0000 ==> |p.name| < 0x1_0000
    ensures |old'.avatar| < 0x1_0000 ==> |p.avatar| < 0x1_0000
  {
    if |payload| < 12 then old'
    else
      var nameLen := ReadU16(payload[8..]);
      if 10 + nameLen + 2 > |payload| then old'
      else
        var offset := 10 + nameLen;
        var avatarLen := ReadU16(payload[offset..]);
        var named := Profile(ReadU64(payload), payload[10..offset], old'.avatar);
        if offset + 2 + avatarLen <= |payload|
        then named.(avatar := payload[offset + 2..offset + 2 + avatarLen])
        else named
  }

  /** The id a profile payload makes the server adopt, if it adopts one. */
  function AdoptedId(payload: seq<byte>): Option<u64> {
    if |payload| >= 12 && 12 + ReadU16(payload[8..]) <= |payload| then Some(ReadU64(payload)) else None
  }

  /** The client's decoder: all or nothing; a non-zero packet user id wins over the embedded one. */
  function DecodeUserProfile(body: seq<byte>, senderUserId: u64): Option<Profile> {
    if |body| < 12 then None
    else
      var nameLen := ReadU16(body[8..]);
      if 10 + nameLen + 2 > |body| then None
      else
        var offset := 10 + nameLen;
        var avatarLen := ReadU16(body[offset..]);
        if offset + 2 + avatarLen > |body| then None
        else Some(Profile(if senderUserId != 0 then senderUserId else ReadU64(body),
                          body[10..offset], body[offset + 2..offset + 2 + avatarLen]))
  }

  lemma ReadWrittenU16(v: u16, rest: seq<byte>)
    ensures ReadU16(ToBe(2, v) + rest) == v
  {
    assert ToBe(2, v) == ToBe(1, v / 256) + [v % 256];
    assert ToBe(1, v / 256) == [v / 256 % 256];
  }

  lemma ProfileLayout(p: Profile)
    requires |p.name| < 0x1_0000 && |p.avatar| < 0x1_0000
    ensures var s := ProfilePayload(p);
            var offset := 10 + |p.name|;
            && |s| == offset + 2 + |p.avatar|
            && ReadU64(s) == p.userId
            && ReadU16(s[8..]) == |p.name| && s[10..offset] == p.name
            && ReadU16(s[offset..]) == |p.avatar| && s[offset + 2..] == p.avatar
  {
    var s := ProfilePayload(p);
    var id, n, a := ToBe(8, p.userId), ToBe(2, |p.name|), ToBe(2, |p.avatar|);
    Pow256Values();
    FromToBe(8, p.userId);
    assert s[..8] == id;
    assert s[8..] == n + (p.name + LengthPrefixed(p.avatar));
    ReadWrittenU16(|p.name|, p.name + LengthPrefixed(p.avatar));
    assert s[10 + |p.name|..] == a + p.avatar;
    ReadWrittenU16(|p.avatar|, p.avatar);
  }

  /** The client reads back exactly what was written precisely when both lengths fit 16 bits. */
  lemma ProfileRoundTrip(p: Profile)
    ensures DecodeUserProfile(ProfilePayload(p), p.userId) == Some(p)
            <==> |p.name| < 0x1_0000 && |p.avatar| < 0x1_0000
  {
    if |p.name| < 0x1_0000 && |p.avatar| < 0x1_0000 {
      ProfileLayout(p);
      var s, offset := ProfilePayload(p), 10 + |p.name|;
      assert s[offset + 2..offset + 2 + |p.avatar|] == s[offset + 2..];
    }
  }

  /** The server caches exactly what a client wrote, under the same condition. */
  lemma ProfileCached(old': Profile, p: Profile)
    requires |p.name| < 0x1_0000 && |p.avatar| < 0x1_0000
    ensures ApplyProfile(old', ProfilePayload(p)) == p
    ensures AdoptedId(ProfilePayload(p)) == Some(p.userId)
  {
    ProfileLayout(p);
  }

  /** A profile cut short leaves the cached one alone until id and name are whole, and the avatar until it is. */
  lemma TruncatedProfile(old': Profile, p: Profile, k: nat)
    requires |p.name| < 0x1_0000 && |p.avatar| < 0x1_0000 && k <= |ProfilePayload(p)|
    ensures |ProfilePayload(p)| == 12 + |p.name| + |p.avatar|
    ensures ApplyProfile(old', ProfilePayload(p)[..k])
            == if k < 12 + |p.name| then old'
               else if k < 12 + |p.name| + |p.avatar| then Profile(p.userId, p.name, old'.avatar)
               else p
  {
    ProfileLayout(p);
    hide ProfilePayload;
    var s := ProfilePayload(p);
    var cut := s[..k];
    if k >= 12 {
      assert cut[8..][..2] == s[8..][..2];
      if k >= 12 + |p.name| {
        var offset := 10 + |p.name|;
        assert cut[..8] == s[..8] && cut[10..offset] == s[10..offset];
        assert cut[offset..][..2] == s[offset..][..2];
        if k == |s| {
          assert cut == s && s[offset + 2..offset + 2 + |p.avatar|] == s[offset + 2..];
        }
      }
    }
  }

  lemma AdoptedIdMeaning(old': Profile, payload: seq<byte>)
    ensures ApplyProfile(old', payload).userId
            == (if AdoptedId(payload).Some? then AdoptedId(payload).value else old'.userId)
  {
  }

  // The JSON document around a packet

  /** A parsed JSON object: t is None when absent or not one of the type names, u is 0 when absent. */
  datatype Document = Document(t: Option<MessageType>, u: real, s: Option<seq<byte>>, p: Option<seq<byte>>)

  predicate IsTextType(kind: MessageType) {
    kind == TextSend || kind == TextRecv
  }

  function ToDocument(packet: Packet): Document {
    var u := ToDouble(packet.userId) as real;
    if IsTextType(packet.kind) then Document(Some(packet.kind), u, Some(packet.payload), None)
    else if packet.payload != [] then Document(Some(packet.kind), u, None, Some(Base64.Encode(packet.payload)))
    else Document(Some(packet.kind), u, None, None)
  }

  function FromDocument(d: Document): Option<Packet> {
    if d.t.None? then None
    else if d.s.Some? then Some(Packet(d.t.value, CastU64(d.u), d.s.value))
    else if d.p.Some? then Some(Packet(d.t.value, CastU64(d.u), Base64.Decode(d.p.value)))
    else Some(Packet(d.t.value, CastU64(d.u), []))
  }

  lemma Carried(packet: Packet)
    ensures FromDocument(ToDocument(packet)) == Some(packet.(userId := Received(packet.userId)))
  {
    Base64.RoundTrip(packet.payload);
  }

  /** A packet survives the document that carries it exactly when its user id fits a double's 53 bits. */
  lemma PacketRoundTrip(packet: Packet)
    ensures FromDocument(ToDocument(packet)) == Some(packet) <==> Representable(packet.userId)
  {
    hide ToDocument, FromDocument, Received;
    Carried(packet);
    ReceivedExact(packet.userId);
  }

  /** The first id that does not. */
  lemma FirstRounded(payload: seq<byte>)
    ensures var packet := Packet(TextSend, TWO_53 + 1, payload);
            FromDocument(ToDocument(packet)) == Some(packet.(userId := TWO_53))
    ensures forall v :: 0 <= v <= TWO_53 ==> Representable(v)
  {
    assert Spacing(TWO_53 / 2) == 1;
  }

  /** Whatever a first trip did to the user id, further trips leave it alone, unless rounding left the 64 bits. */
  lemma SecondTripExact(packet: Packet)
    requires ToDouble(packet.userId) < U64_SIZE
    ensures var once := FromDocument(ToDocument(packet)).value;
            once.userId == ToDouble(packet.userId) && FromDocument(ToDocument(once)) == Some(once)
  {
    hide ToDocument, FromDocument, ToDouble, Representable;
    Carried(packet);
    DoubleAgain(packet.userId);
    PacketRoundTrip(FromDocument(ToDocument(packet)).value);
  }

  // The answer to a join

  /** What the client makes of the response code; a negative code other than -1 is passed over in silence. */
  datatype JoinVerdict = NoSuchRoom | RoomFull | Welcome | Ignored

  function ReadJoinReply(body: seq<byte>): JoinVerdict {
    var code := if |body| >= 4 then ToSigned32(ReadU32(body)) else 0;
    if code == 0 then NoSuchRoom else if code == -1 then RoomFull else if code > 0 then Welcome else Ignored
  }

  /** The client takes a room number for success exactly below 2^31, and reads the two refusals as meant. */
  lemma JoinReplyRead(room: u32)
    ensures ReadJoinReply(ToBe(4, room)) == Welcome <==> 0 < room < 0x8000_0000
    ensures ReadJoinReply(ToBe(4, 0)) == NoSuchRoom && ReadJoinReply(ToBe(4, 0xFFFF_FFFF)) == RoomFull
  {
    ReadWrittenU32(room);
    ReadWrittenU32(0);
    ReadWrittenU32(0xFFFF_FFFF);
  }
}
