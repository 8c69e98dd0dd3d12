/** How the bytes of JSON objects may be cut into chunks for all of them to arrive. */
module ClientChunks {
  import opened Bytes
  import opened ClientReceive

  // Frames stuck together

  /** Bytes after a brace that no continuation turns into JSON. */
  ghost predicate Hopeless(text: seq<byte>, parse: JsonParser) {
    && Trimmed(text) != [] && Trimmed(text)[0] == BRACE
    && forall more :: parse(Trimmed(text + more)).Malformed?
  }

  /** After an object the parser takes nothing but blanks. */
  ghost predicate OneObject(parse: JsonParser) {
    forall x, y :: parse(x).Object? && Trimmed(y) != [] ==> parse(Trimmed(x + y)).Malformed?
  }

  lemma {:induction false} TrimLeftMore(s: seq<byte>, more: seq<byte>)
    requires TrimLeft(s) != []
    ensures TrimLeft(s + more) == TrimLeft(s) + more
  {
    if s != [] && Space(s[0]) {
      TrimLeftMore(s[1..], more);
      assert (s + more)[1..] == s[1..] + more;
    }
  }

  lemma {:induction false} TrimLeftBlank(s: seq<byte>, more: seq<byte>)
    requires TrimLeft(s) == []
    ensures TrimLeft(s + more) == TrimLeft(more)
  {
    if s == [] {
      assert s + more == more;
    } else {
      TrimLeftBlank(s[1..], more);
      assert (s + more)[1..] == s[1..] + more;
    }
  }

  lemma {:induction false} TrimLeftHead(s: seq<byte>)
    ensures TrimLeft(s) != [] ==> !Space(TrimLeft(s)[0])
    ensures TrimLeft(TrimLeft(s)) == TrimLeft(s)
  {
    if s != [] && Space(s[0]) {
      TrimLeftHead(s[1..]);
    }
  }

  /** Cutting blanks at the end cuts exactly a blank tail. */
  lemma {:induction false} TrimRightTail(s: seq<byte>) returns (tail: seq<byte>)
    ensures s == TrimRight(s) + tail && TrimLeft(tail) == []
    ensures s != [] && !Space(s[0]) ==> TrimRight(s) != [] && TrimRight(s)[0] == s[0]
  {
    if s != [] && Space(s[|s| - 1]) {
      var shorter := TrimRightTail(s[..|s| - 1]);
      tail := shorter + [s[|s| - 1]];
      TrimLeftBlank(shorter, [s[|s| - 1]]);
      assert s == TrimRight(s) + tail;
    } else {
      tail := [];
    }
  }

  lemma TrimmedHead(s: seq<byte>)
    ensures TrimLeft(s) != [] ==> Trimmed(s) != [] && Trimmed(s)[0] == TrimLeft(s)[0]
    ensures TrimLeft(s) == [] ==> Trimmed(s) == []
  {
    TrimLeftHead(s);
    var _ := TrimRightTail(TrimLeft(s));
  }

  /** A chunk that is an object followed by anything but blanks: trimmed, that is its object and the rest. */
  lemma TrimmedAfter(chunk: seq<byte>, more: seq<byte>) returns (rest: seq<byte>)
    requires Trimmed(chunk) != [] && TrimLeft(more) != []
    ensures Trimmed(chunk + more) == Trimmed(Trimmed(chunk) + rest) && Trimmed(rest) != []
  {
    TrimmedHead(chunk);
    TrimLeftHead(chunk);
    var tail := TrimRightTail(TrimLeft(chunk));
    rest := tail + more;
    TrimLeftMore(chunk, more);
    assert TrimLeft(chunk + more) == Trimmed(chunk) + rest;
    TrimLeftHead(chunk + more);
    TrimLeftBlank(tail, more);
    TrimmedHead(rest);
  }

  /** Two objects in one chunk are beyond repair. */
  lemma StuckIsHopeless(first: seq<byte>, second: seq<byte>, parse: JsonParser)
    requires OneObject(parse) && Whole(first, parse) && Trimmed(second) != []
    ensures Hopeless(first + second, parse)
  {
    TrimmedHead(first);
    TrimmedHead(second);
    TrimLeftMore(first, second);
    TrimmedHead(first + second);
    forall more
      ensures parse(Trimmed(first + second + more)).Malformed?
    {
      TrimLeftMore(second, more);
      var rest := TrimmedAfter(first, second + more);
      assert first + second + more == first + (second + more);
    }
  }

  /** What such a buffer makes of the next chunk. */
  lemma HopelessFed(buffer: seq<byte>, data: seq<byte>, parse: JsonParser)
    requires Hopeless(buffer, parse) && data != []
    ensures Hopeless(buffer + data, parse)
    ensures Fed(buffer, data, parse)
            == if |buffer| + |data| > MAX_BUFFER then Fed([], data, parse)
               else if |buffer| + |data| > MAX_INCOMPLETE then ([], [])
               else (buffer + data, [])
  {
    TrimmedHead(buffer);
    TrimLeftMore(buffer, data);
    TrimmedHead(buffer + data);
    forall more
      ensures parse(Trimmed(buffer + data + more)).Malformed?
    {
      assert buffer + data + more == buffer + (data + more);
    }
    assert buffer + data + [] == buffer + data;
  }

  lemma {:induction false} HopelessSwallows(buffer: seq<byte>, chunks: seq<seq<byte>>, parse: JsonParser)
    requires Hopeless(buffer, parse) && |buffer + Joint(chunks)| <= MAX_INCOMPLETE
    ensures FeedAll(buffer, chunks, parse) == (buffer + Joint(chunks), []) && Hopeless(buffer + Joint(chunks), parse)
  {
    if chunks == [] {
      assert buffer + Joint(chunks) == buffer;
    } else {
      hide Fed, Hopeless;
      var n := |chunks| - 1;
      HopelessSwallows(buffer, chunks[..n], parse);
      if chunks[n] == [] {
        FedNothing(buffer + Joint(chunks[..n]), parse);
        assert Joint(chunks) == Joint(chunks[..n]);
      } else {
        HopelessFed(buffer + Joint(chunks[..n]), chunks[n], parse);
      }
      assert buffer + Joint(chunks) == buffer + Joint(chunks[..n]) + chunks[n];
      assert FeedAll(buffer, chunks, parse).1 == [];
    }
  }

  lemma FedNothing(buffer: seq<byte>, parse: JsonParser)
    ensures Fed(buffer, [], parse) == (buffer, [])
  {
  }

  lemma {:induction false} FeedAllSplit(buffer: seq<byte>, first: seq<seq<byte>>, second: seq<seq<byte>>,
                                        parse: JsonParser)
    ensures var (middle, out) := FeedAll(buffer, first, parse);
            var (after, more) := FeedAll(middle, second, parse);
            FeedAll(buffer, first + second, parse) == (after, out + more)
    decreases |second|
  {
    hide Fed;
    if second == [] {
      assert first + second == first;
      assert FeedAll(buffer, first, parse).1 + [] == FeedAll(buffer, first, parse).1;
    } else {
      var n := |second| - 1;
      FeedAllSplit(buffer, first, second[..n], parse);
      assert (first + second)[..|first| + n] == first + second[..n];
      var (middle, out) := FeedAll(buffer, first, parse);
      var (before, more) := FeedAll(middle, second[..n], parse);
      var last := Fed(before, second[n], parse).1;
      assert out + more + last == out + (more + last);
    }
  }

  lemma FeedOne(buffer: seq<byte>, chunk: seq<byte>, parse: JsonParser)
    ensures FeedAll(buffer, [chunk], parse) == Fed(buffer, chunk, parse)
  {
    hide Fed;
    assert [chunk][..0] == [];
    assert FeedAll(buffer, [chunk][..0], parse) == (buffer, []);
    assert [] + Fed(buffer, chunk, parse).1 == Fed(buffer, chunk, parse).1;
  }

  /**
   Two objects in one chunk are never decoded, and neither is anything after them, whole objects or not, up to and
   including the chunk with which more than 1 MiB has come in; only then does the buffer start afresh.
  */
  lemma StuckFramesSwallow(first: seq<byte>, second: seq<byte>, chunks: seq<seq<byte>>, last: seq<byte>,
                           parse: JsonParser)
    requires OneObject(parse) && Whole(first, parse) && Whole(second, parse) && last != []
    requires var kept := |first + second + Joint(chunks)|; kept <= MAX_INCOMPLETE < kept + |last| <= MAX_BUFFER
    ensures FeedAll([], [first + second] + chunks, parse) == (first + second + Joint(chunks), [])
    ensures FeedAll([], [first + second] + chunks + [last], parse) == ([], [])
  {
    hide Hopeless, OneObject, Trimmed;
    var both := first + second;
    StuckIsHopeless(first, second, parse);
    FirstFed(both, parse);
    HopelessSwallows(both, chunks, parse);
    FeedOne([], both, parse);
    FeedAllSplit([], [both], chunks, parse);
    HopelessFed(both + Joint(chunks), last, parse);
    assert ([both] + chunks + [last])[..|[both] + chunks|] == [both] + chunks;
  }

  lemma FirstFed(text: seq<byte>, parse: JsonParser)
    requires Hopeless(text, parse) && |text| <= MAX_INCOMPLETE
    ensures text != [] && Fed([], text, parse) == (text, [])
  {
    TrimmedHead(text);
    assert [] + text == text && text + [] == text;
  }

  // Objects cut into chunks

  /** One object's own text, from brace to brace, of at most 1 MiB. */
  predicate Exact(text: seq<byte>, parse: JsonParser) {
    && text != [] && text[0] == BRACE && Trimmed(text) == text && |text| <= MAX_INCOMPLETE
    && parse(text).Object?
  }

  ghost predicate AllExact(objects: seq<seq<byte>>, parse: JsonParser) {
    forall i :: 0 <= i < |objects| ==> Exact(objects[i], parse)
  }

  /** A parser of JSON: one object a text, and nothing else starts with a brace. */
  ghost predicate JsonLike(parse: JsonParser) {
    OneObject(parse) && forall x :: x != [] && x[0] == BRACE ==> !parse(x).NotObject?
  }

  function Messages(objects: seq<seq<byte>>, parse: JsonParser): seq<ClientMessage> {
    if objects == [] then []
    else
      var n := |objects| - 1;
      var last := parse(objects[n]);
      Messages(objects[..n], parse) + if last.Object? then DecodeFrame(last.document) else []
  }

  /** Where the first k of these end. */
  function End(pieces: seq<seq<byte>>, k: nat): nat
    requires k <= |pieces|
  {
    |Joint(pieces[..k])|
  }

  /** Chunk k holds bytes of two objects. */
  ghost predicate Straddles(objects: seq<seq<byte>>, chunks: seq<seq<byte>>, k: nat)
    requires k < |chunks|
  {
    exists i :: 0 <= i <= |objects| && End(chunks, k) < End(objects, i) < End(chunks, k + 1)
  }

  lemma EndNext(pieces: seq<seq<byte>>, k: nat)
    requires k < |pieces|
    ensures Joint(pieces[..k + 1]) == Joint(pieces[..k]) + pieces[k]
    ensures End(pieces, k + 1) == End(pieces, k) + |pieces[k]|
  {
    assert pieces[..k + 1][..k] == pieces[..k];
  }

  lemma {:induction false} EndsGrow(pieces: seq<seq<byte>>, i: nat, k: nat)
    requires i <= k <= |pieces|
    ensures Joint(pieces[..i]) <= Joint(pieces[..k])
    decreases k
  {
    if i < k {
      EndsGrow(pieces, i, k - 1);
      EndNext(pieces, k - 1);
    }
  }

  /** The bytes between two places in the stream of these pieces. */
  lemma Between(pieces: seq<seq<byte>>, k: nat, stream: seq<byte>)
    requires k < |pieces| && Joint(pieces) == stream
    ensures End(pieces, k) <= End(pieces, k + 1) <= |stream|
    ensures stream[End(pieces, k)..End(pieces, k + 1)] == pieces[k]
  {
    hide Joint;
    EndNext(pieces, k);
    EndsGrow(pieces, k + 1, |pieces|);
    assert pieces[..|pieces|] == pieces;
    assert stream[..End(pieces, k + 1)] == Joint(pieces[..k]) + pieces[k];
  }

  // An object's beginning is kept

  lemma {:induction false} BlankAll(s: seq<byte>)
    requires TrimLeft(s) == []
    ensures forall i :: 0 <= i < |s| ==> Space(s[i])
  {
    if s != [] {
      BlankAll(s[1..]);
      assert forall i :: 0 < i < |s| ==> s[i] == s[1..][i - 1];
    }
  }

  lemma LastShows(s: seq<byte>)
    requires s != [] && !Space(s[|s| - 1])
    ensures TrimLeft(s) != []
  {
    if TrimLeft(s) == [] {
      BlankAll(s);
    }
  }

  lemma {:induction false} TrimRightShort(s: seq<byte>)
    ensures |TrimRight(s)| <= |s|
  {
    if s != [] && Space(s[|s| - 1]) {
      TrimRightShort(s[..|s| - 1]);
    }
  }

  lemma TrimRightLast(s: seq<byte>)
    requires s != [] && TrimRight(s) == s
    ensures !Space(s[|s| - 1])
  {
    TrimRightShort(s[..|s| - 1]);
  }

  lemma BeginningMalformed(whole: seq<byte>, m: nat, parse: JsonParser)
    requires JsonLike(parse) && Exact(whole, parse) && 0 < m < |whole|
    ensures var frame := Trimmed(whole[..m]); frame != [] && frame[0] == BRACE && parse(frame).Malformed?
  {
    var text, rest := whole[..m], whole[m..];
    TrimmedHead(text);
    TrimRightLast(whole);
    var frame := Trimmed(text);
    var tail := TrimRightTail(text);
    LastShows(tail + rest);
    TrimmedHead(tail + rest);
    assert whole == frame + (tail + rest);
    assert parse(frame).Object? ==> parse(Trimmed(frame + (tail + rest))).Malformed?;
  }

  /** One more chunk inside an object. */
  lemma FedInside(buffer: seq<byte>, data: seq<byte>, whole: seq<byte>, m: nat, parse: JsonParser)
    requires JsonLike(parse) && Exact(whole, parse) && m <= |whole| && data != []
    requires buffer + data == whole[..m]
    ensures Fed(buffer, data, parse)
            == if m < |whole| then (whole[..m], []) else ([], DecodeFrame(parse(whole).document))
  {
    hide Trimmed, DecodeFrame, JsonLike;
    assert |buffer| + |data| == m;
    if m < |whole| {
      BeginningMalformed(whole, m, parse);
    } else {
      assert whole[..m] == whole;
    }
  }

  /**
   As long as no chunk holds bytes of two objects, the objects that have ended have arrived, and what has come of
   the next one is kept.
  */
  lemma {:induction false} UpToHere(objects: seq<seq<byte>>, chunks: seq<seq<byte>>, k: nat, parse: JsonParser)
    returns (i: nat)
    requires JsonLike(parse) && AllExact(objects, parse) && Joint(chunks) == Joint(objects)
    requires k <= |chunks|
    requires forall j :: 0 <= j < k ==> !Straddles(objects, chunks, j)
    ensures i <= |objects| && End(objects, i) <= End(chunks, k) <= |Joint(objects)|
    ensures i < |objects| ==> End(chunks, k) < End(objects, i + 1)
    ensures FeedAll([], chunks[..k], parse)
            == (Joint(objects)[End(objects, i)..End(chunks, k)], Messages(objects[..i], parse))
  {
    i := 0;
    var stream := Joint(objects);
    if k == 0 {
      if objects != [] {
        EndNext(objects, 0);
      }
      assert stream[0..0] == [];
    } else {
      var j := k - 1;
      i := UpToHere(objects, chunks, j, parse);
      Between(chunks, j, stream);
      assert chunks[..k][..j] == chunks[..j];
      i := OneMoreChunk(objects, chunks, j, i, parse);
    }
  }

  lemma EndAll(pieces: seq<seq<byte>>)
    ensures End(pieces, |pieces|) == |Joint(pieces)|
  {
    assert pieces[..|pieces|] == pieces;
  }

  lemma Inside(stream: seq<byte>, start: nat, here: nat, next: nat, stop: nat)
    requires start <= here <= next <= stop <= |stream|
    ensures stream[start..here] + stream[here..next] == stream[start..next] == stream[start..stop][..next - start]
  {
  }

  lemma OneMoreChunk(objects: seq<seq<byte>>, chunks: seq<seq<byte>>, j: nat, i: nat, parse: JsonParser)
    returns (i': nat)
    requires JsonLike(parse) && AllExact(objects, parse) && Joint(chunks) == Joint(objects)
    requires j < |chunks| && !Straddles(objects, chunks, j)
    requires i <= |objects| && End(objects, i) <= End(chunks, j) <= End(chunks, j + 1) <= |Joint(objects)|
    requires i < |objects| ==> End(chunks, j) < End(objects, i + 1)
    requires FeedAll([], chunks[..j], parse)
             == (Joint(objects)[End(objects, i)..End(chunks, j)], Messages(objects[..i], parse))
    ensures i' <= |objects| && End(objects, i') <= End(chunks, j + 1)
    ensures i' < |objects| ==> End(chunks, j + 1) < End(objects, i' + 1)
    ensures FeedAll([], chunks[..j + 1], parse)
            == (Joint(objects)[End(objects, i')..End(chunks, j + 1)], Messages(objects[..i'], parse))
  {
    hide Exact, JsonLike, Fed, Messages, Joint, FeedAll;
    var stream := Joint(objects);
    var start, here, next := End(objects, i), End(chunks, j), End(chunks, j + 1);
    var kept := stream[start..here];
    Between(chunks, j, stream);
    EndAll(objects);
    FeedLast(chunks, j, parse);
    i' := i;
    var out := Messages(objects[..i], parse);
    assert out + [] == out;
    if chunks[j] == [] {
      FedNothing(kept, parse);
      assert here == next;
    } else {
      var whole := objects[i];
      Between(objects, i, stream);
      assert next <= End(objects, i + 1);
      var m := next - start;
      Inside(stream, start, here, next, End(objects, i + 1));
      assert Exact(whole, parse);
      FedInside(kept, chunks[j], whole, m, parse);
      if m == |whole| {
        i' := i + 1;
        MessagesNext(objects, i, parse);
        assert stream[End(objects, i')..next] == [];
        if i' < |objects| {
          NotEmpty(objects[i'], parse);
          EndNext(objects, i');
        }
      }
    }
  }

  lemma NotEmpty(whole: seq<byte>, parse: JsonParser)
    requires Exact(whole, parse)
    ensures whole != []
  {
  }

  lemma FeedLast(chunks: seq<seq<byte>>, j: nat, parse: JsonParser)
    requires j < |chunks|
    ensures var (buffer, out) := FeedAll([], chunks[..j], parse);
            var (after, more) := Fed(buffer, chunks[j], parse);
            FeedAll([], chunks[..j + 1], parse) == (after, out + more)
  {
    assert chunks[..j + 1][..j] == chunks[..j];
  }

  lemma MessagesNext(objects: seq<seq<byte>>, i: nat, parse: JsonParser)
    requires i < |objects| && Exact(objects[i], parse)
    ensures Messages(objects[..i + 1], parse)
            == Messages(objects[..i], parse) + DecodeFrame(parse(objects[i]).document)
  {
    assert objects[..i + 1][..i] == objects[..i];
  }

  // A chunk with bytes of two objects

  lemma FedTwo(buffer: seq<byte>, data: seq<byte>, whole: seq<byte>, more: seq<byte>, parse: JsonParser)
    requires OneObject(parse) && Exact(whole, parse) && more != [] && more[0] == BRACE && data != []
    requires buffer + data == whole + more && |whole + more| <= MAX_INCOMPLETE
    ensures Hopeless(whole + more, parse) && Fed(buffer, data, parse) == (whole + more, [])
  {
    hide OneObject;
    TrimmedHead(more);
    StuckIsHopeless(whole, more, parse);
    assert whole + more + [] == whole + more;
    assert |buffer| + |data| == |whole + more|;
  }

  /** Where the first chunk that straddles begins and ends. */
  lemma StraddledObject(objects: seq<seq<byte>>, chunks: seq<seq<byte>>, j: nat, i: nat, parse: JsonParser)
    requires AllExact(objects, parse) && Joint(chunks) == Joint(objects) && j < |chunks|
    requires Straddles(objects, chunks, j) && i <= |objects|
    requires End(objects, i) <= End(chunks, j) <= |Joint(objects)|
    requires i < |objects| ==> End(chunks, j) < End(objects, i + 1)
    ensures i + 1 < |objects| && End(chunks, j) < End(objects, i + 1) < End(chunks, j + 1) <= |Joint(objects)|
  {
    hide Exact;
    var here, next := End(chunks, j), End(chunks, j + 1);
    Between(chunks, j, Joint(objects));
    var e :| 0 <= e <= |objects| && here < End(objects, e) < next;
    if e <= i {
      EndsGrow(objects, e, i);
    }
    EndsGrow(objects, i + 1, e);
    EndAll(objects);
  }

  lemma Cuts(objects: seq<seq<byte>>, chunks: seq<seq<byte>>, j: nat, i: nat, parse: JsonParser)
    requires AllExact(objects, parse) && Joint(chunks) == Joint(objects) && j < |chunks| && i + 1 < |objects|
    requires End(objects, i) <= End(chunks, j) < End(objects, i + 1) < End(chunks, j + 1) <= |Joint(objects)|
    ensures var stream := Joint(objects);
            var more := stream[End(objects, i + 1)..End(chunks, j + 1)];
            && more != [] && more[0] == BRACE && chunks[j] != []
            && stream[End(objects, i)..End(chunks, j)] + chunks[j] == objects[i] + more
            && |objects[i] + more| == End(chunks, j + 1) - End(objects, i)
  {
    var stream := Joint(objects);
    Between(chunks, j, stream);
    Between(objects, i, stream);
    Between(objects, i + 1, stream);
    assert Exact(objects[i + 1], parse);
    CutValues(stream, End(objects, i), End(chunks, j), End(objects, i + 1), End(chunks, j + 1), End(objects, i + 2));
  }

  lemma CutValues(stream: seq<byte>, start: nat, here: nat, middle: nat, next: nat, last: nat)
    requires start <= here < middle < next <= |stream| && middle < last <= |stream|
    ensures stream[start..here] + stream[here..next] == stream[start..middle] + stream[middle..next]
    ensures stream[middle..next] != [] && stream[middle..next][0] == stream[middle..last][0]
  {
  }

  /** Nothing comes out after it, and the buffer does not empty. */
  lemma StraddleSticks(objects: seq<seq<byte>>, chunks: seq<seq<byte>>, j: nat, parse: JsonParser)
    requires JsonLike(parse) && AllExact(objects, parse) && Joint(chunks) == Joint(objects)
    requires |Joint(objects)| <= MAX_INCOMPLETE && j < |chunks| && Straddles(objects, chunks, j)
    requires forall k :: 0 <= k < j ==> !Straddles(objects, chunks, k)
    ensures FeedAll([], chunks, parse).0 != []
  {
    hide Exact, Fed, FeedAll, Messages, Hopeless, Straddles, OneObject;
    var stream := Joint(objects);
    var i := UpToHere(objects, chunks, j, parse);
    StraddledObject(objects, chunks, j, i, parse);
    Cuts(objects, chunks, j, i, parse);
    var more := stream[End(objects, i + 1)..End(chunks, j + 1)];
    assert Exact(objects[i], parse);
    FedTwo(stream[End(objects, i)..End(chunks, j)], chunks[j], objects[i], more, parse);
    FeedLast(chunks, j, parse);
    RestIs(chunks, j + 1);
    Remains(chunks, j + 1, objects[i] + more, parse);
  }

  lemma RestIs(pieces: seq<seq<byte>>, k: nat)
    requires k <= |pieces|
    ensures |Joint(pieces)| == End(pieces, k) + |Joint(pieces[k..])|
  {
    JointSplit(pieces[..k], pieces[k..]);
    assert pieces == pieces[..k] + pieces[k..];
  }

  lemma {:induction false} JointSplit(a: seq<seq<byte>>, b: seq<seq<byte>>)
    ensures Joint(a + b) == Joint(a) + Joint(b)
    decreases |b|
  {
    if b == [] {
      assert a + b == a;
    } else {
      var n := |b| - 1;
      JointSplit(a, b[..n]);
      assert (a + b)[..|a| + n] == a + b[..n];
    }
  }

  lemma Remains(chunks: seq<seq<byte>>, k: nat, text: seq<byte>, parse: JsonParser)
    requires k <= |chunks| && FeedAll([], chunks[..k], parse).0 == text && text != [] && Hopeless(text, parse)
    requires |text + Joint(chunks[k..])| <= MAX_INCOMPLETE
    ensures FeedAll([], chunks, parse).0 != []
  {
    hide Fed, Hopeless;
    HopelessSwallows(text, chunks[k..], parse);
    FeedAllSplit([], chunks[..k], chunks[k..], parse);
    assert chunks == chunks[..k] + chunks[k..];
  }

  ghost predicate NoneStraddles(objects: seq<seq<byte>>, chunks: seq<seq<byte>>) {
    forall k :: 0 <= k < |chunks| ==> !Straddles(objects, chunks, k)
  }

  /** Objects of any number arrive, in order and with nothing left behind, if no chunk holds bytes of two of them. */
  lemma AllArrive(objects: seq<seq<byte>>, chunks: seq<seq<byte>>, parse: JsonParser)
    requires JsonLike(parse) && AllExact(objects, parse) && Joint(chunks) == Joint(objects)
    requires NoneStraddles(objects, chunks)
    ensures FeedAll([], chunks, parse) == ([], Messages(objects, parse))
  {
    hide AllExact, JsonLike, FeedAll, Messages, Straddles;
    var i := UpToHere(objects, chunks, |chunks|, parse);
    EndAll(objects);
    EndAll(chunks);
    AllEnded(objects, i);
    assert chunks[..|chunks|] == chunks && objects[..|objects|] == objects;
  }

  /**
   And of up to 1 MiB of them they arrive only then; beyond that the buffer starts afresh in the middle of something.
  */
  lemma ObjectsArrive(objects: seq<seq<byte>>, chunks: seq<seq<byte>>, parse: JsonParser)
    requires JsonLike(parse) && AllExact(objects, parse) && Joint(chunks) == Joint(objects)
    requires |Joint(objects)| <= MAX_INCOMPLETE
    ensures FeedAll([], chunks, parse) == ([], Messages(objects, parse)) <==> NoneStraddles(objects, chunks)
  {
    hide AllExact, JsonLike, FeedAll, Messages, Straddles, Joint;
    if NoneStraddles(objects, chunks) {
      AllArrive(objects, chunks, parse);
    } else {
      var j := FirstStraddle(objects, chunks);
      StraddleSticks(objects, chunks, j, parse);
    }
  }

  lemma AllEnded(objects: seq<seq<byte>>, i: nat)
    requires i <= |objects| && (i < |objects| ==> End(objects, |objects|) < End(objects, i + 1))
    ensures i == |objects|
  {
    if i < |objects| {
      EndsGrow(objects, i + 1, |objects|);
    }
  }

  lemma FirstStraddle(objects: seq<seq<byte>>, chunks: seq<seq<byte>>) returns (j: nat)
    requires exists k :: 0 <= k < |chunks| && Straddles(objects, chunks, k)
    ensures j < |chunks| && Straddles(objects, chunks, j)
    ensures forall k :: 0 <= k < j ==> !Straddles(objects, chunks, k)
  {
    j := 0;
    while !Straddles(objects, chunks, j)
      invariant j < |chunks| && forall k :: 0 <= k < j ==> !Straddles(objects, chunks, k)
      decreases |chunks| - j
    {
      j := j + 1;
    }
  }
}
