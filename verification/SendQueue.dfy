/** The client's bounded two-level send queue. */
module SendQueue {
  import opened Options

  const QUEUE_MAXSIZE: nat := 1500
  const CLEAR_ATTEMPTS: nat := 8
  const PRIORITY_COUNT: nat := 2

  datatype MessageKind =
    | CreateMeeting | JoinMeeting | ExitMeeting | CloseCamera | SendText | SendUserProfile | RoomSettings

  /** A message object, by identity. */
  datatype Message = Message(id: nat, kind: MessageKind) {
    /** Its send_priority: 0 is Control, 1 is Text. */
    function Priority(): (p: nat)
      ensures p < PRIORITY_COUNT
    {
      if kind == SendText then 1 else 0
    }
  }

  /** The newest n elements. */
  function Newest<T>(s: seq<T>, n: nat): (r: seq<T>)
    ensures |r| == if |s| < n then |s| else n
  {
    if |s| <= n then s else s[|s| - n..]
  }

  /** The queue's contents as a value. */
  datatype Queue = Queue(control: seq<Message>, text: seq<Message>) {
    function Bucket(p: nat): seq<Message> {
      if p == 0 then control else text
    }

    /** The message goes to the back of its bucket, whose oldest messages give way. */
    function Push(m: Message): Queue {
      if m.Priority() == 0 then this.(control := Newest(control + [m], QUEUE_MAXSIZE))
      else this.(text := Newest(text + [m], QUEUE_MAXSIZE))
    }

    /** Control messages first. */
    function Head(): Option<Message> {
      if control != [] then Some(control[0]) else if text != [] then Some(text[0]) else None
    }

    function Tail(): Queue {
      if control != [] then this.(control := control[1..])
      else if text != [] then this.(text := text[1..]) else this
    }
  }

  const EMPTY_QUEUE: Queue := Queue([], [])

  /** Positions in increasing order, all before a bound. */
  predicate IncreasingBelow(positions: seq<nat>, bound: nat) {
    && (forall i, j :: 0 <= i < j < |positions| ==> positions[i] < positions[j])
    && forall i :: 0 <= i < |positions| ==> positions[i] < bound
  }

  /**
   A bucket holds the newest messages of its own push history, at most QUEUE_MAXSIZE of them, and what pop
   returned are older entries of that history, in order.
  */
  ghost predicate BucketOk(p: nat, bucket: seq<Message>, pushed: seq<Message>, popped: seq<nat>) {
    && (forall m :: m in pushed ==> m.Priority() == p)
    && |bucket| <= QUEUE_MAXSIZE && |bucket| <= |pushed|
    && bucket == pushed[|pushed| - |bucket|..]
    && IncreasingBelow(popped, |pushed| - |bucket|)
  }

  /** push_bounded: evicts from the front until there is room. */
  method PushBounded(bucket: seq<Message>, m: Message, maxSize: nat) returns (r: seq<Message>)
    ensures r == if maxSize == 0 then bucket else Newest(bucket + [m], maxSize)
  {
    if maxSize == 0 {
      return bucket;
    }
    r := bucket;
    while |r| >= maxSize
      invariant |r| <= |bucket| && r == bucket[|bucket| - |r|..] && (|r| >= maxSize - 1 || r == bucket)
    {
      r := r[1..];
    }
    r := r + [m];
    assert r == Newest(bucket + [m], maxSize);
  }

  class PriorityMessageQueue {
    const buckets: array<seq<Message>>
    /** Per bucket: everything put in, and the positions there of what pop returned. */
    ghost var pushed: seq<seq<Message>>
    ghost var popped: seq<seq<nat>>

    ghost predicate Valid()
      reads this, buckets
    {
      && buckets.Length == |pushed| == |popped| == PRIORITY_COUNT
      && forall p :: 0 <= p < PRIORITY_COUNT ==> BucketOk(p, buckets[p], pushed[p], popped[p])
    }

    ghost function Value(): Queue
      requires Valid()
      reads this, buckets
    {
      Queue(buckets[0], buckets[1])
    }

    constructor ()
      ensures Valid() && fresh(buckets) && Value() == EMPTY_QUEUE
      ensures pushed == [[], []] && popped == [[], []]
    {
      buckets := new seq<Message>[PRIORITY_COUNT](_ => []);
      pushed, popped := [[], []], [[], []];
      new;
      hide BucketOk;
      EmptyOk(0);
      EmptyOk(1);
      assert buckets[0] == [] && buckets[1] == [];
    }

    /** Without the lock before the deadline the message is dropped. */
    method Push(m: Message, locked: bool)
      requires Valid()
      modifies this`pushed, buckets
      ensures Valid() && popped == old(popped)
      ensures Value() == if locked then old(Value()).Push(m) else old(Value())
      ensures pushed == if locked then old(pushed)[m.Priority() := old(pushed)[m.Priority()] + [m]] else old(pushed)
    {
      if !locked {
        return;
      }
      var p := m.Priority();
      var bucket := PushBounded(buckets[p], m, QUEUE_MAXSIZE);
      PushKeeps(p, buckets[p], pushed[p], popped[p], m);
      buckets[p] := bucket;
      pushed := pushed[p := pushed[p] + [m]];
    }

    /** Scans the buckets in priority order; an empty queue is a wait that timed out. */
    method Pop() returns (r: Option<Message>)
      requires Valid()
      modifies this`popped, buckets
      ensures Valid() && pushed == old(pushed)
      ensures r == old(Value()).Head() && Value() == old(Value()).Tail()
      ensures r.Some? && r.value.kind == SendText ==> old(Value()).control == []
    {
      hide BucketOk;
      for i := 0 to PRIORITY_COUNT
        invariant Valid() && pushed == old(pushed) && Value() == old(Value())
        invariant forall p :: 0 <= p < i ==> buckets[p] == []
      {
        if buckets[i] != [] {
          r := Some(buckets[i][0]);
          HeadPriority(i, buckets[i], pushed[i], popped[i]);
          popped := popped[i := popped[i] + [|pushed[i]| - |buckets[i]|]];
          buckets[i] := buckets[i][1..];
          return;
        }
      }
      return None;
    }

    /** Eight tries for the lock, then it gives up. */
    method Clear(tryLock: nat -> bool)
      requires Valid()
      modifies buckets
      ensures Valid() && pushed == old(pushed) && popped == old(popped)
      ensures Value() == if exists k :: 0 <= k < CLEAR_ATTEMPTS && tryLock(k) then EMPTY_QUEUE else old(Value())
    {
      for attempt := 0 to CLEAR_ATTEMPTS
        invariant Valid() && Value() == old(Value())
        invariant forall k :: 0 <= k < attempt ==> !tryLock(k)
      {
        if tryLock(attempt) {
          for i := 0 to PRIORITY_COUNT
            invariant Valid() && forall p :: 0 <= p < i ==> buckets[p] == []
          {
            buckets[i] := [];
          }
          return;
        }
      }
    }
  }

  lemma EmptyOk(p: nat)
    ensures BucketOk(p, [], [], [])
  {
  }

  lemma HeadPriority(p: nat, bucket: seq<Message>, pushed: seq<Message>, popped: seq<nat>)
    requires BucketOk(p, bucket, pushed, popped) && bucket != []
    ensures bucket[0].Priority() == p && |bucket| <= |pushed|
    ensures BucketOk(p, bucket[1..], pushed, popped + [|pushed| - |bucket|])
  {
    assert bucket[0] == pushed[|pushed| - |bucket|];
  }

  lemma PushKeeps(p: nat, bucket: seq<Message>, pushed: seq<Message>, popped: seq<nat>, m: Message)
    requires BucketOk(p, bucket, pushed, popped) && m.Priority() == p
    ensures BucketOk(p, Newest(bucket + [m], QUEUE_MAXSIZE), pushed + [m], popped)
  {
    var kept, all := Newest(bucket + [m], QUEUE_MAXSIZE), pushed + [m];
    assert bucket + [m] == all[|all| - |bucket| - 1..];
    assert kept == all[|all| - |kept|..];
  }

  // Bursts

  function PushAll(q: Queue, ms: seq<Message>): Queue {
    if ms == [] then q else PushAll(q, ms[..|ms| - 1]).Push(ms[|ms| - 1])
  }

  function OfPriority(ms: seq<Message>, p: nat): seq<Message> {
    if ms == [] then []
    else
      var n := |ms| - 1;
      OfPriority(ms[..n], p) + if ms[n].Priority() == p then [ms[n]] else []
  }

  /** However long a burst, each bucket ends up with the newest QUEUE_MAXSIZE of its own messages, in order. */
  lemma {:induction false} BurstKeepsNewest(q: Queue, ms: seq<Message>, p: nat)
    requires p < PRIORITY_COUNT && |q.Bucket(p)| <= QUEUE_MAXSIZE
    ensures PushAll(q, ms).Bucket(p) == Newest(q.Bucket(p) + OfPriority(ms, p), QUEUE_MAXSIZE)
  {
    if ms == [] {
      assert q.Bucket(p) + [] == q.Bucket(p);
    } else {
      var n := |ms| - 1;
      BurstKeepsNewest(q, ms[..n], p);
      if ms[n].Priority() == p {
        NewestMore(q.Bucket(p) + OfPriority(ms[..n], p), ms[n]);
        assert q.Bucket(p) + OfPriority(ms, p) == q.Bucket(p) + OfPriority(ms[..n], p) + [ms[n]];
      } else {
        assert OfPriority(ms, p) == OfPriority(ms[..n], p);
      }
    }
  }

  lemma NewestMore(s: seq<Message>, m: Message)
    ensures Newest(Newest(s, QUEUE_MAXSIZE) + [m], QUEUE_MAXSIZE) == Newest(s + [m], QUEUE_MAXSIZE)
  {
  }

  function PopAll(q: Queue): seq<Message>
    decreases |q.control| + |q.text|
  {
    if q.Head().None? then [] else [q.Head().value] + PopAll(q.Tail())
  }

  /** Draining the queue yields every control message, then every text message, each in its order. */
  lemma {:induction false} DrainOrder(q: Queue)
    ensures PopAll(q) == q.control + q.text
    decreases |q.control| + |q.text|
  {
    if q.Head().Some? {
      DrainOrder(q.Tail());
    }
  }

  /** Whichever is pushed first, a text comes out behind a message of any other kind, each behind its own. */
  lemma TextWaits(q: Queue, m: Message, text: Message)
    requires text.kind == SendText && |q.control| < QUEUE_MAXSIZE && |q.text| < QUEUE_MAXSIZE
    requires m.kind in {CreateMeeting, JoinMeeting, ExitMeeting, CloseCamera, SendUserProfile, RoomSettings}
    ensures PopAll(q.Push(text).Push(m)) == q.control + [m] + q.text + [text]
    ensures PopAll(q.Push(m).Push(text)) == q.control + [m] + q.text + [text]
  {
    DrainOrder(q.Push(text).Push(m));
    DrainOrder(q.Push(m).Push(text));
  }
}
