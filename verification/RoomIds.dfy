/** Choosing an id for a new room: 32 random draws, then a counter. */
module RoomIds {
  import opened Options
  import opened Bytes
  import opened Wire
  import opened Meeting

  lemma {:induction false} FirstUnusedMeaning(used: set<RoomId>, draws: seq<u32>)
    ensures match FirstUnused(used, draws)
            case Some(id) =>
              && id in draws && id !in used
              && exists k :: 0 <= k < |draws| && draws[k] == id && forall j :: 0 <= j < k ==> draws[j] in used
            case None => forall d :: d in draws ==> d in used
  {
    if draws != [] && draws[0] in used {
      FirstUnusedMeaning(used, draws[1..]);
      if FirstUnused(used, draws).Some? {
        var k :| 0 <= k < |draws[1..]| && draws[1..][k] == FirstUnused(used, draws).value
                 && forall j :: 0 <= j < k ==> draws[1..][j] in used;
        assert draws[k + 1] == draws[1..][k];
        assert forall j :: 0 < j < k + 1 ==> draws[j] == draws[1..][j - 1];
      }
    }
  }

  /** The counter's value k steps on; it wraps at 32 bits. */
  function At(counter: u32, k: nat): RoomId {
    (counter + k) % U32_SIZE
  }

  /** The ids met on the walk before offset k are all in use. */
  ghost predicate AllUsed(used: set<RoomId>, counter: u32, k: nat) {
    forall j :: 0 <= j < k ==> At(counter, j) in used
  }

  /** The walk stops after at most |used| ids in use, at the first free one (pigeonhole). */
  lemma {:induction false} SequentialStops(used: set<RoomId>, counter: u32) returns (k: nat)
    requires |used| < U32_SIZE
    ensures k <= |used| && AllUsed(used, counter, k)
    ensures Sequential(used, counter) == At(counter, k) && Sequential(used, counter) !in used
    decreases |used|
  {
    if counter !in used {
      k := 0;
    } else {
      var rest, next := used - {counter}, At(counter, 1);
      var k' := SequentialStops(rest, next);
      k := k' + 1;
      Wraps(counter, k');
      forall j | 0 <= j < k
        ensures At(counter, j) in used
      {
        if j > 0 {
          Wraps(counter, j - 1);
          assert At(next, j - 1) in rest;
        }
      }
    }
  }

  lemma Wraps(counter: u32, j: nat)
    ensures At(At(counter, 1), j) == At(counter, j + 1)
    ensures j + 1 < U32_SIZE ==> At(counter, j + 1) != counter
  {
  }

  lemma OneStep(counter: u32, k: nat)
    ensures At(At(counter, k), 1) == At(counter, k + 1)
  {
  }

  /** The id given to a room is never in use, for every outcome of the draws. */
  lemma AllocatedUnused(used: set<RoomId>, draws: seq<u32>, counter: u32)
    requires |used| < U32_SIZE
    ensures AllocateRoomId(used, draws, counter).0 !in used
  {
    FirstUnusedMeaning(used, draws);
    if FirstUnused(used, draws).None? {
      var _ := SequentialStops(used, counter);
    }
  }

  /**
   A room gets the id 0, which clients read as failure, exactly when every draw was taken and the counter
   walks onto 0 over ids all in use.
  */
  lemma AllocatedZero(used: set<RoomId>, draws: seq<u32>, counter: u32)
    requires |used| < U32_SIZE && ValidDraws(draws)
    ensures AllocateRoomId(used, draws, counter).0 == 0
            <==> (forall d :: d in draws ==> d in used) && 0 !in used
                 && AllUsed(used, counter, (U32_SIZE - counter) % U32_SIZE)
  {
    FirstUnusedMeaning(used, draws);
    if FirstUnused(used, draws).None? {
      var k := SequentialStops(used, counter);
      var z := (U32_SIZE - counter) % U32_SIZE;
      assert At(counter, z) == 0;
      ZeroAt(counter, k);
    }
  }

  lemma ZeroAt(counter: u32, k: nat)
    requires k < U32_SIZE
    ensures At(counter, k) == 0 ==> k == (U32_SIZE - counter) % U32_SIZE
  {
  }
}
