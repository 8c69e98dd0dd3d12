/**
 How the client folds a stream of video frames into one drain event at a time. Producers store a frame in one
 critical section and schedule a drain in another; the UI thread drains. Each critical section, each post to
 the event queue and each emission is one step, and all of them interleave freely.
 */
module Coalescer {
  import opened Options
  import Wire

  type UserId = Wire.qint64
  type FeedId = nat

  /** What one mutex guards: the latest frame of each user, and whether a drain has been asked for. */
  datatype Slots = Slots(pending: map<UserId, nat>, scheduled: bool) {
    function Store(user: UserId, frame: nat): Slots {
      this.(pending := pending[user := frame])
    }

    function Schedule(): Slots {
      this.(scheduled := true)
    }

    function Forget(user: UserId): Slots {
      this.(pending := pending - {user})
    }
  }

  const EMPTY_SLOTS: Slots := Slots(map[], false)

  datatype Producer = ToStore(feed: FeedId) | ToSchedule | ToPost | Finished

  datatype Emission = Emission(user: UserId, frame: nat)

  /**
   A frame's number is its place in stored, which lists the users frames were stored for. queued counts drain
   events in the UI thread's queue; discarded holds frames dropped by a clear or a departure.
  */
  datatype State = State(feeds: map<FeedId, UserId>, slots: Slots, queued: nat, draining: map<UserId, nat>,
                         producers: seq<Producer>, stored: seq<UserId>, emitted: seq<Emission>,
                         discarded: set<nat>, clears: nat)

  const INITIAL: State := State(map[], EMPTY_SLOTS, 0, map[], [], [], [], {}, 0)

  datatype Step =
    | Arrive(feed: FeedId)
    | Produce(p: nat)
    | Drain
    | Emit(user: UserId)
    | Clear
    | Reset
    | Joined(feed: FeedId, user: UserId)
    | Left(feed: FeedId)

  predicate Enabled(s: State, step: Step) {
    match step
    case Produce(p) => p < |s.producers|
    case Drain => s.queued > 0 && s.draining == map[]
    case Emit(user) => user in s.draining
    case _ => true
  }

  function At(s: State, p: nat, to: Producer): State
    requires p < |s.producers|
  {
    s.(producers := s.producers[p := to])
  }

  /** One step of a media-thread callback. */
  function ProducerStep(s: State, p: nat): State
    requires p < |s.producers|
  {
    match s.producers[p]
    case ToStore(feed) =>
      if feed !in s.feeds || s.feeds[feed] == 0 then At(s, p, Finished)
      else
        At(s.(slots := s.slots.Store(s.feeds[feed], |s.stored|), stored := s.stored + [s.feeds[feed]]), p, ToSchedule)
    case ToSchedule =>
      if s.slots.scheduled then At(s, p, Finished) else At(s.(slots := s.slots.Schedule()), p, ToPost)
    case ToPost => At(s.(queued := s.queued + 1), p, Finished)
    case Finished => s
  }

  function Cleared(s: State): State {
    s.(slots := EMPTY_SLOTS, discarded := s.discarded + s.slots.pending.Values, clears := s.clears + 1)
  }

  function Next(s: State, step: Step): State
    requires Enabled(s, step)
  {
    match step
    case Arrive(feed) => s.(producers := s.producers + [ToStore(feed)])
    case Produce(p) => ProducerStep(s, p)
    case Drain => s.(draining := s.slots.pending, slots := EMPTY_SLOTS, queued := s.queued - 1)
    case Emit(user) =>
      var rest := s.(draining := s.draining - {user});
      if user == 0 then rest else rest.(emitted := s.emitted + [Emission(user, s.draining[user])])
    case Clear => Cleared(s)
    case Reset => Cleared(s).(feeds := map[])
    case Joined(feed, user) => if user == 0 then s else s.(feeds := s.feeds[feed := user])
    case Left(feed) =>
      if feed !in s.feeds then s
      else
        var user := s.feeds[feed];
        s.(feeds := s.feeds - {feed}, slots := s.slots.Forget(user),
           discarded := s.discarded + if user in s.slots.pending then {s.slots.pending[user]} else {})
  }

  function Run(s: State, steps: seq<Step>): Option<State> {
    if steps == [] then Some(s)
    else
      var n := |steps| - 1;
      var before := Run(s, steps[..n]);
      if before.Some? && Enabled(before.value, steps[n]) then Some(Next(before.value, steps[n])) else None
  }

  lemma RunMore(steps: seq<Step>, s: State, step: Step)
    requires Run(INITIAL, steps) == Some(s) && Enabled(s, step)
    ensures Run(INITIAL, steps + [step]) == Some(Next(s, step))
  {
    assert (steps + [step])[..|steps|] == steps;
  }

  // No lost wakeup

  /** A pending frame has a drain asked for or a producer about to ask; an asked-for drain is queued or about to be. */
  ghost predicate Woken(s: State) {
    && (s.slots.pending != map[] ==> s.slots.scheduled || ToSchedule in s.producers)
    && (s.slots.scheduled ==> s.queued > 0 || ToPost in s.producers)
  }

  lemma NextKeepsWoken(s: State, step: Step)
    requires Enabled(s, step) && Woken(s)
    ensures Woken(Next(s, step))
  {
    if step.Produce? {
      ProducerKeepsWoken(s, step.p);
    } else {
      var s' := Next(s, step);
      assert forall q :: q in s.producers ==> q in s'.producers by {
        if step.Arrive? {
          assert s'.producers[..|s.producers|] == s.producers;
        }
      }
    }
  }

  lemma ProducerKeepsWoken(s: State, p: nat)
    requires p < |s.producers| && Woken(s)
    ensures Woken(ProducerStep(s, p))
  {
    var s' := ProducerStep(s, p);
    forall q | q in s.producers && q != s.producers[p]
      ensures q in s'.producers
    {
      var i :| 0 <= i < |s.producers| && s.producers[i] == q;
      assert s'.producers[i] == q;
    }
    assert s'.producers[p] in s'.producers;
  }

  // At most one drain event

  function Posting(producers: seq<Producer>): nat {
    if producers == [] then 0
    else Posting(producers[..|producers| - 1]) + if producers[|producers| - 1].ToPost? then 1 else 0
  }

  /** Beyond one drain event, each extra one that is queued or being posted is due to a clear. */
  ghost predicate Coalesced(s: State) {
    s.queued + Posting(s.producers) <= (if s.slots.scheduled then 1 else 0) + s.clears
  }

  lemma {:induction false} PostingUpdate(producers: seq<Producer>, p: nat, to: Producer)
    requires p < |producers|
    ensures Posting(producers[p := to]) + (if producers[p].ToPost? then 1 else 0)
            == Posting(producers) + (if to.ToPost? then 1 else 0)
    decreases |producers|
  {
    var n := |producers| - 1;
    if p == n {
      assert producers[p := to][..n] == producers[..n];
    } else {
      assert producers[p := to][..n] == producers[..n][p := to];
      PostingUpdate(producers[..n], p, to);
    }
  }

  lemma NextKeepsCoalesced(s: State, step: Step)
    requires Enabled(s, step) && Coalesced(s)
    ensures Coalesced(Next(s, step))
  {
    match step
    case Produce(p) => PostingUpdate(s.producers, p, ProducerStep(s, p).producers[p]);
    case Arrive(feed) => assert (s.producers + [ToStore(feed)])[..|s.producers|] == s.producers;
    case _ =>
  }

  // Frames

  /** Frame f is one of this user's. */
  predicate Of(stored: seq<UserId>, f: nat, user: UserId) {
    f < |stored| && stored[f] == user
  }

  /** No frame was stored for the same user after f. */
  predicate IsLatest(stored: seq<UserId>, f: nat) {
    f < |stored| && forall g :: f < g < |stored| ==> stored[g] != stored[f]
  }

  /** Everything pending is the user's latest frame. */
  ghost predicate PendingLatest(s: State) {
    forall u :: u in s.slots.pending ==> Of(s.stored, s.slots.pending[u], u) && IsLatest(s.stored, s.slots.pending[u])
  }

  ghost predicate NoUserZero(s: State) {
    && (forall feed :: feed in s.feeds ==> s.feeds[feed] != 0)
    && 0 !in s.slots.pending && 0 !in s.draining
  }

  /** Each user's frames are emitted in the order stored; those being drained come next, then the pending one. */
  ghost predicate InOrder(s: State) {
    && (forall i :: 0 <= i < |s.emitted| ==> Of(s.stored, s.emitted[i].frame, s.emitted[i].user))
    && (forall i, j :: 0 <= i < j < |s.emitted| && s.emitted[i].user == s.emitted[j].user ==>
          s.emitted[i].frame < s.emitted[j].frame)
    && (forall u :: u in s.draining ==> Of(s.stored, s.draining[u], u))
    && (forall u, i :: u in s.draining && 0 <= i < |s.emitted| && s.emitted[i].user == u ==>
          s.emitted[i].frame < s.draining[u])
    && (forall u, i :: u in s.slots.pending && 0 <= i < |s.emitted| && s.emitted[i].user == u ==>
          s.emitted[i].frame < s.slots.pending[u])
    && (forall u :: u in s.slots.pending && u in s.draining ==> s.draining[u] < s.slots.pending[u])
  }

  /** Where a user's latest frame can be. */
  ghost predicate Somewhere(s: State, f: nat)
    requires f < |s.stored|
  {
    var u := s.stored[f];
    || (u in s.slots.pending && s.slots.pending[u] == f)
    || (u in s.draining && s.draining[u] == f)
    || Emission(u, f) in s.emitted
    || f in s.discarded
  }

  ghost predicate LatestSurvives(s: State) {
    forall f :: IsLatest(s.stored, f) ==> Somewhere(s, f)
  }

  ghost predicate FramesOk(s: State) {
    PendingLatest(s) && NoUserZero(s) && InOrder(s) && LatestSurvives(s)
  }

  lemma StoreKeepsFrames(s: State, user: UserId)
    requires FramesOk(s) && user != 0
    ensures FramesOk(s.(slots := s.slots.Store(user, |s.stored|), stored := s.stored + [user]))
  {
    var s' := s.(slots := s.slots.Store(user, |s.stored|), stored := s.stored + [user]);
    assert forall f :: 0 <= f < |s.stored| ==> s'.stored[f] == s.stored[f];
    forall f: nat | IsLatest(s'.stored, f)
      ensures Somewhere(s', f)
    {
      if f < |s.stored| {
        assert s'.stored[|s.stored|] == user;
        assert IsLatest(s.stored, f) && Somewhere(s, f);
      }
    }
  }

  lemma DrainKeepsFrames(s: State)
    requires FramesOk(s) && Enabled(s, Drain)
    ensures FramesOk(Next(s, Drain))
  {
    var s' := Next(s, Drain);
    forall f: nat | IsLatest(s'.stored, f)
      ensures Somewhere(s', f)
    {
      assert Somewhere(s, f);
    }
  }

  lemma EmitKeepsFrames(s: State, user: UserId)
    requires FramesOk(s) && user in s.draining
    ensures FramesOk(Next(s, Emit(user)))
  {
    var s' := Next(s, Emit(user));
    assert s'.emitted == s.emitted + [Emission(user, s.draining[user])];
    assert s'.emitted[|s.emitted|] == Emission(user, s.draining[user]);
    forall f: nat | IsLatest(s'.stored, f)
      ensures Somewhere(s', f)
    {
      assert Somewhere(s, f);
      if Emission(s.stored[f], f) in s.emitted {
        assert s'.emitted[..|s.emitted|] == s.emitted;
      }
    }
  }

  lemma DropKeepsFrames(s: State, pending: map<UserId, nat>, gone: set<nat>, s': State)
    requires FramesOk(s)
    requires forall u :: u in pending ==> u in s.slots.pending && pending[u] == s.slots.pending[u]
    requires forall u :: u in s.slots.pending && u !in pending ==> s.slots.pending[u] in gone
    requires s'.slots.pending == pending && s'.discarded == s.discarded + gone
    requires s'.draining == s.draining && s'.stored == s.stored && s'.emitted == s.emitted
    requires forall feed :: feed in s'.feeds ==> s'.feeds[feed] != 0
    ensures FramesOk(s')
  {
    forall f: nat | IsLatest(s'.stored, f)
      ensures Somewhere(s', f)
    {
      assert Somewhere(s, f);
    }
  }

  lemma NextKeepsFrames(s: State, step: Step)
    requires FramesOk(s) && Enabled(s, step)
    ensures FramesOk(Next(s, step))
  {
    hide FramesOk, IsLatest;
    var s' := Next(s, step);
    match step
    case Produce(p) =>
      if s.producers[p].ToStore? && s.producers[p].feed in s.feeds {
        StoreStep(s, p);
      } else {
        SameFrames(s, s');
      }
    case Drain => DrainKeepsFrames(s);
    case Emit(user) => EmitKeepsFrames(s, user);
    case Clear => ClearKeepsFrames(s);
    case Reset => ClearKeepsFrames(s);
    case Left(feed) => LeftKeepsFrames(s, feed);
    case Joined(feed, user) => JoinedKeepsFrames(s, feed, user);
    case Arrive(feed) => SameFrames(s, s');
  }

  lemma SameFrames(s: State, s': State)
    requires FramesOk(s)
    requires s'.slots.pending == s.slots.pending && s'.discarded == s.discarded && s'.feeds == s.feeds
    requires s'.draining == s.draining && s'.stored == s.stored && s'.emitted == s.emitted
    ensures FramesOk(s')
  {
    DropKeepsFrames(s, s.slots.pending, {}, s');
  }

  lemma StoreStep(s: State, p: nat)
    requires FramesOk(s) && p < |s.producers| && s.producers[p].ToStore? && s.producers[p].feed in s.feeds
    ensures FramesOk(ProducerStep(s, p))
  {
    var user := s.feeds[s.producers[p].feed];
    assert user != 0;
    StoreKeepsFrames(s, user);
    SameFrames(s.(slots := s.slots.Store(user, |s.stored|), stored := s.stored + [user]), ProducerStep(s, p));
  }

  lemma ClearKeepsFrames(s: State)
    requires FramesOk(s)
    ensures FramesOk(Next(s, Clear)) && FramesOk(Next(s, Reset))
  {
    DropKeepsFrames(s, map[], s.slots.pending.Values, Next(s, Clear));
    DropKeepsFrames(s, map[], s.slots.pending.Values, Next(s, Reset));
  }

  lemma LeftKeepsFrames(s: State, feed: FeedId)
    requires FramesOk(s)
    ensures FramesOk(Next(s, Left(feed)))
  {
    if feed in s.feeds {
      var user := s.feeds[feed];
      var gone := if user in s.slots.pending then {s.slots.pending[user]} else {};
      DropKeepsFrames(s, s.slots.pending - {user}, gone, Next(s, Left(feed)));
    } else {
      SameFrames(s, Next(s, Left(feed)));
    }
  }

  lemma JoinedKeepsFrames(s: State, feed: FeedId, user: UserId)
    requires FramesOk(s)
    ensures FramesOk(Next(s, Joined(feed, user)))
  {
    DropKeepsFrames(s, s.slots.pending, {}, Next(s, Joined(feed, user)));
  }

  // Whole runs

  ghost predicate Good(s: State) {
    Woken(s) && Coalesced(s) && FramesOk(s)
  }

  lemma {:induction false} EveryRunGood(steps: seq<Step>)
    requires Run(INITIAL, steps).Some?
    ensures Good(Run(INITIAL, steps).value)
  {
    if steps != [] {
      var n := |steps| - 1;
      EveryRunGood(steps[..n]);
      hide Next, Enabled, Woken, Coalesced, FramesOk;
      var before := Run(INITIAL, steps[..n]).value;
      NextKeepsWoken(before, steps[n]);
      NextKeepsCoalesced(before, steps[n]);
      NextKeepsFrames(before, steps[n]);
    }
  }

  /** No wakeup is lost: a pending frame has a drain event queued, or a producer still to schedule or post one. */
  lemma NoLostWakeup(steps: seq<Step>)
    requires Run(INITIAL, steps).Some? && Run(INITIAL, steps).value.slots.pending != map[]
    ensures var s := Run(INITIAL, steps).value;
            s.queued > 0 || ToSchedule in s.producers || ToPost in s.producers
  {
    EveryRunGood(steps);
  }

  /** Without clears there is never more than one drain event queued or being posted. */
  lemma OneDrainEvent(steps: seq<Step>)
    requires Run(INITIAL, steps).Some?
    ensures var s := Run(INITIAL, steps).value;
            s.queued + Posting(s.producers) <= 1 + s.clears
  {
    EveryRunGood(steps);
  }

  /** No frame is emitted twice, and no user's frame after a later one of theirs. */
  lemma EmittedOnce(steps: seq<Step>, i: nat, j: nat)
    requires Run(INITIAL, steps).Some? && i < j < |Run(INITIAL, steps).value.emitted|
    ensures var e := Run(INITIAL, steps).value.emitted;
            e[i].frame != e[j].frame && (e[i].user == e[j].user ==> e[i].frame < e[j].frame)
  {
    hide Run, Woken, Coalesced;
    EveryRunGood(steps);
  }

  /**
   When every producer is through, the event queue is empty and no drain is under way, nothing is pending, and
   each user's latest frame has been emitted, unless a clear or a departure took it.
  */
  lemma Quiescent(steps: seq<Step>, f: nat)
    requires Run(INITIAL, steps).Some?
    requires var s := Run(INITIAL, steps).value;
             s.queued == 0 && s.draining == map[] && forall p :: p in s.producers ==> p == Finished
    ensures Run(INITIAL, steps).value.slots.pending == map[]
    ensures var s := Run(INITIAL, steps).value;
            IsLatest(s.stored, f) ==> Emission(s.stored[f], f) in s.emitted || f in s.discarded
  {
    hide Run, Coalesced;
    EveryRunGood(steps);
    assert IsLatest(Run(INITIAL, steps).value.stored, f) ==> Somewhere(Run(INITIAL, steps).value, f);
  }

  // Departures and clears

  /**
   A departure takes away the feed's mapping and its user's pending frame, which is discarded, and nothing else;
   one of a feed that is not mapped does nothing.
  */
  lemma LeftTakes(s: State, feed: FeedId)
    ensures var s' := Next(s, Left(feed));
            if feed !in s.feeds then s' == s
            else
              var user := s.feeds[feed];
              && user !in s'.slots.pending && feed !in s'.feeds
              && (forall u :: u in s.slots.pending && u != user ==>
                    u in s'.slots.pending && s'.slots.pending[u] == s.slots.pending[u])
              && (forall u :: u in s'.slots.pending ==> u in s.slots.pending)
              && (forall f :: f in s.feeds && f != feed ==> f in s'.feeds && s'.feeds[f] == s.feeds[f])
              && (forall f :: f in s'.feeds ==> f in s.feeds)
              && (forall f :: f in s'.discarded <==>
                    f in s.discarded || (user in s.slots.pending && f == s.slots.pending[user]))
              && s'.slots.scheduled == s.slots.scheduled && s'.queued == s.queued && s'.draining == s.draining
              && s'.producers == s.producers && s'.stored == s.stored && s'.emitted == s.emitted
              && s'.clears == s.clears
  {
  }

  /** A clear or a reset empties the slots, discarding what was pending; only a reset forgets the feeds. */
  lemma ClearTakes(s: State, step: Step)
    requires step.Clear? || step.Reset?
    ensures var s' := Next(s, step);
            && s'.slots.pending == map[] && !s'.slots.scheduled
            && (if step.Reset? then s'.feeds == map[] else s'.feeds == s.feeds)
            && (forall f :: f in s'.discarded <==>
                  f in s.discarded || exists u :: u in s.slots.pending && s.slots.pending[u] == f)
            && s'.queued == s.queued && s'.draining == s.draining && s'.producers == s.producers
            && s'.stored == s.stored && s'.emitted == s.emitted
  {
  }

  /** Frames are discarded by these three alone. */
  lemma OnlyTheseDiscard(s: State, step: Step)
    requires Enabled(s, step) && Next(s, step).discarded != s.discarded
    ensures step.Clear? || step.Reset? || step.Left?
  {
  }

  /** Of the user's frames before the n-th, none is pending, and only the one being drained can still be emitted. */
  ghost predicate OldGone(s: State, user: UserId, n: nat, emitted: nat, draining: map<UserId, nat>) {
    && n <= |s.stored| && emitted <= |s.emitted|
    && (user in s.slots.pending ==> s.slots.pending[user] >= n)
    && (user in s.draining ==> s.draining[user] >= n || (user in draining && s.draining[user] == draining[user]))
    && (forall i :: emitted <= i < |s.emitted| && s.emitted[i].user == user ==>
          s.emitted[i].frame >= n || (user in draining && s.emitted[i].frame == draining[user]))
  }

  lemma NextKeepsGone(s: State, step: Step, user: UserId, n: nat, emitted: nat, draining: map<UserId, nat>)
    requires Enabled(s, step) && OldGone(s, user, n, emitted, draining)
    ensures OldGone(Next(s, step), user, n, emitted, draining)
  {
  }

  /**
   Once a user has nothing pending, for having left or been cleared, an earlier frame of theirs is emitted only if
   the drain then under way had already taken it.
  */
  lemma GoneForGood(s: State, steps: seq<Step>, user: UserId, i: nat)
    requires user !in s.slots.pending && Run(s, steps).Some?
    requires |s.emitted| <= i < |Run(s, steps).value.emitted| && Run(s, steps).value.emitted[i].user == user
    ensures var f := Run(s, steps).value.emitted[i].frame;
            f >= |s.stored| || (user in s.draining && f == s.draining[user])
  {
    hide Next, Enabled;
    RunKeepsGone(s, steps, user);
  }

  lemma {:induction false} RunKeepsGone(s: State, steps: seq<Step>, user: UserId)
    requires user !in s.slots.pending && Run(s, steps).Some?
    ensures OldGone(Run(s, steps).value, user, |s.stored|, |s.emitted|, s.draining)
  {
    if steps != [] {
      hide Next, Enabled, OldGone;
      var n := |steps| - 1;
      RunKeepsGone(s, steps[..n], user);
      NextKeepsGone(Run(s, steps[..n]).value, steps[n], user, |s.stored|, |s.emitted|, s.draining);
    }
  }

  /** After a departure, in any continuation, nothing more is seen of the user but what the drain had taken. */
  lemma DepartedUnseen(s: State, feed: FeedId, steps: seq<Step>, i: nat)
    requires feed in s.feeds && Run(Next(s, Left(feed)), steps).Some?
    requires |s.emitted| <= i < |Run(Next(s, Left(feed)), steps).value.emitted|
    requires Run(Next(s, Left(feed)), steps).value.emitted[i].user == s.feeds[feed]
    ensures var f := Run(Next(s, Left(feed)), steps).value.emitted[i].frame;
            f >= |s.stored| || (s.feeds[feed] in s.draining && f == s.draining[s.feeds[feed]])
  {
    hide Next;
    LeftTakes(s, feed);
    GoneForGood(Next(s, Left(feed)), steps, s.feeds[feed], i);
  }

  /** Without departures and clears, at rest every user's latest frame has been emitted. */
  lemma {:induction false} NothingDiscarded(steps: seq<Step>)
    requires Run(INITIAL, steps).Some? && forall step :: step in steps ==> !step.Clear? && !step.Reset? && !step.Left?
    ensures Run(INITIAL, steps).value.discarded == {}
  {
    if steps != [] {
      hide Next, Enabled;
      var n := |steps| - 1;
      NothingDiscarded(steps[..n]);
      if Next(Run(INITIAL, steps[..n]).value, steps[n]).discarded != {} {
        OnlyTheseDiscard(Run(INITIAL, steps[..n]).value, steps[n]);
      }
    }
  }

  lemma LatestShown(steps: seq<Step>, f: nat)
    requires Run(INITIAL, steps).Some? && forall step :: step in steps ==> !step.Clear? && !step.Reset? && !step.Left?
    requires var s := Run(INITIAL, steps).value;
             s.queued == 0 && s.draining == map[] && forall p :: p in s.producers ==> p == Finished
    ensures var s := Run(INITIAL, steps).value;
            IsLatest(s.stored, f) ==> Emission(s.stored[f], f) in s.emitted
  {
    hide Run, IsLatest;
    NothingDiscarded(steps);
    Quiescent(steps, f);
  }
}
