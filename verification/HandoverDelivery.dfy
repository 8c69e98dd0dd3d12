/** What the sender threads are for: a current sender hands over what is queued, and nothing is lost without a cause. */
module HandoverDelivery {
  import opened Options
  import opened SendQueue
  import opened Handover
  import opened HandoverJoins

  // A current sender left alone

  /** The order in which messages wait. */
  function Waiting(q: Queue): seq<Message> {
    q.control + q.text
  }

  function FirstOf(ms: seq<Message>, k: nat): seq<Message> {
    if k <= |ms| then ms[..k] else ms
  }

  function FramesOf(i: nat, ms: seq<Message>): (r: seq<Frame>)
    ensures |r| == |ms|
  {
    seq(|ms|, j requires 0 <= j < |ms| => Frame(i, ms[j]))
  }

  /** This many rounds of the sending loop: two looks, a pop, a third look and the hand-over. */
  function Rounds(i: nat, k: nat): seq<Step> {
    seq(5 * k, _ => Work(i, true))
  }

  /** Running, connected, and worker i at the top of the loop with the current epoch. */
  predicate Sending(s: State, i: nat) {
    s.running && s.connected && i < |s.workers| && s.workers[i] == Worker(s.epoch, CheckRunning)
  }

  lemma OneMoreStep(from: State, steps: seq<Step>, s: State, step: Step)
    requires Run(from, steps) == Some(s) && Enabled(s, step)
    ensures Run(from, steps + [step]) == Some(Next(s, step))
  {
    assert (steps + [step])[..|steps|] == steps;
  }

  lemma {:induction false} RunSplit(s: State, first: seq<Step>, second: seq<Step>)
    requires Run(s, first).Some?
    ensures Run(s, first + second) == Run(Run(s, first).value, second)
    decreases |second|
  {
    hide Next, Enabled;
    if second == [] {
      assert first + second == first;
    } else {
      var n := |second| - 1;
      RunSplit(s, first, second[..n]);
      assert (first + second)[..|first| + n] == first + second[..n];
    }
  }

  /** The first k messages that waited have been handed over, in order, and nothing else has changed. */
  predicate HandedOver(s: State, i: nat, k: nat, s': State) {
    var ms := Waiting(s.queue);
    && s' == s.(queue := s'.queue, log := s.log.(sent := s'.log.sent))
    && Waiting(s'.queue) == ms[|FirstOf(ms, k)|..]
    && s'.log.sent == s.log.sent + FramesOf(i, FirstOf(ms, k))
  }

  /** One round takes the message waiting first, if there is one, and hands it over. */
  lemma OneRound(s: State, i: nat)
    requires Sending(s, i)
    ensures Run(s, Rounds(i, 1)).Some? && HandedOver(s, i, 1, Run(s, Rounds(i, 1)).value)
  {
    hide Run, Waiting, FirstOf, FramesOf, Queue.Head, Queue.Tail;
    var head := s.queue.Head();
    var step := Work(i, true);
    var s1 := At(s, i, CheckEpoch);
    var s2 := At(s, i, Take);
    var s3 := At(s.(queue := s.queue.Tail()), i, Recheck(head));
    var s4 := At(s.(queue := s.queue.Tail()), i, Deliver(head));
    RunNothing(s);
    OneMoreStep(s, [], s, step);
    assert Next(s1, step) == s2 && Next(s2, step) == s3 && Next(s3, step) == s4;
    OneMoreStep(s, [] + [step], s1, step);
    OneMoreStep(s, [] + [step] + [step], s2, step);
    OneMoreStep(s, [] + [step] + [step] + [step], s3, step);
    OneMoreStep(s, [] + [step] + [step] + [step] + [step], s4, step);
    assert [] + [step] + [step] + [step] + [step] + [step] == Rounds(i, 1);
    assert Next(s4, step).workers == s.workers;
    FirstWaiting(s.queue, i);
  }

  lemma FirstWaiting(q: Queue, i: nat)
    ensures var first := FirstOf(Waiting(q), 1);
            && Waiting(q.Tail()) == Waiting(q)[|first|..]
            && FramesOf(i, first) == match q.Head() case None => [] case Some(m) => [Frame(i, m)]
  {
    if q.control != [] {
      assert Waiting(q.Tail()) == Waiting(q)[1..];
    }
  }

  /**
   Whatever is queued, a current sender left alone with a connection hands over the first k messages waiting in k
   rounds, in order, control before text, and drops nothing.
  */
  lemma {:induction false} Undisturbed(s: State, i: nat, k: nat)
    requires Sending(s, i)
    ensures Run(s, Rounds(i, k)).Some? && HandedOver(s, i, k, Run(s, Rounds(i, k)).value)
  {
    if k == 0 {
      assert Rounds(i, 0) == [];
      HandedNone(s, i);
    } else {
      hide Run, HandedOver, Rounds;
      Undisturbed(s, i, k - 1);
      var s1 := Run(s, Rounds(i, k - 1)).value;
      StillSending(s, i, k - 1, s1);
      OneRound(s1, i);
      RunSplit(s, Rounds(i, k - 1), Rounds(i, 1));
      RoundsMore(i, k - 1);
      HandedMore(s, i, k - 1, s1, Run(s1, Rounds(i, 1)).value);
    }
  }

  lemma HandedNone(s: State, i: nat)
    ensures HandedOver(s, i, 0, s)
  {
    assert Waiting(s.queue)[..0] == [];
    assert s.log.sent + FramesOf(i, []) == s.log.sent;
  }

  lemma StillSending(s: State, i: nat, k: nat, s': State)
    requires Sending(s, i) && HandedOver(s, i, k, s')
    ensures Sending(s', i)
  {
  }

  lemma HandedMore(s: State, i: nat, k: nat, s1: State, s2: State)
    requires HandedOver(s, i, k, s1) && HandedOver(s1, i, 1, s2)
    ensures HandedOver(s, i, k + 1, s2)
  {
    hide Waiting, FramesOf, FirstOf;
    OneMoreOf(Waiting(s.queue), i, k);
  }

  lemma RoundsMore(i: nat, k: nat)
    ensures Rounds(i, k + 1) == Rounds(i, k) + Rounds(i, 1)
  {
  }

  lemma OneMoreOf(ms: seq<Message>, i: nat, k: nat)
    ensures var rest := ms[|FirstOf(ms, k)|..];
            && FirstOf(ms, k + 1) == FirstOf(ms, k) + FirstOf(rest, 1)
            && FramesOf(i, FirstOf(ms, k + 1)) == FramesOf(i, FirstOf(ms, k)) + FramesOf(i, FirstOf(rest, 1))
            && ms[|FirstOf(ms, k + 1)|..] == rest[|FirstOf(rest, 1)|..] && |FirstOf(ms, k)| <= |ms|
  {
  }

  // From the interface to the connection

  function NonTexts(ms: seq<Message>): seq<Message> {
    if ms == [] then []
    else
      var n := |ms| - 1;
      NonTexts(ms[..n]) + if ms[n].kind != SendText then [ms[n]] else []
  }

  function Texts(ms: seq<Message>): seq<Message> {
    if ms == [] then []
    else
      var n := |ms| - 1;
      Texts(ms[..n]) + if ms[n].kind == SendText then [ms[n]] else []
  }

  function Enqueues(ms: seq<Message>): seq<Step> {
    seq(|ms|, j requires 0 <= j < |ms| => Enqueue(ms[j], true))
  }

  /** With room, a message goes behind its own kind and nothing else changes. */
  lemma EnqueueLast(s: State, m: Message)
    requires |s.queue.control| < QUEUE_MAXSIZE && |s.queue.text| < QUEUE_MAXSIZE
    ensures Next(s, Enqueue(m, true))
            == s.(queue := if m.kind == SendText then Queue(s.queue.control, s.queue.text + [m])
                           else Queue(s.queue.control + [m], s.queue.text),
                  log := s.log.(accepted := s.log.accepted + [m]))
  {
    assert Overflow(s.queue, m) == [];
    assert s.log.dropped + DropAll([], Evicted) == s.log.dropped;
  }

  lemma LastKind(ms: seq<Message>)
    requires ms != []
    ensures var n := |ms| - 1;
            if ms[n].kind == SendText then NonTexts(ms) == NonTexts(ms[..n]) && Texts(ms) == Texts(ms[..n]) + [ms[n]]
            else NonTexts(ms) == NonTexts(ms[..n]) + [ms[n]] && Texts(ms) == Texts(ms[..n])
  {
  }

  /** The state in which these messages have been pushed to an empty queue. */
  function Pushed(s: State, ms: seq<Message>): State {
    s.(queue := Queue(NonTexts(ms), Texts(ms)), log := s.log.(accepted := s.log.accepted + ms))
  }

  lemma PushedLast(s: State, ms: seq<Message>)
    requires ms != [] && |ms| <= QUEUE_MAXSIZE
    ensures Next(Pushed(s, ms[..|ms| - 1]), Enqueue(ms[|ms| - 1], true)) == Pushed(s, ms)
  {
    hide Next, NonTexts, Texts;
    var n := |ms| - 1;
    LastKind(ms);
    KindsCounted(ms[..n]);
    EnqueueLast(Pushed(s, ms[..n]), ms[n]);
    assert s.log.accepted + ms == s.log.accepted + ms[..n] + [ms[n]];
  }

  lemma {:induction false} KindsCounted(ms: seq<Message>)
    ensures |NonTexts(ms)| + |Texts(ms)| == |ms|
  {
    if ms != [] {
      KindsCounted(ms[..|ms| - 1]);
    }
  }

  lemma {:induction false} BurstQueued(s: State, ms: seq<Message>)
    requires s.queue == EMPTY_QUEUE && |ms| <= QUEUE_MAXSIZE
    ensures Run(s, Enqueues(ms)) == Some(Pushed(s, ms))
  {
    if ms == [] {
      assert Enqueues(ms) == [] && s.log.accepted + ms == s.log.accepted;
    } else {
      hide Next, Run, Pushed;
      var n := |ms| - 1;
      BurstQueued(s, ms[..n]);
      PushedLast(s, ms);
      assert Enqueues(ms) == Enqueues(ms[..n]) + [Enqueue(ms[n], true)];
      OneMoreStep(s, Enqueues(ms[..n]), Pushed(s, ms[..n]), Enqueue(ms[n], true));
    }
  }

  /**
   Up to 1500 messages pushed to an idle current sender with a connection all go out, each once, first those that
   are no texts and then the texts, both in the order pushed, and nothing is dropped.
  */
  lemma BurstSent(s: State, i: nat, ms: seq<Message>)
    requires Sending(s, i) && s.queue == EMPTY_QUEUE && |ms| <= QUEUE_MAXSIZE
    ensures Run(s, Enqueues(ms) + Rounds(i, |ms|))
            == Some(s.(log := s.log.(accepted := s.log.accepted + ms,
                                     sent := s.log.sent + FramesOf(i, NonTexts(ms) + Texts(ms)))))
  {
    hide Run, Rounds, FramesOf;
    BurstQueued(s, ms);
    KindsCounted(ms);
    var s1 := Pushed(s, ms);
    Undisturbed(s1, i, |ms|);
    RunSplit(s, Enqueues(ms), Rounds(i, |ms|));
    assert FirstOf(Waiting(s1.queue), |ms|) == NonTexts(ms) + Texts(ms);
    EmptyWaiting(Run(s1, Rounds(i, |ms|)).value.queue);
  }

  lemma EmptyWaiting(q: Queue)
    ensures Waiting(q) == [] ==> q == EMPTY_QUEUE
  {
  }

  /** A clear that gets the lock drops everything that waits, in order, and nothing else changes. */
  lemma ClearEmpties(s: State)
    ensures Next(s, Clear(false)) == s
    ensures var s' := Next(s, Clear(true));
            && s' == s.(queue := EMPTY_QUEUE, log := s.log.(dropped := s'.log.dropped))
            && |s'.log.dropped| == |s.log.dropped| + |Waiting(s.queue)| && s.log.dropped <= s'.log.dropped
            && forall j :: 0 <= j < |Waiting(s.queue)| ==>
                 s'.log.dropped[|s.log.dropped| + j] == Drop(Waiting(s.queue)[j], Cleared)
  {
  }

  // Why messages are dropped

  /** The step finds the message held by the worker it moves, at the given place. */
  predicate Holds(s: State, step: Step, pc: Pc) {
    step.Work? && step.i < |s.workers| && s.workers[step.i].pc == pc
  }

  /** What must have happened for a message to be dropped for this reason by this step. */
  ghost predicate Explained(s: State, step: Step, d: Drop) {
    match d.reason
    case NoConnection => Holds(s, step, Deliver(Some(d.message))) && !s.connected
    case EncodeFailed => Holds(s, step, Deliver(Some(d.message))) && s.connected && !step.ok
    case Superseded =>
      && Holds(s, step, Return(Some(d.message))) && s.workers[step.i].epoch < s.epoch
      && d.message.kind in {ExitMeeting, SendUserProfile, RoomSettings}
    case LockTimeout =>
      step == Enqueue(d.message, false) || (Holds(s, step, Return(Some(d.message))) && !step.ok)
    case Evicted => PushesInto(s, step, d.message)
    case Cleared => step == Clear(true) && d.message in s.queue.control + s.queue.text
  }

  /** A push got the lock, and the message was the oldest of a full bucket of the pushed one's kind. */
  ghost predicate PushesInto(s: State, step: Step, oldest: Message) {
    exists m: Message ::
      && (step == Enqueue(m, true) || (Holds(s, step, Return(Some(m))) && step.ok))
      && |BucketOf(s.queue, m)| == QUEUE_MAXSIZE && BucketOf(s.queue, m)[0] == oldest
  }

  /** Texts wait apart from everything else. */
  function BucketOf(q: Queue, m: Message): seq<Message> {
    if m.kind == SendText then q.text else q.control
  }

  ghost predicate Bounded(s: State) {
    |s.queue.control| <= QUEUE_MAXSIZE && |s.queue.text| <= QUEUE_MAXSIZE
  }

  /** A worker on its way out of the loop has been superseded. */
  ghost predicate ReturnsSuperseded(s: State) {
    forall i :: 0 <= i < |s.workers| && s.workers[i].pc.Return? ==> s.workers[i].epoch < s.epoch
  }

  lemma PushDrops(s: State, m: Message, locked: bool)
    requires Bounded(s)
    ensures Bounded(Push(s, m, locked))
    ensures var dropped := Push(s, m, locked).log.dropped;
            if !locked then dropped == s.log.dropped + [Drop(m, LockTimeout)]
            else if |BucketOf(s.queue, m)| == QUEUE_MAXSIZE
            then dropped == s.log.dropped + [Drop(BucketOf(s.queue, m)[0], Evicted)]
            else dropped == s.log.dropped
  {
    if locked {
      var all := s.queue.Bucket(m.Priority()) + [m];
      if |BucketOf(s.queue, m)| == QUEUE_MAXSIZE {
        assert Overflow(s.queue, m) == [all[0]];
        assert DropAll([all[0]], Evicted) == [Drop(all[0], Evicted)];
      } else {
        assert Overflow(s.queue, m) == [];
        assert s.log.dropped + DropAll([], Evicted) == s.log.dropped;
      }
    }
  }

  /** A step adds to the dropped only what it explains. */
  ghost predicate OnlyExplained(s: State, step: Step, s': State) {
    && s.log.dropped <= s'.log.dropped
    && forall n :: |s.log.dropped| <= n < |s'.log.dropped| ==> Explained(s, step, s'.log.dropped[n])
  }

  lemma ReturnExplained(s: State, i: nat, ok: bool)
    requires i < |s.workers| && Bounded(s) && ReturnsSuperseded(s) && s.workers[i].pc.Return?
    ensures OnlyExplained(s, Work(i, ok), WorkerStep(s, i, ok)) && Bounded(WorkerStep(s, i, ok))
  {
    hide Push;
    var held := s.workers[i].pc.held;
    if held.Some? && Protected(held.value.kind) {
      PushDrops(s, held.value, ok);
    }
  }

  lemma WorkExplained(s: State, i: nat, ok: bool)
    requires i < |s.workers| && Bounded(s) && ReturnsSuperseded(s)
    ensures OnlyExplained(s, Work(i, ok), WorkerStep(s, i, ok)) && Bounded(WorkerStep(s, i, ok))
  {
    if s.workers[i].pc.Return? {
      ReturnExplained(s, i, ok);
    } else {
      hide Push;
    }
  }

  lemma NextExplained(s: State, step: Step)
    requires Enabled(s, step) && Bounded(s) && ReturnsSuperseded(s)
    ensures OnlyExplained(s, step, Next(s, step)) && Bounded(Next(s, step))
  {
    hide Push, WorkerStep, HubStep, JoinerGone, WorkerGone;
    match step
    case Enqueue(m, locked) =>
      var accepted := s.(log := s.log.(accepted := s.log.accepted + [m]));
      PushDrops(accepted, m, locked);
    case Work(i, ok) => WorkExplained(s, i, ok);
    case _ =>
  }

  lemma NextKeepsReturns(s: State, step: Step)
    requires Enabled(s, step) && ReturnsSuperseded(s) && EpochsOk(s)
    ensures ReturnsSuperseded(Next(s, step))
  {
    hide Push, HubStep, JoinerGone, WorkerGone, Queue.Tail, Queue.Head, Protected;
    var s' := Next(s, step);
    if step.Work? {
      assert forall j :: 0 <= j < |s.workers| && j != step.i ==> s'.workers[j] == s.workers[j];
    }
  }

  lemma {:induction false} EveryRunReturns(steps: seq<Step>)
    requires Run(INITIAL, steps).Some?
    ensures ReturnsSuperseded(Run(INITIAL, steps).value) && Bounded(Run(INITIAL, steps).value)
  {
    if steps != [] {
      hide Next, Enabled, EpochsOk, ReturnsSuperseded, Bounded;
      var n := |steps| - 1;
      EveryRunReturns(steps[..n]);
      EveryRunEpochs(steps[..n]);
      NextKeepsReturns(Run(INITIAL, steps[..n]).value, steps[n]);
      NextExplained(Run(INITIAL, steps[..n]).value, steps[n]);
    } else {
      NothingReturns();
    }
  }

  lemma NothingReturns()
    ensures ReturnsSuperseded(INITIAL) && Bounded(INITIAL)
  {
  }

  /** In every run, each dropped message was dropped by a step that explains it. */
  lemma {:induction false} EveryDropExplained(steps: seq<Step>, d: nat) returns (n: nat)
    requires Run(INITIAL, steps).Some? && d < |Run(INITIAL, steps).value.log.dropped|
    ensures n < |steps| && Run(INITIAL, steps[..n]).Some?
    ensures var s := Run(INITIAL, steps[..n]).value;
            && |s.log.dropped| <= d && Explained(s, steps[n], Run(INITIAL, steps).value.log.dropped[d])
  {
    hide Next, Enabled, Explained, ReturnsSuperseded, Bounded;
    n := |steps| - 1;
    var before := Run(INITIAL, steps[..n]).value;
    EveryRunReturns(steps[..n]);
    NextExplained(before, steps[n]);
    if d < |before.log.dropped| {
      var last := n;
      n := EveryDropExplained(steps[..last], d);
      assert steps[..last][..n] == steps[..n] && steps[..last][n] == steps[n];
    }
  }

  /** A step sends at most one frame, from a worker at the hand-over, with a connection, as the message it holds. */
  lemma NextSent(s: State, step: Step)
    requires Enabled(s, step)
    ensures var sent := Next(s, step).log.sent;
            || sent == s.log.sent
            || (sent[..|sent| - 1] == s.log.sent && step.Work? && step.ok && s.connected
                && sent[|sent| - 1].worker == step.i
                && Holds(s, step, Deliver(Some(sent[|sent| - 1].message))))
  {
    hide Push, HubStep, JoinerGone, WorkerGone;
  }

  /** In every run, each frame was sent by such a step. */
  lemma {:induction false} EverySentExplained(steps: seq<Step>, f: nat) returns (n: nat)
    requires Run(INITIAL, steps).Some? && f < |Run(INITIAL, steps).value.log.sent|
    ensures n < |steps| && Run(INITIAL, steps[..n]).Some?
    ensures var s, frame := Run(INITIAL, steps[..n]).value, Run(INITIAL, steps).value.log.sent[f];
            && |s.log.sent| == f && steps[n] == Work(frame.worker, true) && s.connected
            && Holds(s, steps[n], Deliver(Some(frame.message)))
  {
    hide Next, Enabled, Holds;
    n := |steps| - 1;
    var before := Run(INITIAL, steps[..n]).value;
    NextSent(before, steps[n]);
    if f < |before.log.sent| {
      var last := n;
      n := EverySentExplained(steps[..last], f);
      assert steps[..last][..n] == steps[..n] && steps[..last][n] == steps[n];
    }
  }

  // A start leads to a sender

  /** With nobody to wait for, a start left alone ends with a sender of the current epoch at the top of its loop. */
  lemma StartSends(steps: seq<Step>, s: State) returns (steps': seq<Step>, s': State, i: nat)
    requires Run(INITIAL, steps) == Some(s) && AsCalled(steps) && NoneBlocks(s.hub)
    requires s.hub.thread == None && s.hub.pendingJoiner == None
    ensures Run(INITIAL, steps') == Some(s')
    ensures s'.running && i < |s'.workers| && s'.workers[i] == Worker(s'.epoch, CheckRunning)
    ensures s'.hub.thread == Some(i) && s'.queue == s.queue && s'.log == s.log && s'.connected == s.connected
  {
    hide Run, AsCalled;
    i := |s.workers|;
    var k := |s.hub.controls|;
    var s1;
    steps', s1 := Extend(INITIAL, steps, s, Call(Start));
    steps', s1 := BeforeClaim(steps', s1, k);
    steps', s' := Claiming(INITIAL, steps', s1, k);
  }
}
