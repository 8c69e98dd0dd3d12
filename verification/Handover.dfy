/**
 The client's sender threads and their replacement by epoch, as a state machine over atomic steps: every load,
 store, queue operation, locked section, wait, delete and hand-over to the connection is one step, and threads
 interleave freely. A timed wait goes on once it sees its thread finished, or gives up at any moment; the delete
 of the thread object after it blocks until the thread has finished, as Qt's has done since 6.3.
 */
module Handover {
  import opened Options
  import opened SendQueue

  datatype Pc =
    | CheckRunning
    | CheckEpoch
    | Take
    | Recheck(held: Option<Message>)
    | Return(held: Option<Message>)
    | Deliver(held: Option<Message>)
    | Exited

  datatype Worker = Worker(epoch: nat, pc: Pc)

  datatype Kind = Start | Stop | StopAsync

  /** A controlling call and where it stands. */
  datatype Control =
    | StoreStopped(kind: Kind)
    | Bump(kind: Kind)
    | TakeThreads(kind: Kind)
    | WaitJoiner(kind: Kind, joiner: Option<nat>, worker: Option<nat>)
    | DeleteJoiner(kind: Kind, joiner: Option<nat>, worker: Option<nat>)
    | WaitWorker(kind: Kind, worker: Option<nat>)
    | DeleteWorker(kind: Kind, worker: Option<nat>)
    | Claim
    | StoreRunning(epoch: nat)
    | Spawn(epoch: nat)
    | Finished
  {
    predicate Claimed() {
      StoreRunning? || Spawn?
    }

    /** A start or a waiting stop that has not returned. */
    predicate Blocking() {
      if StoreStopped? || Bump? || TakeThreads? then kind != StopAsync else !Finished?
    }
  }

  datatype Stage = AwaitPrevious | FreePrevious | AwaitWorker | FreeWorker | Done

  /** A thread that an asynchronous stop leaves behind to wait for an earlier such thread and a worker. */
  datatype Joiner = Joiner(previous: Option<nat>, worker: nat, stage: Stage)

  datatype Reason = Evicted | Cleared | LockTimeout | NoConnection | EncodeFailed | Superseded

  datatype Drop = Drop(message: Message, reason: Reason)

  datatype Frame = Frame(worker: nat, message: Message)

  /** Calls, joiner threads and the two thread pointers. */
  datatype Hub = Hub(controls: seq<Control>, joiners: seq<Joiner>, thread: Option<nat>, pendingJoiner: Option<nat>)

  /** What was ever accepted, handed to the connection and dropped. */
  datatype Log = Log(accepted: seq<Message>, sent: seq<Frame>, dropped: seq<Drop>)

  datatype State = State(running: bool, epoch: nat, queue: Queue, connected: bool, workers: seq<Worker>, hub: Hub,
                         log: Log)

  const INITIAL: State := State(false, 0, EMPTY_QUEUE, false, [], Hub([], [], None, None), Log([], [], []))

  /** The kinds a superseded worker hands back. */
  predicate Protected(kind: MessageKind) {
    kind == CreateMeeting || kind == JoinMeeting || kind == CloseCamera || kind == SendText
  }

  function DropAll(ms: seq<Message>, reason: Reason): (r: seq<Drop>)
    ensures |r| == |ms|
  {
    seq(|ms|, i requires 0 <= i < |ms| => Drop(ms[i], reason))
  }

  /** What falls out of a bucket when a message goes in. */
  function Overflow(q: Queue, m: Message): seq<Message> {
    var all := q.Bucket(m.Priority()) + [m];
    all[..|all| - |Newest(all, QUEUE_MAXSIZE)|]
  }

  function Push(s: State, m: Message, locked: bool): (s': State)
    ensures s' == s.(queue := s'.queue, log := s.log.(dropped := s'.log.dropped))
    ensures forall d :: d in s'.log.dropped ==> d in s.log.dropped || d.reason == Evicted || d.reason == LockTimeout
  {
    if !locked then s.(log := s.log.(dropped := s.log.dropped + [Drop(m, LockTimeout)]))
    else s.(queue := s.queue.Push(m), log := s.log.(dropped := s.log.dropped + DropAll(Overflow(s.queue, m), Evicted)))
  }

  // Workers

  function At(s: State, i: nat, pc: Pc): State
    requires i < |s.workers|
  {
    s.(workers := s.workers[i := s.workers[i].(pc := pc)])
  }

  /** One atomic step of send_loop; ok is whether a lock is got in time or an encoding succeeds. */
  function WorkerStep(s: State, i: nat, ok: bool): State
    requires i < |s.workers|
  {
    var w := s.workers[i];
    match w.pc
    case CheckRunning => At(s, i, if s.running then CheckEpoch else Exited)
    case CheckEpoch => At(s, i, if s.epoch == w.epoch then Take else Exited)
    case Take => At(s.(queue := s.queue.Tail()), i, Recheck(s.queue.Head()))
    case Recheck(held) => At(s, i, if s.epoch != w.epoch then Return(held) else Deliver(held))
    case Return(held) =>
      if held.None? then At(s, i, Exited)
      else if Protected(held.value.kind) then At(Push(s, held.value, ok), i, Exited)
      else At(s.(log := s.log.(dropped := s.log.dropped + [Drop(held.value, Superseded)])), i, Exited)
    case Deliver(held) =>
      if held.None? then At(s, i, CheckRunning)
      else if !s.connected || !ok then
        var reason := if s.connected then EncodeFailed else NoConnection;
        At(s.(log := s.log.(dropped := s.log.dropped + [Drop(held.value, reason)])), i, CheckRunning)
      else At(s.(log := s.log.(sent := s.log.sent + [Frame(i, held.value)])), i, CheckRunning)
    case Exited => s
  }

  // Controllers

  predicate WorkerGone(s: State, i: Option<nat>) {
    i.None? || i.value >= |s.workers| || s.workers[i.value].pc == Exited
  }

  predicate JoinerGone(h: Hub, j: Option<nat>) {
    j.None? || j.value >= |h.joiners| || h.joiners[j.value].stage == Done
  }

  /** The locked section of an asynchronous stop: the worker, if any, is left to a new joiner. */
  function LeaveToJoiner(h: Hub): Hub {
    if h.thread.None? then h
    else h.(joiners := h.joiners + [Joiner(h.pendingJoiner, h.thread.value, AwaitPrevious)],
            pendingJoiner := Some(|h.joiners|), thread := None)
  }

  function Put(h: Hub, k: nat, c: Control): Hub
    requires k < |h.controls|
  {
    h.(controls := h.controls[k := c])
  }

  /** What a controlling call's atomic step does to the hub. */
  function HubStep(s: State, k: nat, giveUp: bool): Hub
    requires k < |s.hub.controls|
  {
    var h := s.hub;
    match h.controls[k]
    case StoreStopped(kind) => Put(h, k, Bump(kind))
    case Bump(kind) => Put(h, k, TakeThreads(kind))
    case TakeThreads(kind) =>
      if kind == StopAsync then LeaveToJoiner(Put(h, k, Finished))
      else Put(h, k, WaitJoiner(kind, h.pendingJoiner, h.thread)).(pendingJoiner := None, thread := None)
    case WaitJoiner(kind, joiner, worker) =>
      if JoinerGone(h, joiner) || giveUp then Put(h, k, DeleteJoiner(kind, joiner, worker)) else h
    case DeleteJoiner(kind, joiner, worker) =>
      if JoinerGone(h, joiner) then Put(h, k, WaitWorker(kind, worker)) else h
    case WaitWorker(kind, worker) =>
      if WorkerGone(s, worker) || giveUp then Put(h, k, DeleteWorker(kind, worker)) else h
    case DeleteWorker(kind, worker) =>
      if WorkerGone(s, worker) then Put(h, k, if kind == Start then Claim else Finished) else h
    case Claim => Put(h, k, StoreRunning(s.epoch + 1))
    case StoreRunning(epoch) => Put(h, k, Spawn(epoch))
    case Spawn(epoch) => Put(h, k, Finished).(thread := Some(|s.workers|))
    case Finished => h
  }

  /** One atomic step of a controlling call. */
  function ControlStep(s: State, k: nat, giveUp: bool): State
    requires k < |s.hub.controls|
  {
    var c := s.hub.controls[k];
    s.(running := if c.StoreStopped? then false else if c.StoreRunning? then true else s.running,
       epoch := if c.Bump? || c.Claim? then s.epoch + 1 else s.epoch,
       workers := if c.Spawn? then s.workers + [Worker(c.epoch, CheckRunning)] else s.workers,
       hub := HubStep(s, k, giveUp))
  }

  /** One atomic step of a joiner thread. */
  function JoinerStep(s: State, j: nat, giveUp: bool): State
    requires j < |s.hub.joiners|
  {
    var t := s.hub.joiners[j];
    var stage :=
      match t.stage
      case AwaitPrevious => if JoinerGone(s.hub, t.previous) || giveUp then FreePrevious else t.stage
      case FreePrevious => if JoinerGone(s.hub, t.previous) then AwaitWorker else t.stage
      case AwaitWorker => if WorkerGone(s, Some(t.worker)) || giveUp then FreeWorker else t.stage
      case FreeWorker => if WorkerGone(s, Some(t.worker)) then Done else t.stage
      case Done => Done;
    s.(hub := s.hub.(joiners := s.hub.joiners[j := t.(stage := stage)]))
  }

  // Steps

  datatype Step =
    | Enqueue(m: Message, locked: bool)
    | Clear(done: bool)
    | Connect(connected: bool)
    | Call(kind: Kind)
    | Advance(k: nat, giveUp: bool)
    | Reap(j: nat, giveUp: bool)
    | Work(i: nat, ok: bool)

  predicate Enabled(s: State, step: Step) {
    && (step.Advance? ==> step.k < |s.hub.controls|)
    && (step.Reap? ==> step.j < |s.hub.joiners|)
    && (step.Work? ==> step.i < |s.workers|)
  }

  function Next(s: State, step: Step): State
    requires Enabled(s, step)
  {
    match step
    case Enqueue(m, locked) => Push(s.(log := s.log.(accepted := s.log.accepted + [m])), m, locked)
    case Clear(done) =>
      if !done then s
      else s.(queue := EMPTY_QUEUE,
                log := s.log.(dropped := s.log.dropped + DropAll(s.queue.control + s.queue.text, Cleared)))
    case Connect(connected) => s.(connected := connected)
    case Call(kind) => s.(hub := s.hub.(controls := s.hub.controls + [StoreStopped(kind)]))
    case Advance(k, giveUp) => ControlStep(s, k, giveUp)
    case Reap(j, giveUp) => JoinerStep(s, j, giveUp)
    case Work(i, ok) => WorkerStep(s, i, ok)
  }

  /** The state after some steps, if each was possible when it was taken. */
  function Run(s: State, steps: seq<Step>): Option<State> {
    if steps == [] then Some(s)
    else
      var n := |steps| - 1;
      var before := Run(s, steps[..n]);
      if before.Some? && Enabled(before.value, steps[n]) then Some(Next(before.value, steps[n])) else None
  }

  ghost predicate NoneBlocks(h: Hub) {
    forall k :: 0 <= k < |h.controls| ==> !h.controls[k].Blocking()
  }

  /**
   How the program calls: starts and waiting stops from one thread, each when the earlier ones have returned, and
   asynchronous stops from another at any time.
  */
  ghost predicate AsCalled(steps: seq<Step>) {
    forall n :: 0 <= n < |steps| && steps[n].Call? && steps[n].kind != StopAsync && Run(INITIAL, steps[..n]).Some? ==>
      NoneBlocks(Run(INITIAL, steps[..n]).value.hub)
  }

  // Conservation

  function Count(ms: seq<Message>, m: Message): nat {
    multiset(ms)[m]
  }

  function One(a: Message, m: Message): nat {
    if a == m then 1 else 0
  }

  function Holding(pc: Pc, m: Message): nat {
    if (pc.Recheck? || pc.Return? || pc.Deliver?) && pc.held == Some(m) then 1 else 0
  }

  function Held(workers: seq<Worker>, m: Message): nat {
    if workers == [] then 0
    else Held(workers[..|workers| - 1], m) + Holding(workers[|workers| - 1].pc, m)
  }

  function SentTimes(sent: seq<Frame>, m: Message): nat {
    if sent == [] then 0 else SentTimes(sent[..|sent| - 1], m) + One(sent[|sent| - 1].message, m)
  }

  function DroppedTimes(dropped: seq<Drop>, m: Message): nat {
    if dropped == [] then 0
    else DroppedTimes(dropped[..|dropped| - 1], m) + One(dropped[|dropped| - 1].message, m)
  }

  function Queued(q: Queue, m: Message): nat {
    Count(q.control, m) + Count(q.text, m)
  }

  function Placed(s: State, m: Message): nat {
    Queued(s.queue, m) + Held(s.workers, m) + SentTimes(s.log.sent, m) + DroppedTimes(s.log.dropped, m)
  }

  /**
   Each message is queued, held by a worker, handed to the connection or dropped exactly as many times as it
   was accepted.
  */
  ghost predicate Conserved(s: State) {
    forall m :: Placed(s, m) == Count(s.log.accepted, m)
  }

  lemma {:induction false} HeldUpdate(workers: seq<Worker>, i: nat, w: Worker, m: Message)
    requires i < |workers|
    ensures Held(workers[i := w], m) + Holding(workers[i].pc, m) == Held(workers, m) + Holding(w.pc, m)
    decreases |workers|
  {
    var n := |workers| - 1;
    if i == n {
      assert workers[i := w][..n] == workers[..n];
    } else {
      assert workers[i := w][..n] == workers[..n][i := w];
      HeldUpdate(workers[..n], i, w, m);
    }
  }

  lemma {:induction false} DroppedMore(dropped: seq<Drop>, ms: seq<Message>, reason: Reason, m: Message)
    ensures DroppedTimes(dropped + DropAll(ms, reason), m) == DroppedTimes(dropped, m) + Count(ms, m)
    decreases |ms|
  {
    if ms == [] {
      assert dropped + DropAll(ms, reason) == dropped;
    } else {
      var n := |ms| - 1;
      DroppedMore(dropped, ms[..n], reason, m);
      assert (dropped + DropAll(ms, reason))[..|dropped| + n] == dropped + DropAll(ms[..n], reason);
      assert ms == ms[..n] + [ms[n]];
    }
  }

  lemma DroppedOne(dropped: seq<Drop>, d: Drop, m: Message)
    ensures DroppedTimes(dropped + [d], m) == DroppedTimes(dropped, m) + One(d.message, m)
  {
    assert (dropped + [d])[..|dropped|] == dropped;
  }

  lemma SentOne(sent: seq<Frame>, f: Frame, m: Message)
    ensures SentTimes(sent + [f], m) == SentTimes(sent, m) + One(f.message, m)
  {
    assert (sent + [f])[..|sent|] == sent;
  }

  lemma HeldOneMore(workers: seq<Worker>, w: Worker, m: Message)
    ensures Held(workers + [w], m) == Held(workers, m) + Holding(w.pc, m)
  {
    assert (workers + [w])[..|workers|] == workers;
  }

  lemma CountSplit(all: seq<Message>, n: nat, m: Message)
    requires n <= |all|
    ensures Count(all, m) == Count(all[..n], m) + Count(all[n..], m)
  {
    assert all == all[..n] + all[n..];
  }

  lemma CountMore(ms: seq<Message>, a: Message, m: Message)
    ensures Count(ms + [a], m) == Count(ms, m) + One(a, m)
  {
  }

  /** A push puts one more message among the queued and the dropped. */
  lemma PushConserves(s: State, a: Message, locked: bool, m: Message)
    ensures Placed(Push(s, a, locked), m) == Placed(s, m) + One(a, m)
  {
    hide Held, SentTimes, DroppedTimes, Count;
    if locked {
      var bucket := s.queue.Bucket(a.Priority());
      var all := bucket + [a];
      DroppedMore(s.log.dropped, Overflow(s.queue, a), Evicted, m);
      CountMore(bucket, a, m);
      CountSplit(all, |all| - |Newest(all, QUEUE_MAXSIZE)|, m);
      assert all[|all| - |Newest(all, QUEUE_MAXSIZE)|..] == Newest(all, QUEUE_MAXSIZE);
    } else {
      DroppedOne(s.log.dropped, Drop(a, LockTimeout), m);
    }
  }

  /** A pop takes one queued message, the head, or none. */
  lemma PopConserves(q: Queue, m: Message)
    ensures Queued(q, m) == Queued(q.Tail(), m) + if q.Head() == Some(m) then 1 else 0
  {
    if q.control != [] {
      CountSplit(q.control, 1, m);
    } else if q.text != [] {
      CountSplit(q.text, 1, m);
    }
  }

  /** Going on to another place passes on what was held and what is held then. */
  lemma AtConserves(s: State, i: nat, to: Pc, m: Message)
    requires i < |s.workers|
    ensures Placed(At(s, i, to), m) + Holding(s.workers[i].pc, m) == Placed(s, m) + Holding(to, m)
  {
    HeldUpdate(s.workers, i, s.workers[i].(pc := to), m);
  }

  lemma ReturnConserves(s: State, i: nat, ok: bool, m: Message)
    requires i < |s.workers| && s.workers[i].pc.Return?
    ensures Placed(WorkerStep(s, i, ok), m) == Placed(s, m)
  {
    hide Held, SentTimes, DroppedTimes, Queued, Push, Protected, At;
    var held := s.workers[i].pc.held;
    if held.None? {
      AtConserves(s, i, Exited, m);
    } else if Protected(held.value.kind) {
      PushConserves(s, held.value, ok, m);
      PushFrame(s, held.value, ok);
      AtConserves(Push(s, held.value, ok), i, Exited, m);
    } else {
      var d := Drop(held.value, Superseded);
      DroppedOne(s.log.dropped, d, m);
      AtConserves(s.(log := s.log.(dropped := s.log.dropped + [d])), i, Exited, m);
    }
  }

  lemma PushFrame(s: State, a: Message, locked: bool)
    ensures Push(s, a, locked).workers == s.workers
  {
  }

  lemma DeliverConserves(s: State, i: nat, ok: bool, m: Message)
    requires i < |s.workers| && s.workers[i].pc.Deliver?
    ensures Placed(WorkerStep(s, i, ok), m) == Placed(s, m)
  {
    hide Held, SentTimes, DroppedTimes, Queued, At;
    var held := s.workers[i].pc.held;
    if held.None? {
      AtConserves(s, i, CheckRunning, m);
    } else if s.connected && ok {
      SentOne(s.log.sent, Frame(i, held.value), m);
      AtConserves(s.(log := s.log.(sent := s.log.sent + [Frame(i, held.value)])), i, CheckRunning, m);
    } else {
      var d := Drop(held.value, if s.connected then EncodeFailed else NoConnection);
      DroppedOne(s.log.dropped, d, m);
      AtConserves(s.(log := s.log.(dropped := s.log.dropped + [d])), i, CheckRunning, m);
    }
  }

  lemma WorkerConserves(s: State, i: nat, ok: bool, m: Message)
    requires i < |s.workers|
    ensures Placed(WorkerStep(s, i, ok), m) == Placed(s, m)
  {
    hide Held, SentTimes, DroppedTimes, Queued, Push, Queue.Tail, Queue.Head, Protected, At;
    match s.workers[i].pc
    case Take =>
      PopConserves(s.queue, m);
      AtConserves(s.(queue := s.queue.Tail()), i, Recheck(s.queue.Head()), m);
    case Return(_) => ReturnConserves(s, i, ok, m);
    case Deliver(_) => DeliverConserves(s, i, ok, m);
    case Exited =>
    case CheckRunning => AtConserves(s, i, if s.running then CheckEpoch else Exited, m);
    case CheckEpoch => AtConserves(s, i, if s.epoch == s.workers[i].epoch then Take else Exited, m);
    case Recheck(held) =>
      AtConserves(s, i, if s.epoch != s.workers[i].epoch then Return(held) else Deliver(held), m);
  }

  lemma NextConserves(s: State, step: Step, m: Message)
    requires Enabled(s, step)
    ensures Placed(Next(s, step), m) - Count(Next(s, step).log.accepted, m) == Placed(s, m) - Count(s.log.accepted, m)
  {
    hide Held, SentTimes, DroppedTimes, Count, HubStep, WorkerStep, Push, JoinerGone, WorkerGone;
    match step
    case Enqueue(a, locked) =>
      PushConserves(s.(log := s.log.(accepted := s.log.accepted + [a])), a, locked, m);
      CountMore(s.log.accepted, a, m);
    case Clear(done) =>
      if done {
        DroppedMore(s.log.dropped, s.queue.control + s.queue.text, Cleared, m);
        CountSplit(s.queue.control + s.queue.text, |s.queue.control|, m);
        CountNone(m);
      }
    case Advance(k, giveUp) =>
      if s.hub.controls[k].Spawn? {
        HeldOneMore(s.workers, Worker(s.hub.controls[k].epoch, CheckRunning), m);
      }
    case Work(i, ok) =>
      WorkerConserves(s, i, ok, m);
      WorkerStepFrame(s, i, ok);
    case _ =>
  }

  lemma CountNone(m: Message)
    ensures Count([], m) == 0
  {
  }

  /** Whatever the interleaving, no accepted message is lost track of or handed over in excess. */
  lemma {:induction false} EveryRunConserves(steps: seq<Step>)
    requires Run(INITIAL, steps).Some?
    ensures Conserved(Run(INITIAL, steps).value)
  {
    if steps != [] {
      var n := |steps| - 1;
      EveryRunConserves(steps[..n]);
      hide Placed, Next, Count;
      var before := Run(INITIAL, steps[..n]).value;
      forall m
        ensures Placed(Next(before, steps[n]), m) == Count(Next(before, steps[n]).log.accepted, m)
      {
        NextConserves(before, steps[n], m);
      }
    } else {
      assert forall m :: Placed(INITIAL, m) == Count(INITIAL.log.accepted, m);
    }
  }

  /** A message accepted once is in exactly one place, and was handed to the connection at most once. */
  lemma OnePlace(steps: seq<Step>, m: Message)
    requires Run(INITIAL, steps).Some? && Count(Run(INITIAL, steps).value.log.accepted, m) == 1
    ensures var s := Run(INITIAL, steps).value;
            var places := multiset{Queued(s.queue, m), Held(s.workers, m),
                                   SentTimes(s.log.sent, m), DroppedTimes(s.log.dropped, m)};
            places == multiset{1, 0, 0, 0}
  {
    hide Run, Count, Held, Queued, SentTimes, DroppedTimes;
    EveryRunConserves(steps);
    assert Placed(Run(INITIAL, steps).value, m) == 1;
  }

  // Handing back

  /** No protected message is dropped because its worker was superseded. */
  ghost predicate ProtectedKept(s: State) {
    forall d :: d in s.log.dropped && d.reason == Superseded ==> !Protected(d.message.kind)
  }

  lemma NextKeepsProtected(s: State, step: Step)
    requires Enabled(s, step) && ProtectedKept(s)
    ensures ProtectedKept(Next(s, step))
  {
    hide Push, HubStep, JoinerGone, WorkerGone;
  }

  lemma {:induction false} EveryRunKeepsProtected(steps: seq<Step>)
    requires Run(INITIAL, steps).Some?
    ensures ProtectedKept(Run(INITIAL, steps).value)
  {
    if steps != [] {
      var n := |steps| - 1;
      EveryRunKeepsProtected(steps[..n]);
      NextKeepsProtected(Run(INITIAL, steps[..n]).value, steps[n]);
    }
  }

  lemma Extend(from: State, steps: seq<Step>, s: State, step: Step) returns (steps': seq<Step>, s': State)
    requires Run(from, steps) == Some(s) && Enabled(s, step)
    ensures s' == Next(s, step) && Run(from, steps') == Some(s')
    ensures from == INITIAL && AsCalled(steps) && (step.Call? ==> NoneBlocks(s.hub)) ==> AsCalled(steps')
  {
    steps' := steps + [step];
    s' := Next(s, step);
    assert steps'[..|steps|] == steps;
    forall n | 0 <= n < |steps|
      ensures steps'[..n] == steps[..n]
    {
    }
  }

  /** One started worker that has just found its epoch current. */
  lemma StartedRun() returns (steps: seq<Step>, s: State)
    ensures Run(INITIAL, steps) == Some(s)
    ensures s == INITIAL.(running := true, epoch := 2, workers := [Worker(2, Take)],
                          hub := Hub([Finished], [], Some(0), None))
    ensures AsCalled(steps)
  {
    hide Run, AsCalled;
    steps, s := [], INITIAL;
    RunNothing(INITIAL);
    steps, s := Extend(INITIAL, steps, s, Call(Start));
    steps, s := Extend(INITIAL, steps, s, Advance(0, false));
    steps, s := Extend(INITIAL, steps, s, Advance(0, false));
    steps, s := Extend(INITIAL, steps, s, Advance(0, false));
    steps, s := Extend(INITIAL, steps, s, Advance(0, false));
    steps, s := Extend(INITIAL, steps, s, Advance(0, false));
    steps, s := Extend(INITIAL, steps, s, Advance(0, false));
    steps, s := Extend(INITIAL, steps, s, Advance(0, false));
    steps, s := Extend(INITIAL, steps, s, Advance(0, false));
    steps, s := Extend(INITIAL, steps, s, Advance(0, false));
    steps, s := Extend(INITIAL, steps, s, Advance(0, false));
    steps, s := Extend(INITIAL, steps, s, Work(0, true));
    steps, s := Extend(INITIAL, steps, s, Work(0, true));
  }

  lemma RunNothing(from: State)
    ensures Run(from, []) == Some(from) && AsCalled([])
  {
  }

  /** A stop between a worker's pop and its second look at the epoch costs an unprotected message. */
  lemma LossRun(m: Message) returns (steps: seq<Step>, s: State)
    requires !Protected(m.kind)
    ensures Run(INITIAL, steps) == Some(s) && s.log.dropped == [Drop(m, Superseded)]
  {
    hide Run, AsCalled;
    steps, s := StartedRun();
    steps, s := Extend(INITIAL, steps, s, Enqueue(m, true));
    assert s.queue == Queue([m], []) && s.log.dropped == [];
    steps, s := Extend(INITIAL, steps, s, Work(0, true));
    steps, s := Extend(INITIAL, steps, s, Call(Stop));
    steps, s := Extend(INITIAL, steps, s, Advance(1, false));
    steps, s := Extend(INITIAL, steps, s, Advance(1, false));
    steps, s := Extend(INITIAL, steps, s, Work(0, true));
    assert s.workers[0].pc == Return(Some(m));
    steps, s := Extend(INITIAL, steps, s, Work(0, true));
  }

  ghost predicate LostAtHandover(steps: seq<Step>, kind: MessageKind) {
    && Run(INITIAL, steps).Some?
    && exists d :: d in Run(INITIAL, steps).value.log.dropped && d.reason == Superseded && d.message.kind == kind
  }

  /** Replacing a worker can lose a message of exactly the kinds that are not handed back. */
  lemma LossesAtHandover(kind: MessageKind)
    ensures (exists steps :: LostAtHandover(steps, kind))
            <==> kind == ExitMeeting || kind == SendUserProfile || kind == RoomSettings
  {
    if Protected(kind) {
      forall steps | Run(INITIAL, steps).Some?
        ensures !LostAtHandover(steps, kind)
      {
        EveryRunKeepsProtected(steps);
      }
    } else {
      var steps, s := LossRun(Message(0, kind));
      assert s.log.dropped[0] in s.log.dropped;
      assert LostAtHandover(steps, kind);
    }
  }

  // Epochs

  /** Every epoch ever claimed is at most the current one, and belongs to one worker or one starting call. */
  ghost predicate EpochsOk(s: State) {
    && (forall i :: 0 <= i < |s.workers| ==> s.workers[i].epoch <= s.epoch)
    && (forall i, j :: 0 <= i < j < |s.workers| ==> s.workers[i].epoch != s.workers[j].epoch)
    && (forall k :: 0 <= k < |s.hub.controls| && s.hub.controls[k].Claimed() ==>
          && s.hub.controls[k].epoch <= s.epoch
          && forall i :: 0 <= i < |s.workers| ==> s.workers[i].epoch != s.hub.controls[k].epoch)
    && (forall k, l :: 0 <= k < l < |s.hub.controls| && s.hub.controls[k].Claimed() && s.hub.controls[l].Claimed() ==>
          s.hub.controls[k].epoch != s.hub.controls[l].epoch)
  }

  /** Only the queue, the log's ends and worker i's place differ. */
  predicate WorkerMoved(s: State, i: nat, s': State)
    requires i < |s.workers|
  {
    && |s'.workers| == |s.workers|
    && s' == s.(queue := s'.queue, workers := s.workers[i := s.workers[i].(pc := s'.workers[i].pc)],
                log := s.log.(sent := s'.log.sent, dropped := s'.log.dropped))
  }

  lemma AtMoves(s: State, i: nat, s1: State, to: Pc)
    requires i < |s.workers|
    requires s1 == s.(queue := s1.queue, log := s.log.(sent := s1.log.sent, dropped := s1.log.dropped))
    ensures WorkerMoved(s, i, At(s1, i, to)) && At(s1, i, to).workers[i].pc == to
  {
  }

  /** What a worker's step leaves alone. */
  lemma WorkerStepFrame(s: State, i: nat, ok: bool)
    requires i < |s.workers|
    ensures WorkerMoved(s, i, WorkerStep(s, i, ok))
    ensures s.workers[i].pc == Exited ==> WorkerStep(s, i, ok).workers[i].pc == Exited
  {
    hide Push, Queue.Tail, Queue.Head, Protected, At, WorkerMoved;
    var w := s.workers[i];
    match w.pc
    case CheckRunning => AtMoves(s, i, s, if s.running then CheckEpoch else Exited);
    case CheckEpoch => AtMoves(s, i, s, if s.epoch == w.epoch then Take else Exited);
    case Take => AtMoves(s, i, s.(queue := s.queue.Tail()), Recheck(s.queue.Head()));
    case Recheck(held) => AtMoves(s, i, s, if s.epoch != w.epoch then Return(held) else Deliver(held));
    case Return(held) =>
      if held.None? {
        AtMoves(s, i, s, Exited);
      } else if Protected(held.value.kind) {
        PushMoves(s, held.value, ok);
        AtMoves(s, i, Push(s, held.value, ok), Exited);
      } else {
        AtMoves(s, i, s.(log := s.log.(dropped := s.log.dropped + [Drop(held.value, Superseded)])), Exited);
      }
    case Deliver(held) =>
      if held.None? {
        AtMoves(s, i, s, CheckRunning);
      } else if !s.connected || !ok {
        var d := Drop(held.value, if s.connected then EncodeFailed else NoConnection);
        AtMoves(s, i, s.(log := s.log.(dropped := s.log.dropped + [d])), CheckRunning);
      } else {
        AtMoves(s, i, s.(log := s.log.(sent := s.log.sent + [Frame(i, held.value)])), CheckRunning);
      }
    case Exited => NoMove(s, i);
  }

  lemma PushMoves(s: State, m: Message, locked: bool)
    ensures var s' := Push(s, m, locked);
            s' == s.(queue := s'.queue, log := s.log.(sent := s'.log.sent, dropped := s'.log.dropped))
  {
  }

  lemma NoMove(s: State, i: nat)
    requires i < |s.workers|
    ensures WorkerMoved(s, i, s)
  {
    assert s.workers[i := s.workers[i]] == s.workers;
  }

  lemma WorkerKeepsEpochs(s: State, i: nat, ok: bool)
    requires i < |s.workers| && EpochsOk(s)
    ensures EpochsOk(WorkerStep(s, i, ok)) && WorkerStep(s, i, ok).epoch == s.epoch
  {
    hide WorkerStep;
    WorkerStepFrame(s, i, ok);
    var s' := WorkerStep(s, i, ok);
    assert forall j :: 0 <= j < |s.workers| ==> s'.workers[j].epoch == s.workers[j].epoch;
  }

  lemma ClaimKeepsEpochs(s: State, k: nat, giveUp: bool)
    requires k < |s.hub.controls| && EpochsOk(s) && s.hub.controls[k].Claim?
    ensures EpochsOk(ControlStep(s, k, giveUp)) && s.epoch <= ControlStep(s, k, giveUp).epoch
  {
    var s' := ControlStep(s, k, giveUp);
    assert forall l :: 0 <= l < |s.hub.controls| && l != k ==> s'.hub.controls[l] == s.hub.controls[l];
  }

  lemma SpawnKeepsEpochs(s: State, k: nat, giveUp: bool)
    requires k < |s.hub.controls| && EpochsOk(s) && s.hub.controls[k].Spawn?
    ensures EpochsOk(ControlStep(s, k, giveUp)) && s.epoch <= ControlStep(s, k, giveUp).epoch
  {
    var s' := ControlStep(s, k, giveUp);
    assert forall l :: 0 <= l < |s.hub.controls| && l != k ==> s'.hub.controls[l] == s.hub.controls[l];
    assert forall i :: 0 <= i < |s.workers| ==> s'.workers[i] == s.workers[i];
  }

  /** A call's step changes its own place only, and claims an epoch only where it says so. */
  lemma HubStepCalls(s: State, k: nat, giveUp: bool)
    requires k < |s.hub.controls|
    ensures var s' := ControlStep(s, k, giveUp);
            && |s'.hub.controls| == |s.hub.controls| && s'.hub.controls == s.hub.controls[k := s'.hub.controls[k]]
            && (s'.hub.controls[k].Claimed() ==>
                  || s.hub.controls[k].Claim?
                  || (s.hub.controls[k].Claimed() && s'.hub.controls[k].epoch == s.hub.controls[k].epoch))
  {
  }

  lemma ControlKeepsEpochs(s: State, k: nat, giveUp: bool)
    requires k < |s.hub.controls| && EpochsOk(s) && !s.hub.controls[k].Claim? && !s.hub.controls[k].Spawn?
    ensures EpochsOk(ControlStep(s, k, giveUp)) && s.epoch <= ControlStep(s, k, giveUp).epoch
  {
    hide HubStep;
    HubStepCalls(s, k, giveUp);
    var s' := ControlStep(s, k, giveUp);
    assert forall l :: 0 <= l < |s.hub.controls| && s'.hub.controls[l].Claimed() ==>
        s.hub.controls[l].Claimed() && s'.hub.controls[l].epoch == s.hub.controls[l].epoch;
  }

  lemma NextKeepsEpochs(s: State, step: Step)
    requires Enabled(s, step) && EpochsOk(s)
    ensures EpochsOk(Next(s, step)) && s.epoch <= Next(s, step).epoch
  {
    hide HubStep, WorkerStep, Push, JoinerGone, WorkerGone;
    match step
    case Work(i, ok) => WorkerKeepsEpochs(s, i, ok);
    case Advance(k, giveUp) =>
      if s.hub.controls[k].Claim? {
        ClaimKeepsEpochs(s, k, giveUp);
      } else if s.hub.controls[k].Spawn? {
        SpawnKeepsEpochs(s, k, giveUp);
      } else {
        ControlKeepsEpochs(s, k, giveUp);
      }
    case Call(kind) =>
      assert !Next(s, step).hub.controls[|s.hub.controls|].Claimed();
      assert forall l :: 0 <= l < |s.hub.controls| ==> Next(s, step).hub.controls[l] == s.hub.controls[l];
    case _ =>
  }

  lemma {:induction false} EveryRunEpochs(steps: seq<Step>)
    requires Run(INITIAL, steps).Some?
    ensures EpochsOk(Run(INITIAL, steps).value)
  {
    if steps != [] {
      var n := |steps| - 1;
      EveryRunEpochs(steps[..n]);
      NextKeepsEpochs(Run(INITIAL, steps[..n]).value, steps[n]);
    }
  }

  /** At most one worker carries the current epoch, whether or not joins waited. */
  lemma OneCurrentWorker(steps: seq<Step>, i: nat, j: nat)
    requires Run(INITIAL, steps).Some?
    requires i < |Run(INITIAL, steps).value.workers| && j < |Run(INITIAL, steps).value.workers|
    requires Run(INITIAL, steps).value.workers[i].epoch == Run(INITIAL, steps).value.epoch
    requires Run(INITIAL, steps).value.workers[j].epoch == Run(INITIAL, steps).value.epoch
    ensures i == j
  {
    EveryRunEpochs(steps);
  }

  // Superseded workers

  ghost predicate IsSuperseded(s: State, i: nat) {
    i < |s.workers| && s.workers[i].epoch < s.epoch
  }

  function FramesBy(sent: seq<Frame>, i: nat): nat {
    if sent == [] then 0
    else FramesBy(sent[..|sent| - 1], i) + if sent[|sent| - 1].worker == i then 1 else 0
  }

  /** Frames a superseded worker may still hand over. */
  function Allowance(pc: Pc): nat {
    if pc.Deliver? && pc.held.Some? then 1 else 0
  }

  /** Steps of its own a superseded worker may still take. */
  function Rank(pc: Pc): nat {
    match pc
    case CheckRunning => 2
    case CheckEpoch => 1
    case Take => 3
    case Recheck(_) => 2
    case Return(_) => 1
    case Deliver(_) => 3
    case Exited => 0
  }

  function Turns(steps: seq<Step>, i: nat): nat {
    if steps == [] then 0
    else Turns(steps[..|steps| - 1], i) + if steps[|steps| - 1].Work? && steps[|steps| - 1].i == i then 1 else 0
  }

  lemma SupersededStep(s: State, step: Step, i: nat)
    requires Enabled(s, step) && IsSuperseded(s, i)
    ensures IsSuperseded(Next(s, step), i)
    ensures var s' := Next(s, step);
            FramesBy(s'.log.sent, i) + Allowance(s'.workers[i].pc)
            <= FramesBy(s.log.sent, i) + Allowance(s.workers[i].pc)
    ensures var rank, rank' := Rank(s.workers[i].pc), Rank(Next(s, step).workers[i].pc);
            if step.Work? && step.i == i && rank > 0 then rank' < rank else rank' == rank
  {
    hide FramesBy, WorkerStep, HubStep, Push, Rank, Allowance, JoinerGone, WorkerGone;
    match step
    case Advance(k, giveUp) =>
      HubStepCalls(s, k, giveUp);
    case Work(j, ok) =>
      WorkerStepFrame(s, j, ok);
      FramesByWorker(s, j, ok, i);
      OwnStep(s, i, ok);
    case _ =>
  }

  /** A superseded worker's own step brings it nearer to its end and never back to a hand-over. */
  lemma OwnStep(s: State, i: nat, ok: bool)
    requires IsSuperseded(s, i)
    ensures var pc, pc' := s.workers[i].pc, WorkerStep(s, i, ok).workers[i].pc;
            Allowance(pc') == 0 && if Rank(pc) > 0 then Rank(pc') < Rank(pc) else Rank(pc') == 0
  {
    hide Push, Queue.Tail, Queue.Head, Protected;
  }

  /** A worker's step hands over a frame only when it stands at Deliver. */
  lemma FramesByWorker(s: State, j: nat, ok: bool, i: nat)
    requires j < |s.workers|
    ensures FramesBy(WorkerStep(s, j, ok).log.sent, i)
            <= FramesBy(s.log.sent, i) + if j == i then Allowance(s.workers[j].pc) else 0
  {
    hide Push;
    var sent := WorkerStep(s, j, ok).log.sent;
    if sent != s.log.sent {
      assert sent[..|s.log.sent|] == s.log.sent;
    }
  }

  /** Once superseded, a worker hands over at most one more frame, and none unless it stands ready to. */
  lemma {:induction false} SupersededSendsOnce(s: State, steps: seq<Step>, i: nat)
    requires IsSuperseded(s, i) && Run(s, steps).Some?
    ensures IsSuperseded(Run(s, steps).value, i)
    ensures var s' := Run(s, steps).value;
            FramesBy(s'.log.sent, i) + Allowance(s'.workers[i].pc)
            <= FramesBy(s.log.sent, i) + Allowance(s.workers[i].pc)
  {
    if steps != [] {
      var n := |steps| - 1;
      SupersededSendsOnce(s, steps[..n], i);
      SupersededStep(Run(s, steps[..n]).value, steps[n], i);
    }
  }

  ghost predicate SendsMore(s: State, steps: seq<Step>, i: nat) {
    Run(s, steps).Some? && FramesBy(Run(s, steps).value.log.sent, i) > FramesBy(s.log.sent, i)
  }

  /** Some continuation has a superseded worker send exactly when it already stands at the hand-over with a message. */
  lemma SupersededSends(s: State, i: nat)
    requires IsSuperseded(s, i)
    ensures (exists steps :: SendsMore(s, steps, i))
            <==> s.workers[i].pc.Deliver? && s.workers[i].pc.held.Some?
  {
    if s.workers[i].pc.Deliver? && s.workers[i].pc.held.Some? {
      var connected := s.(connected := true);
      assert Run(s, []) == Some(s);
      assert [Connect(true)][..0] == [];
      assert Run(s, [Connect(true)]) == Some(connected);
      assert [Connect(true), Work(i, true)][..1] == [Connect(true)];
      var after := WorkerStep(connected, i, true);
      assert Run(s, [Connect(true), Work(i, true)]) == Some(after);
      assert after.log.sent[..|s.log.sent|] == s.log.sent;
      assert SendsMore(s, [Connect(true), Work(i, true)], i);
    } else {
      forall steps | Run(s, steps).Some?
        ensures !SendsMore(s, steps, i)
      {
        SupersededSendsOnce(s, steps, i);
      }
    }
  }

  /** And it is gone after three more steps of its own. */
  lemma {:induction false} SupersededExits(s: State, steps: seq<Step>, i: nat)
    requires IsSuperseded(s, i) && Run(s, steps).Some?
    ensures i < |Run(s, steps).value.workers|
    ensures Rank(Run(s, steps).value.workers[i].pc)
            <= if Turns(steps, i) >= Rank(s.workers[i].pc) then 0 else Rank(s.workers[i].pc) - Turns(steps, i)
    ensures Turns(steps, i) >= 3 ==> Run(s, steps).value.workers[i].pc == Exited
  {
    if steps != [] {
      var n := |steps| - 1;
      SupersededExits(s, steps[..n], i);
      SupersededSendsOnce(s, steps[..n], i);
      SupersededStep(Run(s, steps[..n]).value, steps[n], i);
    }
  }
}
