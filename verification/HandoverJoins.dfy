/** That the previous sender has stopped before a new one starts, and what that rests on. */
module HandoverJoins {
  import opened Options
  import opened SendQueue
  import opened Handover

  // Starts and waiting stops one at a time, asynchronous stops whenever they come

  /** The start or waiting stop in progress, if any. */
  function Current(h: Hub, b: nat): Control {
    if b < |h.controls| && h.controls[b].Blocking() then h.controls[b] else Finished
  }

  function HeldJoiner(c: Control): Option<nat> {
    if c.WaitJoiner? || c.DeleteJoiner? then c.joiner else None
  }

  function HeldWorker(c: Control): Option<nat> {
    if c.WaitJoiner? || c.DeleteJoiner? || c.WaitWorker? || c.DeleteWorker? then c.worker else None
  }

  predicate HasTaken(c: Control) {
    !(c.StoreStopped? || c.Bump? || c.TakeThreads? || c.Finished?)
  }

  ghost predicate AllExited(workers: seq<Worker>) {
    forall i :: 0 <= i < |workers| ==> workers[i].pc == Exited
  }

  /** Only call b can block, and there are no thread pointers from when it takes them until it sets a new one. */
  ghost predicate CallsOk(s: State, b: nat) {
    && (forall k :: 0 <= k < |s.hub.controls| && s.hub.controls[k].Blocking() ==> k == b)
    && (HasTaken(Current(s.hub, b)) ==> s.hub.thread == None && s.hub.pendingJoiner == None)
    && (Current(s.hub, b).Claimed() || Current(s.hub, b).Claim? ==> AllExited(s.workers))
  }

  predicate Waiting(t: Joiner) {
    t.stage == AwaitPrevious || t.stage == FreePrevious
  }

  /** Joiners form chains: each waits for the one before it, unless all before it are done. */
  ghost predicate ChainOk(s: State) {
    var js := s.hub.joiners;
    && (forall j :: 0 <= j < |js| && js[j].previous.Some? ==> js[j].previous.value + 1 == j)
    && (forall j, k :: 0 <= k < j < |js| && (js[j].previous.None? || !Waiting(js[j])) ==> js[k].stage == Done)
    && (forall j :: 0 <= j < |js| ==> js[j].worker < |s.workers|)
    && (forall j :: 0 <= j < |js| && js[j].stage == Done ==> s.workers[js[j].worker].pc == Exited)
  }

  ghost predicate AllDone(js: seq<Joiner>) {
    forall j :: 0 <= j < |js| ==> js[j].stage == Done
  }

  /** The last joiner, if not done, is held by its pointer or by the call waiting for it. */
  ghost predicate JoinersHeld(s: State, b: nat) {
    var h := s.hub;
    && (h.pendingJoiner.Some? ==> h.pendingJoiner.value + 1 == |h.joiners|)
    && (HeldJoiner(Current(h, b)).Some? ==> HeldJoiner(Current(h, b)).value + 1 == |h.joiners|)
    && (h.pendingJoiner.None? && HeldJoiner(Current(h, b)).None? ==> AllDone(h.joiners))
  }

  ghost predicate Guarded(s: State, b: nat, i: nat) {
    || s.hub.thread == Some(i)
    || HeldWorker(Current(s.hub, b)) == Some(i)
    || exists j :: 0 <= j < |s.hub.joiners| && s.hub.joiners[j].worker == i
  }

  /** Every worker still running is held by the thread pointer, by a waiting call or by a joiner. */
  ghost predicate WorkersHeld(s: State, b: nat) {
    && (s.hub.thread.Some? ==> s.hub.thread.value < |s.workers|)
    && (HeldWorker(Current(s.hub, b)).Some? ==> HeldWorker(Current(s.hub, b)).value < |s.workers|)
    && (forall i :: 0 <= i < |s.workers| && s.workers[i].pc != Exited ==> Guarded(s, b, i))
  }

  /** No two workers run at once. */
  ghost predicate OneRuns(s: State) {
    forall i, k :: 0 <= i < k < |s.workers| ==> s.workers[i].pc == Exited || s.workers[k].pc == Exited
  }

  ghost predicate Orderly(s: State, b: nat) {
    CallsOk(s, b) && ChainOk(s) && JoinersHeld(s, b) && WorkersHeld(s, b) && OneRuns(s)
  }

  // Each step keeps order

  lemma WorkKeepsOrder(s: State, b: nat, i: nat, ok: bool)
    requires i < |s.workers| && Orderly(s, b)
    ensures Orderly(WorkerStep(s, i, ok), b)
  {
    hide WorkerStep;
    WorkerStepFrame(s, i, ok);
    var s' := WorkerStep(s, i, ok);
    assert s'.hub == s.hub && |s'.workers| == |s.workers|;
    assert forall n :: 0 <= n < |s.workers| && s.workers[n].pc == Exited ==> s'.workers[n].pc == Exited;
    forall n | 0 <= n < |s'.workers| && s'.workers[n].pc != Exited
      ensures Guarded(s', b, n)
    {
      assert Guarded(s, b, n);
    }
  }

  lemma ReapKeepsChain(s: State, j: nat, giveUp: bool)
    requires j < |s.hub.joiners| && ChainOk(s)
    ensures ChainOk(JoinerStep(s, j, giveUp))
  {
    var js, js' := s.hub.joiners, JoinerStep(s, j, giveUp).hub.joiners;
    assert js[j].stage == Done ==> js' == js;
    assert forall k :: 0 <= k < |js| && k != j ==> js'[k] == js[k];
  }

  lemma ReapFrame(s: State, j: nat, giveUp: bool)
    requires j < |s.hub.joiners|
    ensures var js, js' := s.hub.joiners, JoinerStep(s, j, giveUp).hub.joiners;
            && JoinerStep(s, j, giveUp) == s.(hub := s.hub.(joiners := js'))
            && |js'| == |js|
            && forall k :: 0 <= k < |js| ==>
                 js'[k].worker == js[k].worker && (js[k].stage == Done ==> js'[k].stage == Done)
  {
  }

  lemma ReapKeepsOrder(s: State, b: nat, j: nat, giveUp: bool)
    requires j < |s.hub.joiners| && Orderly(s, b)
    ensures Orderly(JoinerStep(s, j, giveUp), b)
  {
    ReapKeepsChain(s, j, giveUp);
    ReapFrame(s, j, giveUp);
    hide JoinerStep, ChainOk;
    SameGuards(s, b, JoinerStep(s, j, giveUp));
  }

  /** Guards depend on the pointers, the call in progress and whom the joiners wait for. */
  lemma SameGuards(s: State, b: nat, s': State)
    requires WorkersHeld(s, b) && s'.workers == s.workers && s'.hub.thread == s.hub.thread
    requires HeldWorker(Current(s'.hub, b)) == HeldWorker(Current(s.hub, b))
    requires |s'.hub.joiners| == |s.hub.joiners|
    requires forall k :: 0 <= k < |s.hub.joiners| ==> s'.hub.joiners[k].worker == s.hub.joiners[k].worker
    ensures WorkersHeld(s', b)
  {
    forall n | 0 <= n < |s'.workers| && s'.workers[n].pc != Exited
      ensures Guarded(s', b, n)
    {
      assert Guarded(s, b, n);
      if k :| 0 <= k < |s.hub.joiners| && s.hub.joiners[k].worker == n {
        assert s'.hub.joiners[k].worker == n;
      }
    }
  }

  /** A new call comes last; one that blocks becomes the call in progress. */
  lemma CallKeepsOrder(s: State, b: nat, kind: Kind) returns (b': nat)
    requires Orderly(s, b) && (kind != StopAsync ==> NoneBlocks(s.hub))
    ensures Orderly(Next(s, Call(kind)), b')
  {
    var s' := Next(s, Call(kind));
    b' := if kind == StopAsync then b else |s.hub.controls|;
    assert forall k :: 0 <= k < |s.hub.controls| ==> s'.hub.controls[k] == s.hub.controls[k];
    assert !HasTaken(Current(s'.hub, b')) || Current(s'.hub, b') == Current(s.hub, b);
    forall n | 0 <= n < |s'.workers| && s'.workers[n].pc != Exited
      ensures Guarded(s', b', n)
    {
      assert Guarded(s, b, n);
    }
  }

  // A call's own steps

  /** Steps that move a call on without touching threads. */
  lemma PlainStepKeepsOrder(s: State, b: nat, k: nat, giveUp: bool)
    requires Orderly(s, b) && k < |s.hub.controls|
    requires s.hub.controls[k].StoreStopped? || s.hub.controls[k].Bump? || s.hub.controls[k].Claim?
             || s.hub.controls[k].StoreRunning?
    ensures Orderly(ControlStep(s, k, giveUp), b)
  {
    SameGuards(s, b, ControlStep(s, k, giveUp));
  }

  /** A start or a waiting stop takes both pointers. */
  lemma TakeKeepsOrder(s: State, b: nat, k: nat, giveUp: bool)
    requires Orderly(s, b) && k < |s.hub.controls|
    requires s.hub.controls[k].TakeThreads? && s.hub.controls[k].kind != StopAsync
    ensures Orderly(ControlStep(s, k, giveUp), b)
  {
    var s' := ControlStep(s, k, giveUp);
    forall n | 0 <= n < |s'.workers| && s'.workers[n].pc != Exited
      ensures Guarded(s', b, n)
    {
      assert Guarded(s, b, n);
      if j :| 0 <= j < |s.hub.joiners| && s.hub.joiners[j].worker == n {
        assert s'.hub.joiners[j].worker == n;
      }
    }
  }

  /** An asynchronous stop, whenever it comes, leaves the worker to a new joiner, or finds no pointer. */
  lemma LeaveKeepsOrder(s: State, b: nat, k: nat, giveUp: bool)
    requires Orderly(s, b) && k < |s.hub.controls| && s.hub.controls[k] == TakeThreads(StopAsync)
    ensures Orderly(ControlStep(s, k, giveUp), b)
  {
    var s' := ControlStep(s, k, giveUp);
    if s.hub.thread.None? {
      SameGuards(s, b, s');
    } else {
      assert s'.hub.joiners == s.hub.joiners + [Joiner(s.hub.pendingJoiner, s.hub.thread.value, AwaitPrevious)];
      LeaveKeepsChain(s, b, s');
      LeaveKeepsGuards(s, b, s');
    }
  }

  lemma LeaveKeepsChain(s: State, b: nat, s': State)
    requires ChainOk(s) && JoinersHeld(s, b) && WorkersHeld(s, b) && HeldJoiner(Current(s.hub, b)).None?
    requires s.hub.thread.Some? && s'.workers == s.workers
    requires s'.hub.joiners == s.hub.joiners + [Joiner(s.hub.pendingJoiner, s.hub.thread.value, AwaitPrevious)]
    ensures ChainOk(s')
  {
  }

  lemma LeaveKeepsGuards(s: State, b: nat, s': State)
    requires WorkersHeld(s, b) && s'.workers == s.workers && s'.hub.thread == None && s.hub.thread.Some?
    requires Current(s'.hub, b) == Current(s.hub, b)
    requires s'.hub.joiners == s.hub.joiners + [Joiner(s.hub.pendingJoiner, s.hub.thread.value, AwaitPrevious)]
    ensures WorkersHeld(s', b)
  {
    var js, js' := s.hub.joiners, s'.hub.joiners;
    forall n | 0 <= n < |s'.workers| && s'.workers[n].pc != Exited
      ensures Guarded(s', b, n)
    {
      assert Guarded(s, b, n);
      if j :| 0 <= j < |js| && js[j].worker == n {
        assert js'[j].worker == n;
      }
      if s.hub.thread == Some(n) {
        assert js'[|js|].worker == n;
      }
    }
  }

  /** Once the last joiner is done they all are. */
  lemma LastJoinerDone(s: State)
    requires ChainOk(s) && (s.hub.joiners == [] || s.hub.joiners[|s.hub.joiners| - 1].stage == Done)
    ensures AllDone(s.hub.joiners)
  {
  }

  /** The timed waits decide nothing. */
  lemma WaitKeepsOrder(s: State, b: nat, k: nat, giveUp: bool)
    requires Orderly(s, b) && k < |s.hub.controls| && (s.hub.controls[k].WaitJoiner? || s.hub.controls[k].WaitWorker?)
    ensures Orderly(ControlStep(s, k, giveUp), b)
  {
    SameGuards(s, b, ControlStep(s, k, giveUp));
  }

  lemma DeleteJoinerKeepsOrder(s: State, b: nat, k: nat, giveUp: bool)
    requires Orderly(s, b) && k < |s.hub.controls| && s.hub.controls[k].DeleteJoiner?
    ensures Orderly(ControlStep(s, k, giveUp), b)
  {
    var joiner := s.hub.controls[k].joiner;
    if JoinerGone(s.hub, joiner) && joiner.Some? {
      LastJoinerDone(s);
    }
    SameGuards(s, b, ControlStep(s, k, giveUp));
  }

  /** With all joiners done and the held worker gone, every worker has exited. */
  lemma NobodyLeft(s: State, b: nat)
    requires ChainOk(s) && WorkersHeld(s, b) && AllDone(s.hub.joiners) && s.hub.thread == None
    requires WorkerGone(s, HeldWorker(Current(s.hub, b)))
    ensures AllExited(s.workers)
  {
    forall i | 0 <= i < |s.workers|
      ensures s.workers[i].pc == Exited
    {
      assert s.workers[i].pc != Exited ==> Guarded(s, b, i);
    }
  }

  lemma DeleteWorkerKeepsOrder(s: State, b: nat, k: nat, giveUp: bool)
    requires Orderly(s, b) && k < |s.hub.controls| && s.hub.controls[k].DeleteWorker?
    ensures Orderly(ControlStep(s, k, giveUp), b)
  {
    if WorkerGone(s, s.hub.controls[k].worker) {
      NobodyLeft(s, b);
    }
  }

  lemma SpawnKeepsOrder(s: State, b: nat, k: nat, giveUp: bool)
    requires Orderly(s, b) && k < |s.hub.controls| && s.hub.controls[k].Spawn?
    ensures Orderly(ControlStep(s, k, giveUp), b)
  {
    var s' := ControlStep(s, k, giveUp);
    assert forall i :: 0 <= i < |s.workers| ==> s'.workers[i] == s.workers[i];
    assert Guarded(s', b, |s.workers|);
  }

  lemma AdvanceKeepsOrder(s: State, b: nat, k: nat, giveUp: bool)
    requires k < |s.hub.controls| && Orderly(s, b)
    ensures Orderly(ControlStep(s, k, giveUp), b)
  {
    if s.hub.controls[k] == Finished {
      assert ControlStep(s, k, giveUp) == s;
    } else {
      hide Orderly, ControlStep;
      match s.hub.controls[k]
      case TakeThreads(kind) =>
        if kind == StopAsync {
          LeaveKeepsOrder(s, b, k, giveUp);
        } else {
          TakeKeepsOrder(s, b, k, giveUp);
        }
      case WaitJoiner(_, _, _) => WaitKeepsOrder(s, b, k, giveUp);
      case DeleteJoiner(_, _, _) => DeleteJoinerKeepsOrder(s, b, k, giveUp);
      case WaitWorker(_, _) => WaitKeepsOrder(s, b, k, giveUp);
      case DeleteWorker(_, _) => DeleteWorkerKeepsOrder(s, b, k, giveUp);
      case Spawn(_) => SpawnKeepsOrder(s, b, k, giveUp);
      case _ => PlainStepKeepsOrder(s, b, k, giveUp);
    }
  }

  // Whole runs

  lemma NextKeepsOrder(s: State, b: nat, step: Step) returns (b': nat)
    requires Orderly(s, b) && Enabled(s, step)
    requires step.Call? && step.kind != StopAsync ==> NoneBlocks(s.hub)
    ensures Orderly(Next(s, step), b')
  {
    hide Orderly, NoneBlocks, ControlStep, JoinerStep, WorkerStep, Push;
    b' := b;
    match step
    case Call(kind) => b' := CallKeepsOrder(s, b, kind);
    case Advance(k, giveUp) => AdvanceKeepsOrder(s, b, k, giveUp);
    case Reap(j, giveUp) => ReapKeepsOrder(s, b, j, giveUp);
    case Work(i, ok) => WorkKeepsOrder(s, b, i, ok);
    case Enqueue(m, locked) =>
      PushFrame(s.(log := s.log.(accepted := s.log.accepted + [m])), m, locked);
      SameThreads(s, b, Next(s, step));
    case _ => SameThreads(s, b, Next(s, step));
  }

  lemma SameThreads(s: State, b: nat, s': State)
    requires Orderly(s, b) && s'.hub == s.hub && s'.workers == s.workers
    ensures Orderly(s', b)
  {
    SameGuards(s, b, s');
  }

  lemma {:induction false} EveryRunOrderly(steps: seq<Step>) returns (b: nat)
    requires Run(INITIAL, steps).Some? && AsCalled(steps)
    ensures Orderly(Run(INITIAL, steps).value, b)
  {
    b := 0;
    if steps != [] {
      hide Next, Enabled, Orderly, NoneBlocks;
      var n := |steps| - 1;
      forall m | 0 <= m < n
        ensures steps[..n][..m] == steps[..m]
      {
      }
      b := EveryRunOrderly(steps[..n]);
      b := NextKeepsOrder(Run(INITIAL, steps[..n]).value, b, steps[n]);
    }
  }

  /**
   However the program's calls interleave, the earlier senders have all exited by the time a new one is created,
   and no two senders ever run at once.
  */
  lemma PreviousStoppedFirst(steps: seq<Step>)
    requires Run(INITIAL, steps).Some? && AsCalled(steps)
    ensures var s := Run(INITIAL, steps).value;
            && (forall k :: 0 <= k < |s.hub.controls| && s.hub.controls[k].Spawn? ==> AllExited(s.workers))
            && OneRuns(s)
  {
    hide Run, AsCalled, ChainOk, JoinersHeld, WorkersHeld;
    var _ := EveryRunOrderly(steps);
  }

  // What that rests on: how senders would overlap if starts did, or if a delete did not wait

  const EARLIER: Message := Message(0, CreateMeeting)
  const LATER: Message := Message(1, JoinMeeting)

  /** Two senders have overlapped: the superseded one handed its message over after its successor had. */
  ghost predicate Overlapped(s: State) {
    && s.log.sent == [Frame(1, LATER), Frame(0, EARLIER)]
    && |s.workers| == 2 && s.workers[0].epoch < s.workers[1].epoch
  }

  /** Two senders, the first holding one message past its last look at the epoch, the other just created. */
  ghost predicate Poised(s: State) {
    && s.running && s.connected && s.queue == Queue([LATER], []) && s.log.sent == []
    && |s.workers| == 2 && s.workers[0].epoch < s.workers[1].epoch == s.epoch
    && s.workers[0].pc == Deliver(Some(EARLIER)) && s.workers[1].pc == CheckRunning
  }

  lemma PoisedOverlaps(from: State, steps: seq<Step>, s: State) returns (steps': seq<Step>, s': State)
    requires Run(from, steps) == Some(s) && Poised(s)
    ensures Run(from, steps') == Some(s') && Overlapped(s')
  {
    hide Run, AsCalled;
    steps', s' := Extend(from, steps, s, Work(1, true));
    steps', s' := Extend(from, steps', s', Work(1, true));
    steps', s' := Extend(from, steps', s', Work(1, true));
    assert s'.workers[1].pc == Recheck(Some(LATER));
    steps', s' := Extend(from, steps', s', Work(1, true));
    steps', s' := Extend(from, steps', s', Work(1, true));
    assert s'.log.sent == [Frame(1, LATER)] && s'.workers[0] == s.workers[0];
    steps', s' := Extend(from, steps', s', Work(0, true));
  }

  /** A first sender holding one message past its last look at the epoch, and another message queued. */
  lemma ReadyRun() returns (steps: seq<Step>, s: State)
    ensures Run(INITIAL, steps) == Some(s) && AsCalled(steps)
    ensures s.running && s.connected && s.epoch == 2 && s.queue == Queue([LATER], []) && s.log.sent == []
    ensures s.workers == [Worker(2, Deliver(Some(EARLIER)))] && s.hub == Hub([Finished], [], Some(0), None)
  {
    hide Run, AsCalled;
    steps, s := StartedRun();
    steps, s := Extend(INITIAL, steps, s, Connect(true));
    steps, s := Extend(INITIAL, steps, s, Enqueue(EARLIER, true));
    steps, s := Extend(INITIAL, steps, s, Enqueue(LATER, true));
    assert s.queue == Queue([EARLIER, LATER], []);
    steps, s := Extend(INITIAL, steps, s, Work(0, true));
    assert s.queue == Queue([LATER], []) && s.workers[0].pc == Recheck(Some(EARLIER));
    steps, s := Extend(INITIAL, steps, s, Work(0, true));
  }

  /** A second start whose wait for the first sender gives up, held by the delete. */
  lemma GivenUp() returns (steps: seq<Step>, s: State)
    ensures Run(INITIAL, steps) == Some(s) && AsCalled(steps)
    ensures s.connected && s.epoch == 3 && s.queue == Queue([LATER], []) && s.log.sent == []
    ensures s.workers == [Worker(2, Deliver(Some(EARLIER)))]
    ensures s.hub == Hub([Finished, DeleteWorker(Start, Some(0))], [], None, None)
  {
    hide Run, AsCalled;
    steps, s := ReadyRun();
    steps, s := Extend(INITIAL, steps, s, Call(Start));
    steps, s := Extend(INITIAL, steps, s, Advance(1, false));
    steps, s := Extend(INITIAL, steps, s, Advance(1, false));
    steps, s := Extend(INITIAL, steps, s, Advance(1, false));
    assert s.hub == Hub([Finished, WaitJoiner(Start, None, Some(0))], [], None, None);
    steps, s := Extend(INITIAL, steps, s, Advance(1, false));
    steps, s := Extend(INITIAL, steps, s, Advance(1, false));
    steps, s := Extend(INITIAL, steps, s, Advance(1, true));
  }

  /** If the delete then let the call go on although the sender still runs, the two senders would overlap. */
  lemma EarlyDeleteOverlaps() returns (before: seq<Step>, s: State, after: seq<Step>, s': State)
    ensures Run(INITIAL, before) == Some(s) && AsCalled(before)
    ensures |s.hub.controls| == 2 && s.hub.controls[1] == DeleteWorker(Start, Some(0)) && !WorkerGone(s, Some(0))
    ensures Run(s.(hub := Put(s.hub, 1, Claim)), after) == Some(s') && Overlapped(s')
  {
    hide Run, AsCalled;
    before, s := GivenUp();
    var freed := s.(hub := Put(s.hub, 1, Claim));
    RunNothing(freed);
    after, s' := Claiming(freed, [], freed, 1);
    after, s' := PoisedOverlaps(freed, after, s');
  }

  /** Two starts that have both found no thread to wait for. */
  lemma BothClaim() returns (steps: seq<Step>, s: State)
    ensures Run(INITIAL, steps) == Some(s)
    ensures s == INITIAL.(epoch := 2, hub := Hub([Claim, Claim], [], None, None))
  {
    hide Run, AsCalled;
    steps, s := [], INITIAL;
    RunNothing(INITIAL);
    steps, s := Extend(INITIAL, steps, s, Call(Start));
    steps, s := Extend(INITIAL, steps, s, Call(Start));
    assert s.hub.controls == [StoreStopped(Start), StoreStopped(Start)];
    steps, s := BeforeClaim(steps, s, 0);
    steps, s := BeforeClaim(steps, s, 1);
  }

  /** So would two starts at once: both look at the thread pointer before either sets it. */
  lemma TwoStartsOverlap() returns (steps: seq<Step>, s: State)
    ensures Run(INITIAL, steps) == Some(s) && Overlapped(s)
  {
    hide Run, AsCalled, Overlapped;
    steps, s := BothClaim();
    steps, s := Claiming(INITIAL, steps, s, 0);
    steps, s := Extend(INITIAL, steps, s, Connect(true));
    steps, s := Extend(INITIAL, steps, s, Enqueue(EARLIER, true));
    steps, s := Extend(INITIAL, steps, s, Enqueue(LATER, true));
    assert s.queue == Queue([EARLIER, LATER], []) && s.workers == [Worker(3, CheckRunning)] && s.log.sent == [];
    steps, s := UpToDelivery(steps, s);
    steps, s := Claiming(INITIAL, steps, s, 1);
    assert Poised(s);
    steps, s := PoisedOverlaps(INITIAL, steps, s);
  }

  /** The only sender takes its first message past the last look at the epoch. */
  lemma UpToDelivery(steps: seq<Step>, s: State) returns (steps': seq<Step>, s': State)
    requires Run(INITIAL, steps) == Some(s) && s.running && s.workers == [Worker(s.epoch, CheckRunning)]
    requires s.queue == Queue([EARLIER, LATER], [])
    ensures Run(INITIAL, steps') == Some(s')
    ensures s' == s.(queue := Queue([LATER], []), workers := [Worker(s.epoch, Deliver(Some(EARLIER)))])
  {
    hide Run, AsCalled;
    steps', s' := Extend(INITIAL, steps, s, Work(0, true));
    steps', s' := Extend(INITIAL, steps', s', Work(0, true));
    steps', s' := Extend(INITIAL, steps', s', Work(0, true));
    assert s'.queue == Queue([LATER], []);
    steps', s' := Extend(INITIAL, steps', s', Work(0, true));
  }

  /** A start with nothing to wait for, up to the point where it claims its epoch. */
  lemma BeforeClaim(steps: seq<Step>, s: State, k: nat) returns (steps': seq<Step>, s': State)
    requires Run(INITIAL, steps) == Some(s) && k < |s.hub.controls| && s.hub.controls[k] == StoreStopped(Start)
    requires s.hub.thread == None && s.hub.pendingJoiner == None
    ensures Run(INITIAL, steps') == Some(s')
    ensures s' == s.(running := false, epoch := s.epoch + 1, hub := Put(s.hub, k, Claim))
  {
    hide Run, AsCalled;
    steps', s' := Extend(INITIAL, steps, s, Advance(k, false));
    steps', s' := Extend(INITIAL, steps', s', Advance(k, false));
    steps', s' := Extend(INITIAL, steps', s', Advance(k, false));
    steps', s' := Extend(INITIAL, steps', s', Advance(k, false));
    steps', s' := Extend(INITIAL, steps', s', Advance(k, false));
    steps', s' := Extend(INITIAL, steps', s', Advance(k, false));
    steps', s' := Extend(INITIAL, steps', s', Advance(k, false));
    assert s'.hub.controls == s.hub.controls[k := Claim];
  }

  /** From there to the new sender. */
  lemma Claiming(from: State, steps: seq<Step>, s: State, k: nat) returns (steps': seq<Step>, s': State)
    requires Run(from, steps) == Some(s) && k < |s.hub.controls| && s.hub.controls[k] == Claim
    ensures Run(from, steps') == Some(s')
    ensures s' == s.(running := true, epoch := s.epoch + 1,
                     workers := s.workers + [Worker(s.epoch + 1, CheckRunning)],
                     hub := Put(s.hub, k, Finished).(thread := Some(|s.workers|)))
  {
    hide Run, AsCalled;
    steps', s' := Extend(from, steps, s, Advance(k, false));
    steps', s' := Extend(from, steps', s', Advance(k, false));
    steps', s' := Extend(from, steps', s', Advance(k, false));
    assert s'.hub.controls == s.hub.controls[k := Finished];
  }
}
