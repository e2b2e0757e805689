/** The queue of `StreamManager` is served by one worker at a time, in order, and every queued
    request keeps someone who will serve it. */
module AdmissionOrder {
  import opened Base
  import opened Admission

  /** The tasks that act on behalf of `queue_worker_active`. */
  predicate Owns(k: Task) {
    || k.SpawnWorker?
    || k.WLoadMax? || k.WLoadActive? || k.WSeen? || k.WParked?
    || k.WClaim? || k.WPutBack? || k.WStoreIdle? || k.WDeliver?
    || ((k.Starting? || k.ReleaseCas? || k.FetchSub? || k.NotifyOne?) && k.caller.ForQueued?)
  }

  /** The task that acts for the worker flag. */
  function Worker(q: Line, tasks: seq<Task>): Task {
    if q.owner.Some? && q.owner.value < |tasks| then tasks[q.owner.value] else Finished
  }

  /** The flag is set exactly when one task acts for it; only that task may be parked. */
  ghost predicate OwnerInv(q: Line, tasks: seq<Task>) {
    && q.flag == q.owner.Some?
    && (q.owner.Some? ==> q.owner.value < |tasks| && Owns(tasks[q.owner.value]))
    && (forall t: Tid :: t < |tasks| && Owns(tasks[t]) ==> q.owner == Some(t))
    && q.waiters == (if Worker(q, tasks).WParked? then [q.owner.value] else [])
  }

  /** The request that the worker has popped and not yet claimed a slot for. */
  function HandOf(k: Task): seq<Tid> {
    if k.WClaim? || k.WPutBack? then [k.req] else []
  }

  /** The request for which the worker has claimed a slot and not yet sent the result. */
  function ServingOf(k: Task): seq<Tid> {
    if (k.Starting? || k.ReleaseCas? || k.FetchSub? || k.NotifyOne?) && k.caller.ForQueued? then [k.caller.req]
    else if k.WDeliver? then [k.req]
    else []
  }

  /** Nothing that was queued is lost, duplicated or overtaken. */
  ghost predicate QueueInv(q: Line, k: Task) {
    && q.arrivals == q.dispatched + HandOf(k) + q.queue
    && q.dispatched == q.replied + ServingOf(k)
    && (forall r :: r in q.results <==> r in q.replied)
  }

  ghost predicate OrderInv(q: Line, tasks: seq<Task>) {
    OwnerInv(q, tasks) && QueueInv(q, Worker(q, tasks))
  }

  /** A move of one task that changes neither the line nor the task's role in serving it. */
  lemma MoveKeepsOrder(q: Line, tasks: seq<Task>, t: Tid, k: Task)
    requires OrderInv(q, tasks) && t < |tasks|
    requires Owns(tasks[t]) == Owns(k) && !tasks[t].WParked? && !k.WParked?
    requires HandOf(tasks[t]) == HandOf(k) && ServingOf(tasks[t]) == ServingOf(k)
    ensures OrderInv(q, tasks[t := k])
  {
  }

  lemma SpawnKeepsOrder(q: Line, tasks: seq<Task>, k: Task)
    requires OrderInv(q, tasks) && !Owns(k)
    ensures OrderInv(q, tasks + [k])
  {
  }

  lemma EnqueueKeepsOrder(s: State, t: Tid)
    requires OrderInv(s.line, s.tasks) && t < |s.tasks| && s.tasks[t].PushBack?
    ensures OrderInv(Enqueue(s, t).line, Enqueue(s, t).tasks)
  {
    var q, h := s.line, HandOf(Worker(s.line, s.tasks));
    assert q.dispatched + h + (q.queue + [t]) == q.dispatched + h + q.queue + [t];
  }

  lemma RaiseKeepsOrder(s: State, t: Tid)
    requires OrderInv(s.line, s.tasks) && t < |s.tasks| && s.tasks[t].KickWorker?
    ensures OrderInv(TryRaiseFlag(s, t).line, TryRaiseFlag(s, t).tasks)
  {
  }

  lemma StartWorkerKeepsOrder(s: State, t: Tid)
    requires OrderInv(s.line, s.tasks) && t < |s.tasks| && s.tasks[t].SpawnWorker?
    ensures OrderInv(StartWorker(s, t).line, StartWorker(s, t).tasks)
  {
  }

  lemma PollOrPopKeepsOrder(s: State, t: Tid)
    requires OrderInv(s.line, s.tasks) && t < |s.tasks| && s.tasks[t].WSeen?
    ensures OrderInv(PollOrPop(s, t).line, PollOrPop(s, t).tasks)
  {
    if s.line.queue != [] {
      assert s.line.queue == [s.line.queue[0]] + s.line.queue[1..];
    }
  }

  lemma ClaimKeepsOrder(s: State, t: Tid)
    requires OrderInv(s.line, s.tasks) && t < |s.tasks| && s.tasks[t].WClaim?
    ensures OrderInv(TryClaim(s, t).line, TryClaim(s, t).tasks)
  {
    var q, r := s.line, s.tasks[t].req;
    assert q.dispatched + [r] + q.queue == (q.dispatched + [r]) + [] + q.queue;
  }

  lemma PutBackKeepsOrder(s: State, t: Tid)
    requires OrderInv(s.line, s.tasks) && t < |s.tasks| && s.tasks[t].WPutBack?
    ensures OrderInv(PutBack(s, t).line, PutBack(s, t).tasks)
  {
    var q, r := s.line, s.tasks[t].req;
    assert q.dispatched + [r] + q.queue == q.dispatched + [] + ([r] + q.queue);
  }

  lemma LowerKeepsOrder(s: State, t: Tid)
    requires OrderInv(s.line, s.tasks) && t < |s.tasks| && s.tasks[t].WStoreIdle?
    ensures OrderInv(LowerFlag(s, t).line, LowerFlag(s, t).tasks)
  {
  }

  lemma RearmKeepsOrder(s: State, t: Tid)
    requires OrderInv(s.line, s.tasks) && t < |s.tasks| && s.tasks[t].WRearm?
    ensures OrderInv(TryRearm(s, t).line, TryRearm(s, t).tasks)
  {
  }

  lemma DeliverKeepsOrder(s: State, t: Tid)
    requires OrderInv(s.line, s.tasks) && t < |s.tasks| && s.tasks[t].WDeliver?
    ensures OrderInv(Deliver(s, t).line, Deliver(s, t).tasks)
  {
  }

  lemma WakeOneKeepsOrder(s: State, t: Tid)
    requires OrderInv(s.line, s.tasks) && t < |s.tasks| && s.tasks[t].NotifyOne? && WaitersExist(s)
    ensures OrderInv(WakeOne(s, t).line, WakeOne(s, t).tasks)
  {
  }

  /** As only the worker waits, `notify_waiters` wakes at most one task. */
  lemma WakeAllIsWakeOne(tasks: seq<Task>, waiters: seq<Tid>)
    requires |waiters| <= 1 && (waiters != [] ==> waiters[0] < |tasks|)
    ensures WakeAll(tasks, waiters) == if waiters == [] then tasks else tasks[waiters[0] := WLoadMax]
  {
    if waiters != [] {
      assert waiters[1..] == [];
    }
  }

  lemma WakeEveryoneKeepsOrder(s: State, t: Tid)
    requires OrderInv(s.line, s.tasks) && t < |s.tasks| && s.tasks[t].NotifyWaiters? && WaitersExist(s)
    ensures OrderInv(WakeEveryone(s, t).line, WakeEveryone(s, t).tasks)
  {
    WakeAllIsWakeOne(s.tasks[t := Finished], s.line.waiters);
  }

  /** The operations that touch neither the queue nor the worker flag. */
  predicate IsPlain(k: Task) {
    k.LoadMax? || k.LoadActive? || k.FastClaim? || k.AwaitResult? || k.WLoadMax? || k.WLoadActive? || k.WRecheck?
    || k.ReleaseCas? || k.FetchSub? || k.StoreMax?
  }

  lemma PlainKeepsOrder(s: State, t: Tid)
    requires OrderInv(s.line, s.tasks) && CanStep(s, t) && IsPlain(s.tasks[t])
    ensures OrderInv(StepTask(s, t).line, StepTask(s, t).tasks)
  {
    hide OrderInv;
    MoveKeepsOrder(s.line, s.tasks, t, StepTask(s, t).tasks[t]);
  }

  lemma StepKeepsOrder(s: State, t: Tid)
    requires OrderInv(s.line, s.tasks) && CanStep(s, t)
    ensures OrderInv(StepTask(s, t).line, StepTask(s, t).tasks)
  {
    hide OrderInv, Enqueue, TryRaiseFlag, StartWorker, PollOrPop, TryClaim, PutBack, LowerFlag, TryRearm, Deliver;
    hide WakeOne, WakeEveryone, TryFastClaim, TryRelease, Decrement, WriteLimit, Recheck, Goto;
    var k := s.tasks[t];
    if IsPlain(k) {
      PlainKeepsOrder(s, t);
    } else {
      match k
      case PushBack => EnqueueKeepsOrder(s, t);
      case KickWorker => RaiseKeepsOrder(s, t);
      case SpawnWorker => StartWorkerKeepsOrder(s, t);
      case WSeen(_, _) => PollOrPopKeepsOrder(s, t);
      case WClaim(_, _) => ClaimKeepsOrder(s, t);
      case WPutBack(_) => PutBackKeepsOrder(s, t);
      case WStoreIdle => LowerKeepsOrder(s, t);
      case WRearm => RearmKeepsOrder(s, t);
      case WDeliver(_, _) => DeliverKeepsOrder(s, t);
      case NotifyOne(_) => WakeOneKeepsOrder(s, t);
      case NotifyWaiters => WakeEveryoneKeepsOrder(s, t);
    }
  }

  lemma AnswerKeepsOrder(s: State, t: Tid, ok: bool)
    requires OrderInv(s.line, s.tasks) && Enabled(s, Answer(t, ok))
    ensures OrderInv(AnswerStart(s, t, ok).line, AnswerStart(s, t, ok).tasks)
  {
    hide OrderInv;
    var k := AnswerStart(s, t, ok).tasks[t];
    MoveKeepsOrder(s.line, s.tasks, t, k);
    if ok {
      SpawnKeepsOrder(s.line, s.tasks[t := k], Holding(s.tasks[t].slot));
    }
  }

  lemma KeepsOrder(s: State, e: Event)
    requires OrderInv(s.line, s.tasks) && Enabled(s, e)
    ensures OrderInv(Next(s, e).line, Next(s, e).tasks)
  {
    hide OrderInv, AnswerStart, StepTask;
    match e
    case Arrive => SpawnKeepsOrder(s.line, s.tasks, LoadMax);
    case Step(t) => StepKeepsOrder(s, t);
    case Answer(t, ok) => AnswerKeepsOrder(s, t, ok);
    case Close(t) => MoveKeepsOrder(s.line, s.tasks, t, ReleaseCas(s.tasks[t].slot, Direct));
    case OnEnd(x) => SpawnKeepsOrder(s.line, s.tasks, ReleaseCas(x, Direct));
    case SetMax(m) => SpawnKeepsOrder(s.line, s.tasks, StoreMax(m));
  }
}
