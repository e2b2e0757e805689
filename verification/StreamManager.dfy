/** `StreamManager` in the form of its source: shared fields, one method per atomic operation,
    and the bodies of its methods built from those operations with arbitrary interference in
    between. Every object is at all times in a state of the machine of module `Admission`. */
module StreamManagerClass {
  import opened Base
  import opened Admission
  import opened AdmissionSlots
  import Order = AdmissionOrder
  import Wakeups = AdmissionWakeups
  import Theorems = AdmissionTheorems
  import Requests = AdmissionRequests

  datatype Outcome = Streaming | Failed | Waiting

  /** Whether the event is performed by task `t` itself. */
  predicate IsBy(e: Event, t: Tid) {
    (e.Step? || e.Answer? || e.Close?) && e.t == t
  }

  /** The event answers the start that task `t` waits for. */
  predicate IsAnswerOf(e: Event, t: Tid) {
    e.Answer? && e.t == t
  }

  ghost predicate FlagsKept(before: seq<bool>, now: seq<bool>) {
    |before| <= |now| && forall x :: 0 <= x < |before| && before[x] ==> now[x]
  }

  lemma NotifyOneIs(s: State, t: Tid)
    requires WaitersExist(s) && t < |s.tasks| && s.tasks[t].NotifyOne?
    ensures Enabled(s, Step(t)) && Next(s, Step(t)) == WakeOne(s, t)
  {
  }

  class StreamManager {
    var maxConcurrent: nat
    var activeCount: nat
    var queue: seq<Tid>
    var queueWorkerActive: bool
    // slot_available: its stored permit and its waiters
    var permit: bool
    var waiters: seq<Tid>
    // the slot_released flag and the existence of the on_end callback of every slot
    var slotReleased: seq<bool>
    var hasCallback: set<nat>
    // the one-shot results, and where each task stands
    var results: map<Tid, bool>
    var tasks: seq<Task>

    ghost const initialLimit: nat
    ghost var trace: seq<Event>

    /** The fields are the state reached by the run recorded in `trace`. */
    ghost predicate Valid()
      reads this
    {
      && initialLimit < U32
      && Legal(initialLimit, trace)
      && Shows(After(initialLimit, trace))
    }

    ghost predicate Shows(s: State)
      reads this
    {
      && s.line.queue == queue && s.line.flag == queueWorkerActive
      && s.line.permit == permit && s.line.waiters == waiters && s.line.results == results
      && s.slots.limit == maxConcurrent && s.slots.active == activeCount
      && s.slots.released == slotReleased && s.slots.started == hasCallback
      && s.tasks == tasks
    }

    constructor (limit: nat)
      requires limit < U32
      ensures Valid() && trace == [] && initialLimit == limit
    {
      maxConcurrent, activeCount, queue, queueWorkerActive := limit, 0, [], false;
      permit, waiters, slotReleased, hasCallback, results, tasks := false, [], [], {}, map[], [];
      initialLimit, trace := limit, [];
    }

    /** How often task `t` has gone through the top of the worker's loop. */
    ghost function Rounds(t: Tid): nat
      requires Valid()
      reads this
    {
      Requests.Rounds(initialLimit, trace, t)
    }

    /** The choices that task `t` made, and whether `ok` is the one answer to a start for it. */
    ghost function Path(t: Tid): seq<Requests.Choice>
      requires Valid()
      reads this
    {
      Requests.Path(initialLimit, trace, t)
    }

    ghost predicate IsAnswer(t: Tid, ok: bool)
      requires Valid()
      reads this
    {
      Requests.AnswersFor(initialLimit, trace, t) == [ok]
    }

    /** The object is valid and performed exactly the event `e`, which begins a round of the worker's
        loop if its task is at the top of it. */
    twostate predicate Did(e: Event)
      requires old(Valid())
      reads this
    {
      && Valid() && trace == old(trace) + [e]
      && (e.Step? ==>
            Rounds(e.t) == old(Rounds(e.t)) + if e.t < |old(tasks)| && old(tasks)[e.t].WLoadMax? then 1 else 0)
      && (e.Answer? ==> Rounds(e.t) == old(Rounds(e.t)))
    }

    twostate lemma Record(e: Event)
      requires old(Valid()) && Enabled(After(initialLimit, old(trace)), e)
      requires trace == old(trace) + [e] && Shows(Next(After(initialLimit, old(trace)), e))
      ensures Did(e)
    {
      Theorems.Extend(initialLimit, old(trace), e);
      hide Next, Enabled, Legal, After;
      if e.Step? || e.Answer? {
        Requests.RoundsGrow(initialLimit, old(trace), e, e.t);
      }
    }

    /** The last event was task `t` performing the operation `k`. */
    ghost predicate Performed(t: Tid, k: Task)
      reads this
    {
      trace != [] && Theorems.Performs(initialLimit, trace, |trace| - 1, t, k)
    }

    twostate lemma StepIsPerformed(t: Tid)
      requires old(Valid()) && t < |old(tasks)| && trace == old(trace) + [Step(t)]
      ensures Performed(t, old(tasks[t]))
    {
      assert trace[..|old(trace)|] == old(trace);
    }

    lemma SlotIsClaimed(t: Tid)
      requires Valid() && t < |tasks| && HasSlot(tasks[t])
      ensures tasks[t].slot < |slotReleased| == |After(initialLimit, trace).slots.keeper|
    {
      Theorems.SlotsAreClaimed(initialLimit, trace, t);
    }

    // ----- atomic operations -----

    method LoadMaxConcurrent(t: Tid) returns (max: nat)
      requires Valid() && t < |tasks| && (tasks[t].LoadMax? || tasks[t].WLoadMax?)
      modifies this
      ensures Did(Step(t)) && max == old(maxConcurrent)
      ensures |tasks| == old(|tasks|)
      ensures tasks[t] == if old(tasks[t]).LoadMax? then LoadActive(max) else WLoadActive(max)
    {
      max := maxConcurrent;
      tasks := tasks[t := if tasks[t].LoadMax? then LoadActive(max) else WLoadActive(max)];
      trace := trace + [Step(t)];
      Record(Step(t));
    }

    method LoadActiveCount(t: Tid) returns (cur: nat)
      requires Valid() && t < |tasks| && (tasks[t].LoadActive? || tasks[t].WLoadActive?)
      modifies this
      ensures Did(Step(t)) && cur == old(activeCount)
      ensures |tasks| == old(|tasks|)
      ensures old(tasks[t]).LoadActive? ==> tasks[t] == if cur < old(tasks[t]).max then FastClaim(cur) else PushBack
      ensures old(tasks[t]).WLoadActive? ==> tasks[t] == WSeen(old(tasks[t]).max, cur)
    {
      cur := activeCount;
      if tasks[t].WLoadActive? {
        tasks := tasks[t := WSeen(tasks[t].max, cur)];
      } else {
        tasks := tasks[t := if cur < tasks[t].max then FastClaim(cur) else PushBack];
      }
      trace := trace + [Step(t)];
      Record(Step(t));
    }

    /** `active_count.compare_exchange(current, current + 1)`. */
    method ClaimSlot(t: Tid) returns (ok: bool)
      requires Valid() && t < |tasks| && (tasks[t].FastClaim? || tasks[t].WClaim?)
      modifies this
      ensures Did(Step(t)) && ok == (old(activeCount) == old(tasks[t]).cur)
      ensures |tasks| == old(|tasks|) && activeCount == old(activeCount) + if ok then 1 else 0
      ensures ok && old(tasks[t]).FastClaim? ==> tasks[t] == Starting(old(|slotReleased|), Direct)
      ensures ok && old(tasks[t]).WClaim? ==> tasks[t] == Starting(old(|slotReleased|), ForQueued(old(tasks[t]).req))
      ensures !ok && old(tasks[t]).FastClaim? ==> tasks[t] == PushBack
      ensures !ok && old(tasks[t]).WClaim? ==> tasks[t] == WPutBack(old(tasks[t]).req)
    {
      var k := tasks[t];
      ok := activeCount == k.cur;
      if ok {
        activeCount := activeCount + 1;
        tasks := tasks[t := Starting(|slotReleased|, if k.FastClaim? then Direct else ForQueued(k.req))];
        slotReleased := slotReleased + [false];
      } else {
        tasks := tasks[t := if k.FastClaim? then PushBack else WPutBack(k.req)];
      }
      trace := trace + [Step(t)];
      Record(Step(t));
    }

    method PushBackRequest(t: Tid)
      requires Valid() && t < |tasks| && tasks[t].PushBack?
      modifies this
      ensures Did(Step(t)) && queue == old(queue) + [t]
      ensures |tasks| == old(|tasks|) && tasks[t] == KickWorker
    {
      queue := queue + [t];
      tasks := tasks[t := KickWorker];
      trace := trace + [Step(t)];
      Record(Step(t));
    }

    /** `queue_worker_active.compare_exchange(false, true)`. */
    method RaiseWorkerFlag(t: Tid) returns (ok: bool)
      requires Valid() && t < |tasks| && (tasks[t].KickWorker? || tasks[t].WRearm?)
      modifies this
      ensures Did(Step(t)) && ok == !old(queueWorkerActive) && queueWorkerActive
      ensures |tasks| == old(|tasks|)
      ensures old(tasks[t]).KickWorker? ==> tasks[t] == if ok then SpawnWorker else AwaitResult
      ensures old(tasks[t]).WRearm? ==> tasks[t] == if ok then WLoadMax else Finished
    {
      ok := !queueWorkerActive;
      queueWorkerActive := true;
      tasks := tasks[t := if tasks[t].KickWorker? then (if ok then SpawnWorker else AwaitResult)
                          else if ok then WLoadMax else Finished];
      trace := trace + [Step(t)];
      Record(Step(t));
    }

    method SpawnQueueWorker(t: Tid) returns (worker: Tid)
      requires Valid() && t < |tasks| && tasks[t].SpawnWorker?
      modifies this
      ensures Did(Step(t)) && worker == old(|tasks|)
      ensures |tasks| == worker + 1 && tasks[t] == AwaitResult && tasks[worker] == WLoadMax
    {
      worker := |tasks|;
      tasks := tasks[t := AwaitResult] + [WLoadMax];
      trace := trace + [Step(t)];
      Record(Step(t));
    }

    method TakeResult(t: Tid) returns (ok: bool)
      requires Valid() && t < |tasks| && tasks[t].AwaitResult? && t in results
      modifies this
      ensures Did(Step(t)) && ok == old(results)[t] && results == old(results)
      ensures |tasks| == old(|tasks|) && tasks[t] == Finished
    {
      ok := results[t];
      tasks := tasks[t := Finished];
      trace := trace + [Step(t)];
      Record(Step(t));
    }

    /** The first poll of `slot_available.notified()`: takes the permit, or joins the waiters. */
    method PollNotified(t: Tid) returns (ready: bool)
      requires Valid() && t < |tasks| && tasks[t].WSeen? && tasks[t].cur >= tasks[t].max
      modifies this
      ensures Did(Step(t)) && ready == old(permit) && !permit
      ensures |tasks| == old(|tasks|) && tasks[t] == if ready then WLoadMax else WParked(old(tasks[t]).max)
    {
      ready := permit;
      if ready {
        permit := false;
        tasks := tasks[t := WLoadMax];
      } else {
        waiters := waiters + [t];
        tasks := tasks[t := WParked(tasks[t].max)];
      }
      trace := trace + [Step(t)];
      Record(Step(t));
    }

    method PopFrontRequest(t: Tid) returns (queued: Option<Tid>)
      requires Valid() && t < |tasks| && tasks[t].WSeen? && tasks[t].cur < tasks[t].max
      modifies this
      ensures Did(Step(t)) && |tasks| == old(|tasks|)
      ensures queued.None? ==> old(queue) == [] == queue && tasks[t] == WStoreIdle
      ensures queued.Some? ==>
                old(queue) == [queued.value] + queue && tasks[t] == WClaim(old(tasks[t]).cur, queued.value)
    {
      if queue == [] {
        queued := None;
        tasks := tasks[t := WStoreIdle];
      } else {
        queued := Some(queue[0]);
        tasks := tasks[t := WClaim(tasks[t].cur, queue[0])];
        queue := queue[1..];
      }
      trace := trace + [Step(t)];
      Record(Step(t));
    }

    method PushFrontRequest(t: Tid)
      requires Valid() && t < |tasks| && tasks[t].WPutBack?
      modifies this
      ensures Did(Step(t)) && queue == [old(tasks[t]).req] + old(queue)
      ensures |tasks| == old(|tasks|) && tasks[t] == WLoadMax
    {
      queue := [tasks[t].req] + queue;
      tasks := tasks[t := WLoadMax];
      trace := trace + [Step(t)];
      Record(Step(t));
    }

    method LowerWorkerFlag(t: Tid)
      requires Valid() && t < |tasks| && tasks[t].WStoreIdle?
      modifies this
      ensures Did(Step(t)) && !queueWorkerActive
      ensures |tasks| == old(|tasks|) && tasks[t] == WRecheck
    {
      queueWorkerActive := false;
      tasks := tasks[t := WRecheck];
      trace := trace + [Step(t)];
      Record(Step(t));
    }

    method HasQueuedWork(t: Tid) returns (hasWork: bool)
      requires Valid() && t < |tasks| && tasks[t].WRecheck?
      modifies this
      ensures Did(Step(t)) && hasWork == (old(queue) != []) && queue == old(queue)
      ensures |tasks| == old(|tasks|) && tasks[t] == if hasWork then WRearm else Finished
    {
      hasWork := queue != [];
      tasks := tasks[t := if hasWork then WRearm else Finished];
      trace := trace + [Step(t)];
      Record(Step(t));
    }

    method SendResult(t: Tid)
      requires Valid() && t < |tasks| && tasks[t].WDeliver?
      modifies this
      ensures Did(Step(t)) && results == old(results)[old(tasks[t]).req := old(tasks[t]).ok]
      ensures |tasks| == old(|tasks|) && tasks[t] == WLoadMax
    {
      results := results[tasks[t].req := tasks[t].ok];
      tasks := tasks[t := WLoadMax];
      trace := trace + [Step(t)];
      Record(Step(t));
    }

    /** `slot_released.compare_exchange(false, true)`. */
    method ClaimRelease(t: Tid) returns (won: bool)
      requires Valid() && t < |tasks| && tasks[t].ReleaseCas?
      modifies this
      ensures Did(Step(t)) && old(tasks[t]).slot < |old(slotReleased)|
      ensures won == !old(slotReleased)[old(tasks[t]).slot]
      ensures slotReleased == old(slotReleased)[old(tasks[t]).slot := true] && |tasks| == old(|tasks|)
      ensures won ==> tasks[t] == FetchSub(old(tasks[t]).slot, old(tasks[t]).caller)
      ensures !won ==> tasks[t] == AfterRelease(old(tasks[t]).caller)
    {
      SlotIsClaimed(t);
      var k := tasks[t];
      won := !slotReleased[k.slot];
      slotReleased := slotReleased[k.slot := true];
      tasks := tasks[t := if won then FetchSub(k.slot, k.caller) else AfterRelease(k.caller)];
      trace := trace + [Step(t)];
      Record(Step(t));
    }

    method SubtractActive(t: Tid)
      requires Valid() && t < |tasks| && tasks[t].FetchSub?
      modifies this
      ensures Did(Step(t)) && activeCount == (old(activeCount) + U32 - 1) % U32 && slotReleased == old(slotReleased)
      ensures |tasks| == old(|tasks|) && tasks[t] == NotifyOne(old(tasks[t]).caller)
    {
      activeCount := (activeCount + U32 - 1) % U32;
      tasks := tasks[t := NotifyOne(tasks[t].caller)];
      trace := trace + [Step(t)];
      Record(Step(t));
    }

    method NotifyOneWaiter(t: Tid)
      requires Valid() && t < |tasks| && tasks[t].NotifyOne?
      modifies this
      ensures Did(Step(t)) && permit == (old(permit) || old(waiters) == []) && slotReleased == old(slotReleased)
      ensures |tasks| == old(|tasks|) && tasks[t] == AfterRelease(old(tasks[t]).caller)
    {
      hide Enabled, Next, CanStep, Legal, After;
      Theorems.OnlyTheWorkerWaits(initialLimit, trace);
      NotifyOneIs(After(initialLimit, trace), t);
      tasks := tasks[t := AfterRelease(tasks[t].caller)];
      if waiters == [] {
        permit := true;
      } else {
        tasks := tasks[waiters[0] := WLoadMax];
        waiters := waiters[1..];
      }
      trace := trace + [Step(t)];
      Record(Step(t));
    }

    method StoreMaxConcurrent(t: Tid)
      requires Valid() && t < |tasks| && tasks[t].StoreMax?
      modifies this
      ensures Did(Step(t)) && maxConcurrent == old(tasks[t]).max
      ensures |tasks| == old(|tasks|) && tasks[t] == NotifyWaiters
    {
      maxConcurrent := tasks[t].max;
      tasks := tasks[t := NotifyWaiters];
      trace := trace + [Step(t)];
      Record(Step(t));
    }

    method NotifyAllWaiters(t: Tid)
      requires Valid() && t < |tasks| && tasks[t].NotifyWaiters?
      modifies this
      ensures Did(Step(t)) && waiters == [] && permit == old(permit)
      ensures |tasks| == old(|tasks|) && tasks[t] == Finished
    {
      Theorems.OnlyTheWorkerWaits(initialLimit, trace);
      tasks := tasks[t := Finished];
      Order.WakeAllIsWakeOne(tasks, waiters);
      if waiters != [] {
        tasks := tasks[waiters[0] := WLoadMax];
        waiters := [];
      }
      trace := trace + [Step(t)];
      Record(Step(t));
    }

    // ----- calls from outside -----

    /** A task enters `request_stream`. */
    method Enter() returns (t: Tid)
      requires Valid()
      modifies this
      ensures Did(Arrive) && t == old(|tasks|) && tasks == old(tasks) + [LoadMax]
    {
      t := |tasks|;
      tasks := tasks + [LoadMax];
      trace := trace + [Arrive];
      Record(Arrive);
    }

    /** The request of a starting task is answered, and a handle is created if it succeeded. */
    method ReceiveAnswer(t: Tid, ok: bool)
      requires Valid() && t < |tasks| && tasks[t].Starting?
      modifies this
      ensures Did(Answer(t, ok)) && IsAnswer(Requests.Requester(t, old(tasks)[t].caller), ok)
      ensures var Starting(x, who) := old(tasks[t]);
              if ok then
                && |tasks| == old(|tasks|) + 1 && tasks[old(|tasks|)] == Holding(x)
                && tasks[t] == (if who.Direct? then Finished else WDeliver(who.req, true))
              else |tasks| == old(|tasks|) && tasks[t] == ReleaseCas(x, who)
    {
      SlotIsClaimed(t);
      var Starting(x, who) := tasks[t];
      if ok {
        tasks := tasks[t := if who.Direct? then Finished else WDeliver(who.req, true)] + [Holding(x)];
        hasCallback := hasCallback + {x};
      } else {
        tasks := tasks[t := ReleaseCas(x, who)];
      }
      trace := trace + [Answer(t, ok)];
      Record(Answer(t, ok));
      Requests.AnswerIsCounted(initialLimit, old(trace), t, ok);
    }

    /** The handle of task `t` is stopped or dropped and gets to release its slot. */
    method CloseHandle(t: Tid)
      requires Valid() && t < |tasks| && tasks[t].Holding?
      modifies this
      ensures Did(Close(t)) && |tasks| == old(|tasks|) && tasks[t] == ReleaseCas(old(tasks[t]).slot, Direct)
    {
      tasks := tasks[t := ReleaseCas(tasks[t].slot, Direct)];
      trace := trace + [Close(t)];
      Record(Close(t));
    }

    /** The connection calls `on_end` for a stream. */
    method CallOnEnd(x: nat) returns (t: Tid)
      requires Valid() && x in hasCallback
      modifies this
      ensures Did(OnEnd(x)) && t == old(|tasks|) && tasks == old(tasks) + [ReleaseCas(x, Direct)]
    {
      t := |tasks|;
      tasks := tasks + [ReleaseCas(x, Direct)];
      trace := trace + [OnEnd(x)];
      Record(OnEnd(x));
    }

    /** A task enters `set_max_concurrent`. */
    method EnterSetMax(max: nat) returns (t: Tid)
      requires Valid() && max < U32
      modifies this
      ensures Did(SetMax(max)) && t == old(|tasks|) && tasks == old(tasks) + [StoreMax(max)]
    {
      t := |tasks|;
      tasks := tasks + [StoreMax(max)];
      trace := trace + [SetMax(max)];
      Record(SetMax(max));
    }

    // ----- the scheduler -----

    /** Whether the scheduler may perform `e` now. */
    predicate CanPerform(e: Event)
      reads this
    {
      match e
      case Arrive => true
      case Step(t) =>
        && t < |tasks| && !tasks[t].Starting? && !tasks[t].Holding? && !tasks[t].WParked? && !tasks[t].Finished?
        && (tasks[t].AwaitResult? ==> t in results)
      case Answer(t, _) => t < |tasks| && tasks[t].Starting?
      case Close(t) => t < |tasks| && tasks[t].Holding?
      case OnEnd(x) => x in hasCallback
      case SetMax(m) => m < U32
    }

    lemma CanPerformMeansEnabled(e: Event)
      requires Valid() && CanPerform(e)
      ensures Enabled(After(initialLimit, trace), e)
    {
      if (e.Step? || e.Answer?) && HasSlot(tasks[e.t]) {
        Theorems.SlotsAreClaimed(initialLimit, trace, e.t);
      }
      Theorems.OnlyTheWorkerWaits(initialLimit, trace);
    }

    method PerformStep(t: Tid)
      requires Valid() && CanPerform(Step(t))
      modifies this
      ensures Did(Step(t))
    {
      match tasks[t]
      case LoadMax => var _ := LoadMaxConcurrent(t);
      case WLoadMax => var _ := LoadMaxConcurrent(t);
      case LoadActive(_) => var _ := LoadActiveCount(t);
      case WLoadActive(_) => var _ := LoadActiveCount(t);
      case FastClaim(_) => var _ := ClaimSlot(t);
      case WClaim(_, _) => var _ := ClaimSlot(t);
      case PushBack => PushBackRequest(t);
      case KickWorker => var _ := RaiseWorkerFlag(t);
      case WRearm => var _ := RaiseWorkerFlag(t);
      case SpawnWorker => var _ := SpawnQueueWorker(t);
      case AwaitResult => var _ := TakeResult(t);
      case WSeen(max, cur) =>
        if cur >= max { var _ := PollNotified(t); } else { var _ := PopFrontRequest(t); }
      case WPutBack(_) => PushFrontRequest(t);
      case WStoreIdle => LowerWorkerFlag(t);
      case WRecheck => var _ := HasQueuedWork(t);
      case WDeliver(_, _) => SendResult(t);
      case ReleaseCas(_, _) => var _ := ClaimRelease(t);
      case FetchSub(_, _) => SubtractActive(t);
      case NotifyOne(_) => NotifyOneWaiter(t);
      case StoreMax(_) => StoreMaxConcurrent(t);
      case NotifyWaiters => NotifyAllWaiters(t);
    }

    method Perform(e: Event)
      requires Valid() && CanPerform(e)
      modifies this
      ensures Did(e)
    {
      match e
      case Arrive => var _ := Enter();
      case Step(t) => PerformStep(t);
      case Answer(t, ok) => ReceiveAnswer(t, ok);
      case Close(t) => CloseHandle(t);
      case OnEnd(x) => var _ := CallOnEnd(x);
      case SetMax(m) => var _ := EnterSetMax(m);
    }

    /** Task `t` loses the processor: others perform events of their own, in any number and
        order. `t` stays where it is, unless it was parked and is woken. */
    method Yield(t: Tid)
      requires Valid() && t < |tasks|
      modifies this
      ensures Valid() && t < |tasks|
      ensures tasks[t] == old(tasks[t]) || (old(tasks[t]).WParked? && tasks[t].WLoadMax?)
      ensures FlagsKept(old(slotReleased), slotReleased)
      ensures old(trace) <= trace
      ensures forall i :: old(|trace|) <= i < |trace| ==> !IsBy(trace[i], t)
      ensures Rounds(t) == old(Rounds(t))
    {
      var script: seq<Event> := *;
      for i := 0 to |script|
        invariant Valid() && t < |tasks|
        invariant tasks[t] == old(tasks[t]) || (old(tasks[t]).WParked? && tasks[t].WLoadMax?)
        invariant FlagsKept(old(slotReleased), slotReleased)
        invariant old(trace) <= trace
        invariant forall j :: old(|trace|) <= j < |trace| ==> !IsBy(trace[j], t)
        invariant Rounds(t) == old(Rounds(t))
      {
        if CanPerform(script[i]) && !IsBy(script[i], t) {
          CanPerformMeansEnabled(script[i]);
          Theorems.FlagsStaySet(After(initialLimit, trace), script[i]);
          Theorems.OthersOnlyWake(initialLimit, trace, script[i], t);
          ghost var before := trace;
          Perform(script[i]);
          Requests.RoundsGrow(initialLimit, before, script[i], t);
        }
      }
    }

    // ----- the methods of the source -----

    /** Gives a slot back behind the `slot_released` guard, as every path that ends a stream does;
        the last two operations are `stream_ended`. */
    method ReleaseSlot(t: Tid)
      requires Valid() && t < |tasks| && tasks[t].ReleaseCas?
      modifies this
      ensures Valid() && old(trace) <= trace
      ensures forall i :: |old(trace)| <= i < |trace| ==> !IsAnswerOf(trace[i], t)
      ensures Rounds(t) == old(Rounds(t))
      ensures t < |tasks| && tasks[t] == AfterRelease(old(tasks[t]).caller)
      ensures old(tasks[t]).slot < |slotReleased| && slotReleased[old(tasks[t]).slot]
    {
      hide Valid, Shows, Legal, After;
      Yield(t);
      var won := ClaimRelease(t);
      if won {
        Yield(t);
        SubtractActive(t);
        Yield(t);
        NotifyOneWaiter(t);
      }
    }

    /** The wait for the answer to a start. */
    method AwaitAnswer(t: Tid) returns (ok: bool)
      requires Valid() && t < |tasks| && tasks[t].Starting?
      modifies this
      ensures Valid() && t < |tasks| && |trace| > |old(trace)| && old(trace) <= trace
      ensures var Starting(x, who) := old(tasks[t]);
              tasks[t] == if !ok then ReleaseCas(x, who) else if who.Direct? then Finished else WDeliver(who.req, true)
      ensures trace[|trace| - 1] == Answer(t, ok)
      ensures forall i :: |old(trace)| <= i < |trace| - 1 ==> !IsAnswerOf(trace[i], t)
      ensures Rounds(t) == old(Rounds(t)) && IsAnswer(Requests.Requester(t, old(tasks[t]).caller), ok)
    {
      hide Valid, Shows, Legal, After, IsAnswer, Rounds, Requests.Requester;
      Yield(t);
      ok := *;
      ReceiveAnswer(t, ok);
    }

    /** The slot must already be claimed. */
    method StartStreamInternal(t: Tid) returns (ok: bool)
      requires Valid() && t < |tasks| && tasks[t].Starting?
      modifies this
      ensures Valid() && old(trace) <= trace && t < |tasks|
      ensures var who := old(tasks[t]).caller;
              tasks[t] == if who.Direct? then Finished else WDeliver(who.req, ok)
      ensures exists i :: |old(trace)| <= i < |trace| && trace[i] == Answer(t, ok)
                          && forall j :: |old(trace)| <= j < |trace| && IsAnswerOf(trace[j], t) ==> j == i
      ensures !ok ==> old(tasks[t]).slot < |slotReleased| && slotReleased[old(tasks[t]).slot]
      ensures Rounds(t) == old(Rounds(t)) && IsAnswer(Requests.Requester(t, old(tasks[t]).caller), ok)
    {
      hide Valid, Shows, Legal, After, IsAnswer, Rounds;
      ghost var r := Requests.Requester(t, tasks[t].caller);
      ok := AwaitAnswer(t);
      ghost var i := |trace| - 1;
      assert trace[i] == Answer(t, ok);
      if !ok {
        ghost var before := trace;
        assert Legal(initialLimit, before) && Requests.AnswersFor(initialLimit, before, r) == [ok] by {
          ShowsAnswer(r, ok);
        }
        ReleaseSlot(t);
        AnswerIsKept(before, r, ok);
        assert trace[i] == Answer(t, ok);
      }
    }

    lemma ShowsAnswer(r: Tid, ok: bool)
      requires Valid() && IsAnswer(r, ok)
      ensures Legal(initialLimit, trace) && Requests.AnswersFor(initialLimit, trace, r) == [ok]
    {
    }

    lemma AnswerIsKept(before: seq<Event>, r: Tid, ok: bool)
      requires Valid() && Legal(initialLimit, before) && before <= trace
      requires Requests.AnswersFor(initialLimit, before, r) == [ok]
      ensures IsAnswer(r, ok)
    {
      Requests.AnswersAreKept(initialLimit, before, trace, r);
    }

    /** The slow path of `request_stream`: queue the request, see to a worker, await the result. The request
        is queued once, and either waits still or has the result that was sent to it. */
    method QueueAndWait(t: Tid) returns (outcome: Outcome)
      requires Valid() && t < |tasks| && tasks[t].PushBack?
      modifies this
      ensures Valid() && old(trace) <= trace && t < |tasks|
      ensures Path(t) == [Requests.Queues] && multiset(Theorems.Pushed(initialLimit, trace))[t] == 1
      ensures outcome.Waiting? ==> tasks[t].AwaitResult? && t !in results
      ensures !outcome.Waiting? ==> tasks[t].Finished? && t in results && results[t] == outcome.Streaming?
    {
      hide Valid, Shows, Legal, After, Path, IsAnswer, Rounds;
      PushBackRequest(t);
      KickQueueWorker(t);
      ghost var before := trace;
      assert Legal(initialLimit, before) && Requests.Path(initialLimit, before, t) == [Requests.Queues] by {
        TakesQueue(t);
      }
      if t in results {
        var ok := TakeResult(t);
        outcome := if ok then Streaming else Failed;
      } else {
        outcome := Waiting;
      }
      KeepsPath(before, t);
      PushedOnce(t);
    }

    /** Makes sure that a worker runs, and waits. */
    method KickQueueWorker(t: Tid)
      requires Valid() && t < |tasks| && tasks[t].KickWorker?
      modifies this
      ensures Valid() && old(trace) <= trace && t < |tasks| && tasks[t].AwaitResult?
    {
      hide Valid, Shows, Legal, After, Rounds;
      Yield(t);
      var idle := RaiseWorkerFlag(t);
      if idle {
        Yield(t);
        var _ := SpawnQueueWorker(t);
      }
      Yield(t);
    }

    /** The two reads of `request_stream`, one after the other. */
    method LookForSlot(t: Tid) returns (room: bool)
      requires Valid() && t < |tasks| && tasks[t].LoadMax?
      modifies this
      ensures Valid() && old(trace) <= trace && t < |tasks|
      ensures if room then tasks[t].FastClaim? else tasks[t].PushBack?
    {
      hide Valid, Shows, Legal, After, Rounds;
      Yield(t);
      var max := LoadMaxConcurrent(t);
      Yield(t);
      var current := LoadActiveCount(t);
      room := current < max;
      Yield(t);
    }

    /** The fast path of `request_stream`: a slot is claimed for the caller if the counter still has the value
        read, and then its request is started; otherwise it goes to the queue. */
    method ClaimAndStart(t: Tid) returns (claimed: bool, ok: bool)
      requires Valid() && t < |tasks| && tasks[t].FastClaim?
      modifies this
      ensures Valid() && old(trace) <= trace && t < |tasks|
      ensures claimed == (old(activeCount) == old(tasks[t]).cur)
      ensures if claimed then tasks[t].Finished? && Path(t) == [Requests.Claims] && IsAnswer(t, ok)
              else tasks[t].PushBack?
    {
      hide Valid, Shows, Legal, After, Path, IsAnswer, Rounds;
      ok := false;
      claimed := ClaimSlot(t);
      if claimed {
        ghost var before := trace;
        assert Legal(initialLimit, before) && Requests.Path(initialLimit, before, t) == [Requests.Claims] by {
          TakesSlot(t);
        }
        ok := StartStreamInternal(t);
        KeepsPath(before, t);
      } else {
        Yield(t);
      }
    }

    /** The call enters a task of its own. That either claims a slot for itself, and the answer to its start
        is the outcome, or is queued, once, and the outcome is the result sent to it or that it waits. */
    method RequestStream() returns (t: Tid, outcome: Outcome)
      requires Valid()
      modifies this
      ensures Valid() && t == old(|tasks|) < |tasks| && old(trace) + [Arrive] <= trace
      ensures outcome.Waiting? ==> tasks[t].AwaitResult? && t !in results && Path(t) == [Requests.Queues]
      ensures !outcome.Waiting? ==> tasks[t].Finished? && IsAnswer(t, outcome.Streaming?)
      ensures Path(t) == [Requests.Claims] || Path(t) == [Requests.Queues]
      ensures multiset(Theorems.Pushed(initialLimit, trace))[t] == if Path(t) == [Requests.Queues] then 1 else 0
      ensures Path(t) == [Requests.Queues] && !outcome.Waiting? ==> t in results && results[t] == outcome.Streaming?
    {
      hide Valid, Shows, Legal, After, Path, IsAnswer, Rounds;
      t := Enter();
      var room := LookForSlot(t);
      if room {
        var claimed, ok := ClaimAndStart(t);
        if claimed {
          PushedOnce(t);
          return t, if ok then Streaming else Failed;
        }
      }

      outcome := QueueAndWait(t);
      ResultIsAnswer(t);
    }

    lemma TakesSlot(t: Tid)
      requires Valid() && t < |tasks| && tasks[t].Starting? && tasks[t].caller.Direct?
      ensures Legal(initialLimit, trace) && Requests.Path(initialLimit, trace, t) == [Requests.Claims]
    {
      Requests.RequestTakesOnePath(initialLimit, trace, t);
    }

    lemma TakesQueue(t: Tid)
      requires Valid() && t < |tasks| && Wakeups.IsWaiting(tasks[t])
      ensures Legal(initialLimit, trace) && Requests.Path(initialLimit, trace, t) == [Requests.Queues]
    {
      Requests.RequestTakesOnePath(initialLimit, trace, t);
    }

    lemma KeepsPath(before: seq<Event>, t: Tid)
      requires Valid() && Legal(initialLimit, before) && before <= trace
      requires Requests.Path(initialLimit, before, t) != []
      ensures Path(t) == Requests.Path(initialLimit, before, t)
    {
      Requests.PathIsKept(initialLimit, before, trace, t);
    }

    lemma PushedOnce(t: Tid)
      requires Valid()
      ensures multiset(Theorems.Pushed(initialLimit, trace))[t] == if Requests.Queues in Path(t) then 1 else 0
    {
      Requests.QueuedIsPushedOnce(initialLimit, trace, t);
    }

    lemma ResultIsAnswer(t: Tid)
      requires Valid()
      ensures t in results ==> IsAnswer(t, results[t])
    {
      Requests.RequestGetsItsOwnAnswer(initialLimit, trace, t);
    }

    /** The worker found the queue empty: it lowers the flag, looks again, and goes on exactly if new
        work had arrived and it won the flag back: it found the flag clear and left it raised. */
    method Retire(t: Tid) returns (again: bool)
      requires Valid() && t < |tasks| && tasks[t].WStoreIdle?
      modifies this
      ensures Valid() && old(trace) <= trace && t < |tasks|
      ensures tasks[t] == if again then WLoadMax else Finished
      ensures again ==> Performed(t, WRearm) && queueWorkerActive && !FlagBeforeLast()
      ensures !again ==> (Performed(t, WRecheck) && queue == []) || (Performed(t, WRearm) && FlagBeforeLast())
      ensures Rounds(t) == old(Rounds(t))
    {
      hide Shows, Legal, After, Theorems.Performs;
      LowerWorkerFlag(t);
      Yield(t);
      label Looks:
      again := HasQueuedWork(t);
      StepIsPerformed@Looks(t);
      if again {
        Yield(t);
        label Rearms:
        again := RaiseWorkerFlag(t);
        StepIsPerformed@Rearms(t);
        FlagWas@Rearms(t);
      }
    }

    /** Whether the worker flag was up before the last event. */
    ghost predicate FlagBeforeLast()
      requires trace != [] && Legal(initialLimit, trace[..|trace| - 1])
      reads this
    {
      After(initialLimit, trace[..|trace| - 1]).line.flag
    }

    twostate lemma FlagWas(t: Tid)
      requires old(Valid()) && trace == old(trace) + [Step(t)]
      ensures Legal(initialLimit, trace[..|trace| - 1]) && FlagBeforeLast() == old(queueWorkerActive)
    {
      assert trace[..|trace| - 1] == old(trace);
    }

    /** The worker claims a slot for the request in its hand exactly when the counter still has the
        value it read; then the request is started and its answer is sent to it. Otherwise the
        request is back in front of the queue. */
    method ServeOrPutBack(t: Tid)
      requires Valid() && t < |tasks| && tasks[t].WClaim?
      modifies this
      ensures Valid() && old(trace) <= trace && t < |tasks| && tasks[t].WLoadMax?
      ensures var WClaim(cur, r) := old(tasks[t]);
              if old(activeCount) == cur then
                && r in results && Answer(t, results[r]) in trace && Performed(t, WDeliver(r, results[r]))
                && IsAnswer(r, results[r])
              else queue != [] && queue[0] == r && Performed(t, WPutBack(r))
      ensures Rounds(t) == old(Rounds(t))
    {
      hide Shows, Legal, After, Theorems.Performs;
      var claimed := ClaimSlot(t);
      Yield(t);
      label PutsBack:
      if !claimed {
        PushFrontRequest(t);
        StepIsPerformed@PutsBack(t);
      } else {
        var ok := StartStreamInternal(t);
        ghost var answered := trace;
        ghost var i :| 0 <= i < |answered| && answered[i] == Answer(t, ok);
        Yield(t);
        label Delivers:
        SendResult(t);
        StepIsPerformed@Delivers(t);
        ResultIsAnswer(old(tasks[t]).req);
        assert trace[i] == Answer(t, ok);
      }
    }

    /** The limit that task `t` acts on was in force at its reading, it has taken every slot below
        it, and if one is free below the present limit, then a limit was written since. */
    ghost predicate ParkedRightly(t: Tid)
      requires Valid() && t < |tasks| && tasks[t].WParked?
      reads this
    {
      && Theorems.LastRead(initialLimit, trace, t) == Some(tasks[t].max)
      && activeCount >= tasks[t].max
      && (activeCount < maxConcurrent ==> Theorems.StoredSinceRead(initialLimit, trace, t))
    }

    lemma ParkedForGoodReason(t: Tid)
      requires Valid() && t < |tasks| && tasks[t].WParked?
      ensures !Wakeups.WakePending(After(initialLimit, trace)) ==> ParkedRightly(t)
    {
      if !Wakeups.WakePending(After(initialLimit, trace)) {
        Theorems.NoWakeUpIsLost(initialLimit, trace, t);
      }
    }

    /** The worker's loop, observed for at most `rounds` rounds, each of which it performs. It ends parked, or
        retired, or at the top of the loop when the rounds are used up. */
    method ProcessQueue(t: Tid, rounds: nat)
      requires Valid() && t < |tasks| && tasks[t].WLoadMax?
      modifies this
      ensures Valid() && old(trace) <= trace && t < |tasks|
      ensures tasks[t].WLoadMax? || tasks[t].WParked? || tasks[t].Finished?
      ensures Rounds(t) <= old(Rounds(t)) + rounds && (rounds > 0 ==> old(Rounds(t)) < Rounds(t))
      ensures tasks[t].WLoadMax? ==> Rounds(t) == old(Rounds(t)) + rounds
      ensures tasks[t].WParked? && !Wakeups.WakePending(After(initialLimit, trace)) ==> ParkedRightly(t)
    {
      hide Valid, Shows, Legal, After, ParkedRightly, Performed, FlagBeforeLast, Wakeups.WakePending, Rounds, IsAnswer;
      var left := rounds;
      while left > 0
        invariant Valid() && old(trace) <= trace
        invariant t < |tasks| && tasks[t].WLoadMax?
        invariant 0 <= left <= rounds && Rounds(t) == old(Rounds(t)) + (rounds - left)
      {
        left := left - 1;
        Yield(t);
        var max := LoadMaxConcurrent(t);
        Yield(t);
        var current := LoadActiveCount(t);
        Yield(t);

        if current >= max {
          var ready := PollNotified(t);
          Yield(t);
          if !ready && tasks[t].WParked? {
            ParkedForGoodReason(t);
            return;
          }
          continue;
        }

        var queued := PopFrontRequest(t);
        Yield(t);
        if queued.None? {
          var again := Retire(t);
          if !again { return; }
        } else {
          ServeOrPutBack(t);
        }
      }
    }

    /** The limit is written, and later everyone waiting at that moment is woken. */
    method SetMaxConcurrent(max: nat) returns (t: Tid)
      requires Valid() && max < U32
      modifies this
      ensures Valid() && old(trace) <= trace && t < |tasks| && tasks[t].Finished?
      ensures exists i :: |old(trace)| <= i < |trace| - 1 && Theorems.Performs(initialLimit, trace, i, t, StoreMax(max))
      ensures Performed(t, NotifyWaiters) && waiters == []
    {
      hide Shows, Legal, After, Theorems.Performs;
      t := EnterSetMax(max);
      Yield(t);
      label Stores:
      StoreMaxConcurrent(t);
      StepIsPerformed@Stores(t);
      ghost var stored := trace;
      Yield(t);
      label Notifies:
      NotifyAllWaiters(t);
      StepIsPerformed@Notifies(t);
      Theorems.PerformsLater(initialLimit, stored, trace, |stored| - 1, t, StoreMax(max));
    }

    /** `on_end` of a stream releases its slot unless another path already has. */
    method EndStream(x: nat)
      requires Valid() && x in hasCallback
      modifies this
      ensures Valid() && old(trace) <= trace
      ensures x < |slotReleased| && slotReleased[x]
    {
      hide Valid, Shows, Legal, After;
      var t := CallOnEnd(x);
      assert tasks[t] == ReleaseCas(x, Direct);
      ReleaseSlot(t);
    }

    /** What the object shows at any moment: the counter is the number of slots held, within a
        limit that was stored, queued requests have someone to serve them, and they are claimed and
        answered in the order in which they were queued. */
    lemma ObjectIsSound()
      requires Valid()
      ensures activeCount == |Theorems.Held(After(initialLimit, trace).slots, tasks)| < U32
      ensures exists m :: Theorems.WasStored(initialLimit, trace, m) && activeCount <= m
      ensures queue != [] ==> queueWorkerActive || exists t: Tid :: t < |tasks| && Wakeups.IsRescuer(tasks[t])
      ensures Theorems.Replied(initialLimit, trace) <= Theorems.Claimed(initialLimit, trace)
           <= Theorems.Pushed(initialLimit, trace)
    {
      Theorems.QueueIsFifo(initialLimit, trace);
      Theorems.ActiveCountIsHeldSlots(initialLimit, trace);
      Theorems.AdmissionStaysWithinALimit(initialLimit, trace);
      var m :| Theorems.WasStored(initialLimit, trace, m) && After(initialLimit, trace).slots.active <= m;
      assert Theorems.WasStored(initialLimit, trace, m) && activeCount <= m;
      if queue != [] { Theorems.NoRequestIsStranded(initialLimit, trace); }
    }
  }
}
