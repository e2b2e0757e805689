/** No queued request is stranded and no released slot goes unnoticed. */
module AdmissionWakeups {
  import opened Base
  import opened Admission
  import opened AdmissionOrder

  /** Each request is queued once, and stays known until its result is taken. */
  ghost predicate ArrivalInv(arrivals: seq<Tid>, tasks: seq<Task>) {
    && NoDup(arrivals)
    && (forall i :: 0 <= i < |arrivals| ==> arrivals[i] < |tasks| && IsQueued(tasks[arrivals[i]]))
    && (forall t: Tid :: t < |tasks| && IsWaiting(tasks[t]) ==> t in arrivals)
  }

  predicate IsWaiting(k: Task) {
    k.KickWorker? || k.SpawnWorker? || k.AwaitResult?
  }

  predicate IsQueued(k: Task) {
    IsWaiting(k) || k.Finished?
  }

  /** A task between `push_back` and its attempt to raise the worker flag, or a retiring worker
      between lowering the flag and finding the queue empty. */
  predicate IsRescuer(k: Task) {
    k.KickWorker? || k.WRecheck? || k.WRearm?
  }

  /** Whenever requests are queued, the flag is up or someone is about to look again. */
  ghost predicate StrandInv(q: Line, tasks: seq<Task>) {
    q.queue != [] ==> q.flag || exists t: Tid :: t < |tasks| && IsRescuer(tasks[t])
  }

  /** The worker has seen the limit reached, whether or not it is waiting yet. */
  predicate SawLimit(k: Task) {
    k.WParked? || (k.WSeen? && k.cur >= k.max)
  }

  ghost predicate WakePending(s: State) {
    s.line.permit || exists t: Tid :: t < |s.tasks| && s.tasks[t].NotifyOne?
  }

  /** A worker that saw the limit reached, with no wake-up on its way, was right and still is. */
  ghost predicate WakeInv(s: State) {
    var k := Worker(s.line, s.tasks);
    && (k.WParked? ==> !s.line.permit)
    && (SawLimit(k) && !WakePending(s) ==> s.slots.active >= k.max)
  }

  /** An event changes the task it names, the tasks it wakes, and adds new ones at the end. */
  lemma OthersUnchanged(s: State, e: Event, u: Tid)
    requires OwnerInv(s.line, s.tasks) && Enabled(s, e)
    requires u < |s.tasks| && !s.tasks[u].WParked?
    requires (e.Step? || e.Answer? || e.Close?) ==> u != e.t
    ensures u < |Next(s, e).tasks| && Next(s, e).tasks[u] == s.tasks[u]
  {
    if e.Step? && s.tasks[e.t].NotifyWaiters? {
      WakeAllIsWakeOne(s.tasks[e.t := Finished], s.line.waiters);
    }
  }

  lemma ParkedIsOnlyWoken(s: State, e: Event, u: Tid)
    requires OwnerInv(s.line, s.tasks) && Enabled(s, e)
    requires u < |s.tasks| && s.tasks[u].WParked?
    requires (e.Step? || e.Answer? || e.Close?) ==> u != e.t
    ensures u < |Next(s, e).tasks| && (Next(s, e).tasks[u] == s.tasks[u] || Next(s, e).tasks[u].WLoadMax?)
  {
    if e.Step? {
      hide OwnerInv;
      if s.tasks[e.t].NotifyWaiters? {
        var done := s.tasks[e.t := Finished];
        WaitersAreFew(s.line, s.tasks);
        WakeAllIsWakeOne(done, s.line.waiters);
      }
    }
  }

  lemma WaitersAreFew(q: Line, tasks: seq<Task>)
    requires OwnerInv(q, tasks)
    ensures |q.waiters| <= 1 && (q.waiters != [] ==> q.waiters[0] < |tasks| && tasks[q.waiters[0]].WParked?)
  {
  }

  lemma KeepsStrand(s: State, e: Event)
    requires OwnerInv(s.line, s.tasks) && StrandInv(s.line, s.tasks) && Enabled(s, e)
    ensures StrandInv(Next(s, e).line, Next(s, e).tasks)
  {
    var s' := Next(s, e);
    if s'.line.queue != [] && !s'.line.flag {
      if s.line.queue != [] && !s.line.flag {
        var u: Tid :| u < |s.tasks| && IsRescuer(s.tasks[u]);
        if (e.Step? || e.Answer? || e.Close?) && u == e.t {
          assert IsRescuer(s'.tasks[u]);
        } else {
          OthersUnchanged(s, e, u);
        }
      } else {
        assert IsRescuer(s'.tasks[e.t]);
      }
    }
  }

  /** A wake-up that is pending stays pending, is turned into a permit, or reaches the worker. */
  lemma WakeStaysPending(s: State, t: Tid)
    requires OwnerInv(s.line, s.tasks) && CanStep(s, t) && WakePending(s)
    ensures WakePending(StepTask(s, t)) || s.line.owner == Some(t) || Worker(s.line, StepTask(s, t).tasks).WLoadMax?
  {
    if !s.line.permit {
      var u: Tid :| u < |s.tasks| && s.tasks[u].NotifyOne?;
      if u != t { OthersUnchanged(s, Step(t), u); }
    }
  }

  lemma WorkerKeepsWake(s: State, t: Tid)
    requires OrderInv(s.line, s.tasks) && WakeInv(s) && CanStep(s, t) && Owns(s.tasks[t])
    requires OwnerInv(StepTask(s, t).line, StepTask(s, t).tasks)
    ensures WakeInv(StepTask(s, t))
  {
    var s' := StepTask(s, t);
    assert s.line.owner == Some(t);
    if s'.tasks[t].WParked? && WakePending(s) && !s.line.permit {
      var u: Tid :| u < |s.tasks| && s.tasks[u].NotifyOne?;
      OthersUnchanged(s, Step(t), u);
    }
  }

  lemma OthersKeepWake(s: State, t: Tid)
    requires OrderInv(s.line, s.tasks) && WakeInv(s) && CanStep(s, t) && !Owns(s.tasks[t])
    requires OwnerInv(StepTask(s, t).line, StepTask(s, t).tasks)
    ensures WakeInv(StepTask(s, t))
  {
    var s' := StepTask(s, t);
    var k, k' := Worker(s.line, s.tasks), Worker(s'.line, s'.tasks);
    if s.tasks[t].NotifyWaiters? {
      WakeAllIsWakeOne(s.tasks[t := Finished], s.line.waiters);
    }
    if s.tasks[t].FetchSub? {
      assert s'.tasks[t].NotifyOne?;
    } else if SawLimit(k') {
      assert k' == k && s.line.owner == s'.line.owner;
      if WakePending(s) { WakeStaysPending(s, t); }
    }
  }

  lemma StepKeepsWake(s: State, t: Tid)
    requires OrderInv(s.line, s.tasks) && WakeInv(s) && CanStep(s, t)
    ensures WakeInv(StepTask(s, t))
  {
    StepKeepsOrder(s, t);
    hide WakeInv, StepTask, QueueInv;
    if Owns(s.tasks[t]) { WorkerKeepsWake(s, t); } else { OthersKeepWake(s, t); }
  }

  lemma KeepsWake(s: State, e: Event)
    requires OrderInv(s.line, s.tasks) && WakeInv(s) && Enabled(s, e)
    ensures WakeInv(Next(s, e))
  {
    KeepsOrder(s, e);
    if e.Step? {
      StepKeepsWake(s, e.t);
    } else if WakePending(s) && !s.line.permit {
      var u: Tid :| u < |s.tasks| && s.tasks[u].NotifyOne?;
      OthersUnchanged(s, e, u);
    }
  }

  lemma MoveKeepsArrivals(arrivals: seq<Tid>, tasks: seq<Task>, t: Tid, k: Task)
    requires ArrivalInv(arrivals, tasks) && t < |tasks|
    requires IsWaiting(k) ==> IsWaiting(tasks[t])
    requires IsQueued(tasks[t]) ==> IsQueued(k)
    ensures ArrivalInv(arrivals, tasks[t := k])
  {
  }

  lemma SpawnKeepsArrivals(arrivals: seq<Tid>, tasks: seq<Task>, k: Task)
    requires ArrivalInv(arrivals, tasks) && !IsWaiting(k)
    ensures ArrivalInv(arrivals, tasks + [k])
  {
  }

  lemma EnqueueKeepsArrivals(arrivals: seq<Tid>, tasks: seq<Task>, t: Tid)
    requires ArrivalInv(arrivals, tasks) && t < |tasks| && tasks[t].PushBack?
    ensures ArrivalInv(arrivals + [t], tasks[t := KickWorker])
  {
    assert (arrivals + [t])[|arrivals|] == t;
  }

  lemma WakeKeepsArrivals(s: State, t: Tid)
    requires OwnerInv(s.line, s.tasks) && ArrivalInv(s.line.arrivals, s.tasks) && CanStep(s, t)
    requires s.tasks[t].NotifyWaiters? || s.tasks[t].NotifyOne?
    ensures ArrivalInv(StepTask(s, t).line.arrivals, StepTask(s, t).tasks)
  {
    hide ArrivalInv;
    var arrivals, w := s.line.arrivals, s.line.waiters;
    var k := if s.tasks[t].NotifyWaiters? then Finished else AfterRelease(s.tasks[t].caller);
    MoveKeepsArrivals(arrivals, s.tasks, t, k);
    WakeAllIsWakeOne(s.tasks[t := k], w);
    if w != [] {
      MoveKeepsArrivals(arrivals, s.tasks[t := k], w[0], WLoadMax);
    }
  }

  lemma StepKeepsArrivals(s: State, t: Tid)
    requires OwnerInv(s.line, s.tasks) && ArrivalInv(s.line.arrivals, s.tasks) && CanStep(s, t)
    ensures ArrivalInv(StepTask(s, t).line.arrivals, StepTask(s, t).tasks)
  {
    hide ArrivalInv, OwnerInv;
    var arrivals := s.line.arrivals;
    if s.tasks[t].PushBack? {
      EnqueueKeepsArrivals(arrivals, s.tasks, t);
    } else if s.tasks[t].NotifyWaiters? || s.tasks[t].NotifyOne? {
      WakeKeepsArrivals(s, t);
    } else {
      var k := StepTask(s, t).tasks[t];
      MoveKeepsArrivals(arrivals, s.tasks, t, k);
      if s.tasks[t].SpawnWorker? {
        SpawnKeepsArrivals(arrivals, s.tasks[t := k], WLoadMax);
      }
    }
  }

  lemma KeepsArrivals(s: State, e: Event)
    requires OwnerInv(s.line, s.tasks) && ArrivalInv(s.line.arrivals, s.tasks) && Enabled(s, e)
    ensures ArrivalInv(Next(s, e).line.arrivals, Next(s, e).tasks)
  {
    hide ArrivalInv, OwnerInv, StepTask;
    var arrivals := s.line.arrivals;
    match e
    case Arrive => SpawnKeepsArrivals(arrivals, s.tasks, LoadMax);
    case Step(t) => StepKeepsArrivals(s, t);
    case Answer(t, ok) =>
      var k := AnswerStart(s, t, ok).tasks[t];
      MoveKeepsArrivals(arrivals, s.tasks, t, k);
      if ok { SpawnKeepsArrivals(arrivals, s.tasks[t := k], Holding(s.tasks[t].slot)); }
    case Close(t) => MoveKeepsArrivals(arrivals, s.tasks, t, ReleaseCas(s.tasks[t].slot, Direct));
    case OnEnd(x) => SpawnKeepsArrivals(arrivals, s.tasks, ReleaseCas(x, Direct));
    case SetMax(m) => SpawnKeepsArrivals(arrivals, s.tasks, StoreMax(m));
  }
}
