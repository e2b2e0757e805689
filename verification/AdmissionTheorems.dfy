/** What every run of slot admission guarantees, whatever the interleaving. */
module AdmissionTheorems {
  import opened Base
  import opened Admission
  import opened AdmissionOrder
  import opened AdmissionSlots
  import opened AdmissionWakeups

  ghost predicate Inv(s: State) {
    && OrderInv(s.line, s.tasks)
    && CountInv(s.slots, s.tasks)
    && ArrivalInv(s.line.arrivals, s.tasks)
    && StrandInv(s.line, s.tasks)
    && WakeInv(s)
  }

  lemma NextKeepsInv(s: State, e: Event)
    requires Inv(s) && Enabled(s, e)
    ensures Inv(Next(s, e))
  {
    assert OwnerInv(s.line, s.tasks);
    hide OrderInv, CountInv, ArrivalInv, StrandInv, WakeInv, OwnerInv, Next;
    KeepsOrder(s, e);
    KeepsCount(s, e);
    KeepsArrivals(s, e);
    KeepsStrand(s, e);
    KeepsWake(s, e);
  }

  lemma {:induction false} RunKeepsInv(limit: nat, es: seq<Event>)
    requires limit < U32 && Legal(limit, es)
    ensures Inv(After(limit, es))
    decreases |es|
  {
    if es != [] {
      var before := es[..|es| - 1];
      RunKeepsInv(limit, before);
      NextKeepsInv(After(limit, before), es[|es| - 1]);
    }
  }

  // ----- the counter -----

  ghost predicate Subtracting(tasks: seq<Task>, x: nat) {
    exists t: Tid :: t < |tasks| && tasks[t].FetchSub? && tasks[t].slot == x
  }

  /** The slots not released yet, and those whose winner has still to subtract. */
  ghost function Held(c: Slots, tasks: seq<Task>): set<nat> {
    set x | x in Upto(|c.released|) && (!c.released[x] || Subtracting(tasks, x))
  }

  lemma HeldIsNotFreed(c: Slots, tasks: seq<Task>)
    requires SlotInv(c, tasks)
    ensures Held(c, tasks) == Upto(|c.released|) - c.freed
  {
    forall x: nat | x < |c.released| && x !in c.freed ensures x in Held(c, tasks) {
      assert Keeps(tasks[c.keeper[x]], x, c.released[x]);
    }
    forall x | x in Held(c, tasks) ensures x !in c.freed {
      if c.released[x] {
        var t: Tid :| t < |tasks| && tasks[t].FetchSub? && tasks[t].slot == x;
        assert Fits(c, t, tasks[t]);
      }
    }
  }

  /** `active_count` is exact in every state of every interleaving, and never wraps. */
  lemma ActiveCountIsHeldSlots(limit: nat, es: seq<Event>)
    requires limit < U32 && Legal(limit, es)
    ensures var s := After(limit, es); s.slots.active == |Held(s.slots, s.tasks)| < U32
  {
    RunKeepsInv(limit, es);
    var c, tasks := After(limit, es).slots, After(limit, es).tasks;
    hide After, Held;
    HeldIsNotFreed(c, tasks);
    assert Upto(|c.released|) == Held(c, tasks) + c.freed;
  }

  /** A slot not subtracted yet has a start, a handle or a release that answers for it. */
  lemma EverySlotHasAHolder(limit: nat, es: seq<Event>, x: nat)
    requires limit < U32 && Legal(limit, es) && x < |After(limit, es).slots.released|
    ensures var s := After(limit, es);
            x in s.slots.freed || exists t: Tid :: t < |s.tasks| && HasSlot(s.tasks[t]) && s.tasks[t].slot == x
  {
    RunKeepsInv(limit, es);
    var s := After(limit, es);
    if x !in s.slots.freed {
      assert Keeps(s.tasks[s.slots.keeper[x]], x, s.slots.released[x]);
    }
  }

  /** Once no start, handle or release is under way, every slot is free again. */
  lemma CounterReturnsToZero(limit: nat, es: seq<Event>)
    requires limit < U32 && Legal(limit, es)
    requires forall t: Tid :: t < |After(limit, es).tasks| ==> !HasSlot(After(limit, es).tasks[t])
    ensures After(limit, es).slots.active == 0
  {
    RunKeepsInv(limit, es);
    var c := After(limit, es).slots;
    forall x: nat | x < |c.released| ensures x in c.freed {
      EverySlotHasAHolder(limit, es, x);
    }
    assert c.freed == Upto(|c.released|);
  }

  /** How often a run executes `fetch_sub` for slot `x`. */
  function Subtractions(limit: nat, es: seq<Event>, x: nat): nat
    requires Legal(limit, es)
    decreases |es|
  {
    if es == [] then 0
    else
      var before, e := es[..|es| - 1], es[|es| - 1];
      var s := After(limit, before);
      Subtractions(limit, before, x)
      + if e.Step? && s.tasks[e.t].FetchSub? && s.tasks[e.t].slot == x then 1 else 0
  }

  /** Stop, Drop, StreamEnd, a failed start, a failed resume and shutdown may all try to release
      the same slot: it is subtracted at most once, and only after its flag was set. */
  lemma {:induction false} SlotIsSubtractedOnce(limit: nat, es: seq<Event>, x: nat)
    requires limit < U32 && Legal(limit, es)
    ensures Subtractions(limit, es, x) <= 1
    ensures Subtractions(limit, es, x) == 1 <==> x in After(limit, es).slots.freed
    ensures Subtractions(limit, es, x) == 1 ==>
              x < |After(limit, es).slots.released| && After(limit, es).slots.released[x]
    decreases |es|
  {
    RunKeepsInv(limit, es);
    if es != [] {
      var before, e := es[..|es| - 1], es[|es| - 1];
      var s := After(limit, before);
      SlotIsSubtractedOnce(limit, before, x);
      RunKeepsInv(limit, before);
      FreedOnlyBySubtracting(s, e);
      if e.Step? && s.tasks[e.t].FetchSub? {
        assert Fits(s.slots, e.t, s.tasks[e.t]);
      }
    }
  }

  lemma FreedOnlyBySubtracting(s: State, e: Event)
    requires Enabled(s, e)
    ensures Next(s, e).slots.freed
         == s.slots.freed + if e.Step? && s.tasks[e.t].FetchSub? then {s.tasks[e.t].slot} else {}
  {
  }

  /** In event `i` of the run task `t` performs the operation `k`. */
  predicate Performs(limit: nat, es: seq<Event>, i: nat, t: Tid, k: Task) {
    && i < |es| && es[i] == Step(t)
    && Legal(limit, es[..i]) && t < |After(limit, es[..i]).tasks| && After(limit, es[..i]).tasks[t] == k
  }

  lemma PerformsLater(limit: nat, es: seq<Event>, more: seq<Event>, i: nat, t: Tid, k: Task)
    requires es <= more && Performs(limit, es, i, t, k)
    ensures Performs(limit, more, i, t, k)
  {
    assert more[..i] == es[..i];
  }

  // ----- the limit -----

  /** The event writes `m` to `max_concurrent`. */
  predicate Stores(s: State, e: Event, m: nat) {
    e.Step? && e.t < |s.tasks| && s.tasks[e.t] == StoreMax(m)
  }

  predicate StoresSome(s: State, e: Event) {
    e.Step? && e.t < |s.tasks| && s.tasks[e.t].StoreMax?
  }

  /** The limits that were in force at some point of the run: the initial one and those written. */
  predicate WasStored(limit: nat, es: seq<Event>, m: nat)
    requires Legal(limit, es)
    decreases |es|
  {
    if es == [] then m == limit
    else WasStored(limit, es[..|es| - 1], m) || Stores(After(limit, es[..|es| - 1]), es[|es| - 1], m)
  }

  /** The limit that was written last. */
  function LastStored(limit: nat, es: seq<Event>): nat
    requires Legal(limit, es)
    decreases |es|
  {
    if es == [] then limit
    else
      var s, e := After(limit, es[..|es| - 1]), es[|es| - 1];
      if StoresSome(s, e) then s.tasks[e.t].max else LastStored(limit, es[..|es| - 1])
  }

  lemma {:induction false} LimitIsLastStored(limit: nat, es: seq<Event>)
    requires Legal(limit, es)
    ensures After(limit, es).slots.limit == LastStored(limit, es)
    decreases |es|
  {
    if es != [] {
      LimitIsLastStored(limit, es[..|es| - 1]);
      LimitChangesByStore(After(limit, es[..|es| - 1]), es[|es| - 1]);
    }
  }

  lemma {:induction false} LimitsWereStored(limit: nat, es: seq<Event>)
    requires Legal(limit, es)
    ensures WasStored(limit, es, After(limit, es).slots.peak)
    ensures WasStored(limit, es, After(limit, es).slots.limit)
    decreases |es|
  {
    if es != [] {
      var before, e := es[..|es| - 1], es[|es| - 1];
      LimitsWereStored(limit, before);
      hide After;
      LimitChangesByStore(After(limit, before), e);
    }
  }

  lemma LimitChangesByStore(s: State, e: Event)
    requires Enabled(s, e)
    ensures Next(s, e).slots.limit == if StoresSome(s, e) then s.tasks[e.t].max else s.slots.limit
    ensures Next(s, e).slots.peak == if StoresSome(s, e) then Max(s.slots.peak, s.tasks[e.t].max) else s.slots.peak
  {
  }

  /** What is written, and what is about to be, was passed to `set_max_concurrent`. */
  lemma {:induction false} StoredWasPassed(limit: nat, es: seq<Event>, m: nat)
    requires Legal(limit, es)
    ensures WasStored(limit, es, m) ==> m == limit || SetMax(m) in es
    ensures forall t: Tid :: t < |After(limit, es).tasks| && After(limit, es).tasks[t].StoreMax? ==>
              SetMax(After(limit, es).tasks[t].max) in es
    decreases |es|
  {
    if es != [] {
      var before, e := es[..|es| - 1], es[|es| - 1];
      StoredWasPassed(limit, before, m);
      assert es == before + [e];
      StoreComesFromSetMax(After(limit, before), e);
    }
  }

  lemma StoreComesFromSetMax(s: State, e: Event)
    requires Enabled(s, e)
    ensures forall t: Tid :: t < |Next(s, e).tasks| && Next(s, e).tasks[t].StoreMax? ==>
              (t < |s.tasks| && s.tasks[t] == Next(s, e).tasks[t]) || e == SetMax(Next(s, e).tasks[t].max)
  {
    if e.Step? && s.tasks[e.t].NotifyWaiters? {
      WakeAllStoresNothing(s.tasks[e.t := Finished], s.line.waiters);
    }
  }

  lemma {:induction false} WakeAllStoresNothing(tasks: seq<Task>, waiters: seq<Tid>)
    requires forall i :: 0 <= i < |waiters| ==> waiters[i] < |tasks|
    ensures forall t: Tid :: t < |tasks| && !WakeAll(tasks, waiters)[t].WLoadMax? ==>
              WakeAll(tasks, waiters)[t] == tasks[t]
    decreases |waiters|
  {
    if waiters != [] { WakeAllStoresNothing(tasks[waiters[0] := WLoadMax], waiters[1..]); }
  }

  /** Although the limit and the counter are read separately and may both be stale, the counter is
      never above the largest limit that was in force. */
  lemma AdmissionStaysWithinALimit(limit: nat, es: seq<Event>)
    requires limit < U32 && Legal(limit, es)
    ensures exists m :: WasStored(limit, es, m) && After(limit, es).slots.active <= m
  {
    RunKeepsInv(limit, es);
    LimitsWereStored(limit, es);
  }

  // ----- the worker -----

  /** However many requesters and retiring workers race for the flag, at most one task acts for
      it, and it is set exactly while one does. */
  lemma WorkerIsUnique(limit: nat, es: seq<Event>)
    requires limit < U32 && Legal(limit, es)
    ensures var s := After(limit, es);
            && (s.line.flag <==> exists t: Tid :: t < |s.tasks| && Owns(s.tasks[t]))
            && (forall t: Tid, u: Tid :: t < |s.tasks| && u < |s.tasks| && Owns(s.tasks[t]) && Owns(s.tasks[u]) ==>
                  t == u)
  {
    RunKeepsInv(limit, es);
  }

  /** The requests in the order of their `push_back`, of the worker's successful claims, and of
      the results it sent. */
  function Pushed(limit: nat, es: seq<Event>): seq<Tid>
    requires Legal(limit, es)
    decreases |es|
  {
    if es == [] then []
    else
      var before, e := es[..|es| - 1], es[|es| - 1];
      var s := After(limit, before);
      Pushed(limit, before) + if e.Step? && s.tasks[e.t].PushBack? then [e.t] else []
  }

  function Claimed(limit: nat, es: seq<Event>): seq<Tid>
    requires Legal(limit, es)
    decreases |es|
  {
    if es == [] then []
    else
      var before, e := es[..|es| - 1], es[|es| - 1];
      var s := After(limit, before);
      Claimed(limit, before)
      + if e.Step? && s.tasks[e.t].WClaim? && s.tasks[e.t].cur == s.slots.active then [s.tasks[e.t].req] else []
  }

  function Replied(limit: nat, es: seq<Event>): seq<Tid>
    requires Legal(limit, es)
    decreases |es|
  {
    if es == [] then []
    else
      var before, e := es[..|es| - 1], es[|es| - 1];
      var s := After(limit, before);
      Replied(limit, before) + if e.Step? && s.tasks[e.t].WDeliver? then [s.tasks[e.t].req] else []
  }

  lemma LogsGrow(s: State, e: Event)
    requires Enabled(s, e)
    ensures Next(s, e).line.arrivals == s.line.arrivals + if e.Step? && s.tasks[e.t].PushBack? then [e.t] else []
    ensures Next(s, e).line.dispatched == s.line.dispatched
         + if e.Step? && s.tasks[e.t].WClaim? && s.tasks[e.t].cur == s.slots.active then [s.tasks[e.t].req] else []
    ensures Next(s, e).line.replied == s.line.replied
         + if e.Step? && s.tasks[e.t].WDeliver? then [s.tasks[e.t].req] else []
  {
    if e.Step? {
      var k := s.tasks[e.t];
      if k.PushBack? {
      } else if k.WClaim? {
      } else if k.WDeliver? {
      } else {
        var q, q' := s.line, Next(s, e).line;
        assert q'.arrivals == q.arrivals && q'.dispatched == q.dispatched && q'.replied == q.replied;
      }
    }
  }

  lemma {:induction false} LogsAreTheRun(limit: nat, es: seq<Event>)
    requires Legal(limit, es)
    ensures After(limit, es).line.arrivals == Pushed(limit, es)
    ensures After(limit, es).line.dispatched == Claimed(limit, es)
    ensures After(limit, es).line.replied == Replied(limit, es)
    decreases |es|
  {
    if es != [] {
      var before := es[..|es| - 1];
      LogsAreTheRun(limit, before);
      LogsGrow(After(limit, before), es[|es| - 1]);
    }
  }

  /** Queued requests are started, and answered, in the order in which they were queued, each at
      most once, although lost races push a request back to the front. */
  lemma QueueIsFifo(limit: nat, es: seq<Event>)
    requires limit < U32 && Legal(limit, es)
    ensures Replied(limit, es) <= Claimed(limit, es) <= Pushed(limit, es)
    ensures NoDup(Pushed(limit, es))
  {
    RunKeepsInv(limit, es);
    LogsAreTheRun(limit, es);
  }

  lemma UnansweredIsAhead(q: Line, k: Task, r: Tid)
    requires QueueInv(q, k) && NoDup(q.arrivals) && r in q.arrivals && r !in q.results
    ensures r in ServingOf(k) + HandOf(k) + q.queue && NoDup(ServingOf(k) + HandOf(k) + q.queue)
  {
    var ahead := ServingOf(k) + HandOf(k) + q.queue;
    assert q.arrivals == q.replied + ahead;
    NoDupSuffix(q.replied, ahead, r);
  }

  /** A request that waits without a result is in the queue, in the worker's hand, or being
      started, and in only one of these places. */
  lemma WaitingRequestIsInLine(limit: nat, es: seq<Event>, r: Tid)
    requires limit < U32 && Legal(limit, es)
    requires r < |After(limit, es).tasks| && After(limit, es).tasks[r].AwaitResult?
    requires r !in After(limit, es).line.results
    ensures var s := After(limit, es);
            var k := Worker(s.line, s.tasks);
            var ahead := ServingOf(k) + HandOf(k) + s.line.queue;
            r in ahead && NoDup(ahead)
  {
    RunKeepsInv(limit, es);
    var s := After(limit, es);
    UnansweredIsAhead(s.line, Worker(s.line, s.tasks), r);
  }

  /** A slot once released stays released. */
  lemma FlagsStaySet(s: State, e: Event)
    requires Enabled(s, e)
    ensures |s.slots.released| <= |Next(s, e).slots.released|
    ensures forall x :: 0 <= x < |s.slots.released| && s.slots.released[x] ==> Next(s, e).slots.released[x]
  {
  }

  // ----- wake-ups -----

  /** Other tasks leave task `u` where it is, unless it is parked and they wake it. */
  lemma OthersOnlyWake(limit: nat, es: seq<Event>, e: Event, u: Tid)
    requires limit < U32 && Legal(limit, es) && Enabled(After(limit, es), e)
    requires u < |After(limit, es).tasks| && ((e.Step? || e.Answer? || e.Close?) ==> u != e.t)
    ensures var s, s' := After(limit, es), Next(After(limit, es), e);
            && u < |s'.tasks|
            && (s'.tasks[u] == s.tasks[u] || (s.tasks[u].WParked? && s'.tasks[u].WLoadMax?))
  {
    RunKeepsInv(limit, es);
    var s := After(limit, es);
    assert OwnerInv(s.line, s.tasks);
    hide After, Legal, Inv, OwnerInv, Next;
    if s.tasks[u].WParked? {
      ParkedIsOnlyWoken(s, e, u);
    } else {
      OthersUnchanged(s, e, u);
    }
  }

  /** Only the worker is ever parked, so `notify_one` finds at most one waiter. */
  lemma OnlyTheWorkerWaits(limit: nat, es: seq<Event>)
    requires limit < U32 && Legal(limit, es)
    ensures var s := After(limit, es);
            |s.line.waiters| <= 1 && WaitersExist(s) && forall w :: w in s.line.waiters ==> s.tasks[w].WParked?
  {
    RunKeepsInv(limit, es);
  }

  /** The tasks that hold or release a slot name one that was claimed. */
  lemma SlotsAreClaimed(limit: nat, es: seq<Event>, t: Tid)
    requires limit < U32 && Legal(limit, es)
    requires t < |After(limit, es).tasks| && HasSlot(After(limit, es).tasks[t])
    ensures var s := After(limit, es); s.tasks[t].slot < |s.slots.released| == |s.slots.keeper|
  {
    RunKeepsInv(limit, es);
    var s := After(limit, es);
    assert Fits(s.slots, t, s.tasks[t]);
  }

  /** A queued request keeps the flag raised, or a task that is about to look again. */
  lemma NoRequestIsStranded(limit: nat, es: seq<Event>)
    requires limit < U32 && Legal(limit, es) && After(limit, es).line.queue != []
    ensures var s := After(limit, es);
            s.line.flag || exists t: Tid :: t < |s.tasks| && IsRescuer(s.tasks[t])
  {
    RunKeepsInv(limit, es);
  }

  /** A task that acts on a limit it has read. */
  predicate Carries(k: Task) {
    k.LoadActive? || k.WLoadActive? || k.WSeen? || k.WParked?
  }

  /** The event is task `t`'s load of `max_concurrent`. */
  predicate Loads(s: State, e: Event, t: Tid) {
    e == Step(t) && t < |s.tasks| && (s.tasks[t].LoadMax? || s.tasks[t].WLoadMax?)
  }

  /** The limit that was in force when task `t` last loaded it. */
  function LastRead(limit: nat, es: seq<Event>, t: Tid): Option<nat>
    requires Legal(limit, es)
    decreases |es|
  {
    if es == [] then None
    else
      var before := es[..|es| - 1];
      if Loads(After(limit, before), es[|es| - 1], t) then Some(After(limit, before).slots.limit)
      else LastRead(limit, before, t)
  }

  /** A limit was written after task `t` last loaded it. */
  predicate StoredSinceRead(limit: nat, es: seq<Event>, t: Tid)
    requires Legal(limit, es)
    decreases |es|
  {
    es != []
    && var before, e := es[..|es| - 1], es[|es| - 1];
       !Loads(After(limit, before), e, t) && (StoresSome(After(limit, before), e) || StoredSinceRead(limit, before, t))
  }

  lemma OwnStepCarries(s: State, t: Tid)
    requires OwnerInv(s.line, s.tasks) && CanStep(s, t)
    ensures t < |StepTask(s, t).tasks|
    ensures Carries(StepTask(s, t).tasks[t]) ==>
              if s.tasks[t].LoadMax? || s.tasks[t].WLoadMax? then StepTask(s, t).tasks[t].max == s.slots.limit
              else Carries(s.tasks[t]) && StepTask(s, t).tasks[t].max == s.tasks[t].max
  {
    if s.tasks[t].NotifyWaiters? {
      WakeAllIsWakeOne(s.tasks[t := Finished], s.line.waiters);
    }
  }

  lemma NewTaskCarriesNothing(s: State, e: Event, t: Tid)
    requires Enabled(s, e) && |s.tasks| <= t < |Next(s, e).tasks|
    ensures !Carries(Next(s, e).tasks[t])
  {
  }

  lemma CarriedSinceLoad(s: State, e: Event, t: Tid)
    requires OwnerInv(s.line, s.tasks) && Enabled(s, e)
    requires t < |Next(s, e).tasks| && Carries(Next(s, e).tasks[t])
    ensures if Loads(s, e, t) then Next(s, e).tasks[t].max == s.slots.limit
            else t < |s.tasks| && Carries(s.tasks[t]) && Next(s, e).tasks[t].max == s.tasks[t].max
  {
    hide OwnerInv, StepTask;
    if t >= |s.tasks| {
      NewTaskCarriesNothing(s, e, t);
    } else if e == Step(t) {
      OwnStepCarries(s, t);
    } else if !((e.Answer? || e.Close?) && e.t == t) {
      if s.tasks[t].WParked? {
        ParkedIsOnlyWoken(s, e, t);
      } else {
        OthersUnchanged(s, e, t);
      }
    }
  }

  /** The limit that a task acts on was in force when the task loaded it, and is the present one
      unless a limit was written since. */
  lemma {:induction false} ReadLimitWasInForce(limit: nat, es: seq<Event>, t: Tid)
    requires limit < U32 && Legal(limit, es)
    requires t < |After(limit, es).tasks| && Carries(After(limit, es).tasks[t])
    ensures var s := After(limit, es);
            && LastRead(limit, es, t) == Some(s.tasks[t].max)
            && (!StoredSinceRead(limit, es, t) ==> s.tasks[t].max == s.slots.limit)
    decreases |es|
  {
    if es != [] {
      var before, e := es[..|es| - 1], es[|es| - 1];
      RunKeepsInv(limit, before);
      CarriedSinceLoad(After(limit, before), e, t);
      LimitChangesByStore(After(limit, before), e);
      if !Loads(After(limit, before), e, t) {
        ReadLimitWasInForce(limit, before, t);
      }
    }
  }

  /** A worker that saw the limit reached, parked or not, with no permit stored and no releaser
      between `fetch_sub` and `notify_one`, finds no slot below the limit that was in force when it
      looked, and none below the present one unless a limit was written since. */
  lemma NoWakeUpIsLost(limit: nat, es: seq<Event>, w: Tid)
    requires limit < U32 && Legal(limit, es) && w < |After(limit, es).tasks|
    requires SawLimit(After(limit, es).tasks[w]) && !WakePending(After(limit, es))
    ensures var s := After(limit, es);
            && LastRead(limit, es, w) == Some(s.tasks[w].max) && s.slots.active >= s.tasks[w].max
            && (s.slots.active < s.slots.limit ==> StoredSinceRead(limit, es, w))
  {
    RunKeepsInv(limit, es);
    ReadLimitWasInForce(limit, es, w);
    var s := After(limit, es);
    assert Owns(s.tasks[w]);
    assert s.line.owner == Some(w);
  }

  /** A step that brings a waiting request closer to its result. */
  ghost predicate CanHelp(s: State, t: Tid) {
    && t < |s.tasks| && Enabled(s, Step(t))
    && (Owns(s.tasks[t]) || IsRescuer(s.tasks[t]) || s.tasks[t].NotifyOne?)
  }

  /** The worker is parked, every slot below the limit it read is taken, and if one is free below
      the present limit, then a limit was written after the worker's reading. */
  ghost predicate ParkedRightly(limit: nat, es: seq<Event>)
    requires Legal(limit, es)
  {
    var s := After(limit, es);
    && s.line.owner.Some? && Worker(s.line, s.tasks).WParked?
    && LastRead(limit, es, s.line.owner.value) == Some(Worker(s.line, s.tasks).max)
    && s.slots.active >= Worker(s.line, s.tasks).max
    && (s.slots.active < s.slots.limit ==> StoredSinceRead(limit, es, s.line.owner.value))
  }

  /** While the worker flag is up, or a task is about to look at the queue, some worker, requester
      or releaser can take a step, or the worker awaits the server's answer, or it is rightly
      parked. */
  lemma WorkGoesOn(limit: nat, es: seq<Event>)
    requires limit < U32 && Legal(limit, es)
    requires var s := After(limit, es);
             s.line.flag || exists t: Tid :: t < |s.tasks| && IsRescuer(s.tasks[t])
    ensures var s := After(limit, es);
            || (exists t: Tid :: CanHelp(s, t))
            || Worker(s.line, s.tasks).Starting?
            || ParkedRightly(limit, es)
  {
    RunKeepsInv(limit, es);
    var s := After(limit, es);
    hide After, Next, StepTask;
    if s.line.owner.Some? {
      var w := s.line.owner.value;
      assert Fits(s.slots, w, s.tasks[w]);
      if s.tasks[w].WParked? {
        if WakePending(s) {
          var u: Tid :| u < |s.tasks| && s.tasks[u].NotifyOne?;
          assert CanHelp(s, u);
        } else {
          NoWakeUpIsLost(limit, es, w);
        }
      } else if !s.tasks[w].Starting? {
        assert CanHelp(s, w);
      }
    } else {
      var u: Tid :| u < |s.tasks| && IsRescuer(s.tasks[u]);
      assert CanHelp(s, u);
    }
  }

  /** So it is while a request waits for its result. */
  lemma WaitingRequestIsServed(limit: nat, es: seq<Event>, r: Tid)
    requires limit < U32 && Legal(limit, es)
    requires r < |After(limit, es).tasks| && After(limit, es).tasks[r].AwaitResult?
    requires r !in After(limit, es).line.results
    ensures var s := After(limit, es);
            || (exists t: Tid :: CanHelp(s, t))
            || Worker(s.line, s.tasks).Starting?
            || ParkedRightly(limit, es)
  {
    RunKeepsInv(limit, es);
    WaitingRequestIsInLine(limit, es, r);
    WorkGoesOn(limit, es);
  }

  // ----- a fixed limit -----

  predicate NoSetMax(es: seq<Event>) {
    forall i :: 0 <= i < |es| ==> !es[i].SetMax?
  }

  lemma {:induction false} FixedLimitIsNotStored(limit: nat, es: seq<Event>, t: Tid)
    requires Legal(limit, es) && NoSetMax(es)
    ensures After(limit, es).slots.limit == limit && !StoredSinceRead(limit, es, t)
    decreases |es|
  {
    if es != [] {
      var before, e := es[..|es| - 1], es[|es| - 1];
      FixedLimitIsNotStored(limit, before, t);
      StoredWasPassed(limit, before, 0);
      LimitChangesByStore(After(limit, before), e);
    }
  }

  /** If the limit is never changed, no request is left in the queue beside a free slot: a worker,
      requester or releaser can take a step, or a start is in flight. */
  lemma FixedLimitStrandsNoRequest(limit: nat, es: seq<Event>)
    requires limit < U32 && Legal(limit, es) && NoSetMax(es)
    requires After(limit, es).line.queue != [] && After(limit, es).slots.active < limit
    ensures var s := After(limit, es);
            (exists t: Tid :: CanHelp(s, t)) || Worker(s.line, s.tasks).Starting?
  {
    NoRequestIsStranded(limit, es);
    WorkGoesOn(limit, es);
    var s := After(limit, es);
    if s.line.owner.Some? {
      FixedLimitIsNotStored(limit, es, s.line.owner.value);
    } else {
      FixedLimitIsNotStored(limit, es, 0);
    }
  }

  // ----- a raised limit -----

  /** A worker left waiting although a slot is free has read an older, smaller limit: the one it
      acts on was in force at its reading, and another was written since. */
  lemma IdleSlotMeansRaisedLimit(limit: nat, es: seq<Event>, w: Tid)
    requires limit < U32 && Legal(limit, es) && w < |After(limit, es).tasks|
    requires SawLimit(After(limit, es).tasks[w]) && !WakePending(After(limit, es))
    requires After(limit, es).slots.active < After(limit, es).slots.limit
    ensures LastRead(limit, es, w) == Some(After(limit, es).tasks[w].max) && StoredSinceRead(limit, es, w)
    ensures After(limit, es).tasks[w].max < After(limit, es).slots.limit
  {
    NoWakeUpIsLost(limit, es, w);
  }

  /** A worker that acts on a limit it has read, and has not read again. */
  predicate HasRead(k: Task) {
    k.WLoadActive? || k.WSeen? || k.WParked?
  }

  /** Raising the limit sends such a worker back to read it again exactly when the worker is already
      parked; otherwise the worker keeps the old limit, and no permit is left for it. */
  lemma RaiseReachesWorkerIff(limit: nat, es: seq<Event>, t: Tid, w: Tid)
    requires limit < U32 && Legal(limit, es)
    requires t < |After(limit, es).tasks| && After(limit, es).tasks[t].NotifyWaiters?
    requires w < |After(limit, es).tasks| && HasRead(After(limit, es).tasks[w])
    ensures var s := After(limit, es);
            && Enabled(s, Step(t)) && w < |Next(s, Step(t)).tasks|
            && (Next(s, Step(t)).tasks[w].WLoadMax? <==> s.tasks[w].WParked?)
            && (!s.tasks[w].WParked? ==> Next(s, Step(t)).tasks[w] == s.tasks[w])
            && Next(s, Step(t)).line.permit == s.line.permit
  {
    RunKeepsInv(limit, es);
    OnlyTheWorkerWaits(limit, es);
    var s := After(limit, es);
    assert Owns(s.tasks[w]) && s.line.owner == Some(w);
    WakeAllIsWakeOne(s.tasks[t := Finished], s.line.waiters);
  }

  lemma Extend(limit: nat, es: seq<Event>, e: Event)
    requires Legal(limit, es) && Enabled(After(limit, es), e)
    ensures Legal(limit, es + [e]) && After(limit, es + [e]) == Next(After(limit, es), e)
  {
    hide Next, Enabled;
    assert (es + [e])[..|es|] == es;
  }

  lemma Begin(limit: nat)
    ensures Legal(limit, []) && After(limit, []) == Init(limit)
  {
  }

  /** With no slot allowed, a client's request is queued and a worker is spawned. */
  lemma RequestIsQueued() returns (es: seq<Event>)
    ensures Legal(0, es)
    ensures After(0, es) == State(Line([0], true, false, [], map[], Some(1), [0], [], []),
                                  Slots(0, 0, [], [], {}, {}, 0),
                                  [AwaitResult, WLoadMax])
  {
    hide Legal, After;
    hide WakeOne, WakeEveryone, AnswerStart, TryRelease, Decrement, TryClaim, Deliver, PollOrPop, TryRearm, PutBack;
    es := [];
    Begin(0);
    Extend(0, es, Arrive); es := es + [Arrive];
    Extend(0, es, Step(0)); es := es + [Step(0)];
    Extend(0, es, Step(0)); es := es + [Step(0)];
    assert After(0, es) == State(Line([], false, false, [], map[], None, [], [], []),
                                 Slots(0, 0, [], [], {}, {}, 0), [PushBack]);
    Extend(0, es, Step(0)); es := es + [Step(0)];
    Extend(0, es, Step(0)); es := es + [Step(0)];
    Extend(0, es, Step(0)); es := es + [Step(0)];
  }

  /** The worker reads limit and counter, and then the limit is raised. */
  lemma LimitIsRaised() returns (es: seq<Event>)
    ensures Legal(0, es)
    ensures After(0, es) == State(Line([0], true, false, [], map[], Some(1), [0], [], []),
                                  Slots(1, 0, [], [], {}, {}, 1),
                                  [AwaitResult, WSeen(0, 0), NotifyWaiters])
  {
    hide Legal, After;
    hide WakeOne, AnswerStart, TryRelease, Decrement, TryClaim, Deliver, StartWorker, TryRaiseFlag, PutBack;
    es := RequestIsQueued();
    Extend(0, es, Step(1)); es := es + [Step(1)];
    Extend(0, es, Step(1)); es := es + [Step(1)];
    assert After(0, es).tasks == [AwaitResult, WSeen(0, 0)];
    Extend(0, es, SetMax(1)); es := es + [SetMax(1)];
    Extend(0, es, Step(2)); es := es + [Step(2)];
  }

  /** `notify_waiters` stores no permit: when the limit is raised between the worker's reads and
      its wait, the worker stays parked, with a request queued, a slot free and no task able to
      move. */
  lemma RaisedLimitCanBeMissed() returns (es: seq<Event>)
    ensures Legal(0, es)
    ensures var s := After(0, es);
            && s.line.queue != [] && s.slots.active < s.slots.limit
            && (forall t: Tid :: t < |s.tasks| ==> !CanStep(s, t))
  {
    hide Legal, After;
    hide WakeOne, AnswerStart, TryRelease, Decrement, TryClaim, Deliver, StartWorker, TryRaiseFlag, PutBack;
    es := LimitIsRaised();
    Extend(0, es, Step(2)); es := es + [Step(2)];
    assert After(0, es).tasks == [AwaitResult, WSeen(0, 0), Finished];
    Extend(0, es, Step(1)); es := es + [Step(1)];
  }

  // ----- an undisturbed worker -----

  /** From the top of its loop, with a slot free, the worker needs four steps of its own to claim
      a slot for the request at the front of the queue. */
  lemma UndisturbedWorkerStartsTheFront(limit: nat, es: seq<Event>, w: Tid)
    requires limit < U32 && Legal(limit, es) && w < |After(limit, es).tasks|
    requires After(limit, es).tasks[w].WLoadMax? && After(limit, es).line.queue != []
    requires After(limit, es).slots.active < After(limit, es).slots.limit
    ensures var solo := es + [Step(w)] + [Step(w)] + [Step(w)] + [Step(w)];
            && Legal(limit, solo)
            && Claimed(limit, solo) == Claimed(limit, es) + [After(limit, es).line.queue[0]]
  {
    hide Legal, After, Claimed, Replied, Pushed;
    Extend(limit, es, Step(w));
    var es1 := es + [Step(w)];
    Extend(limit, es1, Step(w));
    var es2 := es1 + [Step(w)];
    Extend(limit, es2, Step(w));
    var es3 := es2 + [Step(w)];
    Extend(limit, es3, Step(w));
    LogsAreTheRun(limit, es);
    LogsAreTheRun(limit, es3 + [Step(w)]);
  }

  /** With every slot taken, the worker needs three steps to use up a stored permit and go round, or to
      join the waiters. */
  lemma UndisturbedWorkerWaits(limit: nat, es: seq<Event>, w: Tid)
    requires limit < U32 && Legal(limit, es) && w < |After(limit, es).tasks|
    requires After(limit, es).tasks[w].WLoadMax? && After(limit, es).slots.active >= After(limit, es).slots.limit
    ensures var s, solo := After(limit, es), es + [Step(w)] + [Step(w)] + [Step(w)];
            && Legal(limit, solo) && w < |After(limit, solo).tasks| && !After(limit, solo).line.permit
            && (if s.line.permit then After(limit, solo).tasks[w].WLoadMax?
                else After(limit, solo).tasks[w].WParked? && w in After(limit, solo).line.waiters)
            && After(limit, solo).line.queue == s.line.queue && After(limit, solo).slots == s.slots
  {
    hide Legal, After;
    Extend(limit, es, Step(w));
    var es1 := es + [Step(w)];
    Extend(limit, es1, Step(w));
    var es2 := es1 + [Step(w)];
    Extend(limit, es2, Step(w));
  }

  /** With a slot free and the queue empty, it needs five to lower the flag, look again and end. */
  lemma UndisturbedWorkerRetires(limit: nat, es: seq<Event>, w: Tid)
    requires limit < U32 && Legal(limit, es) && w < |After(limit, es).tasks|
    requires After(limit, es).tasks[w].WLoadMax? && After(limit, es).line.queue == []
    requires After(limit, es).slots.active < After(limit, es).slots.limit
    ensures var solo := es + [Step(w)] + [Step(w)] + [Step(w)] + [Step(w)] + [Step(w)];
            && Legal(limit, solo) && w < |After(limit, solo).tasks|
            && After(limit, solo).tasks[w].Finished? && !After(limit, solo).line.flag
  {
    hide Legal, After;
    Extend(limit, es, Step(w));
    var es1 := es + [Step(w)];
    Extend(limit, es1, Step(w));
    var es2 := es1 + [Step(w)];
    Extend(limit, es2, Step(w));
    var es3 := es2 + [Step(w)];
    Extend(limit, es3, Step(w));
    Extend(limit, es3 + [Step(w)], Step(w));
  }

  /** Work that arrives before its second look brings it back to the top of its loop, unless another task
      raises the flag first. */
  lemma UndisturbedWorkerLooksAgain(limit: nat, es: seq<Event>, w: Tid)
    requires limit < U32 && Legal(limit, es) && w < |After(limit, es).tasks|
    requires After(limit, es).tasks[w].WRecheck? && After(limit, es).line.queue != []
    ensures var solo := es + [Step(w)] + [Step(w)];
            && Legal(limit, solo) && w < |After(limit, solo).tasks| && After(limit, solo).line.flag
            && (After(limit, solo).tasks[w].WLoadMax? <==> !After(limit, es).line.flag)
  {
    hide Legal, After;
    Extend(limit, es, Step(w));
    Extend(limit, es + [Step(w)], Step(w));
  }
}
