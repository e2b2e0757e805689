/** One request of `request_stream` among all others: the path it takes, the start that is made for
    it, and the answer that it gets. */
module AdmissionRequests {
  import opened Base
  import opened Admission
  import opened AdmissionOrder
  import opened AdmissionWakeups
  import opened AdmissionTheorems

  // ----- the path of a request -----

  /** How a request goes on once it has looked at limit and counter. */
  datatype Choice = Claims | Queues

  function Chooses(s: State, e: Event, t: Tid): seq<Choice> {
    if e != Step(t) || t >= |s.tasks| then []
    else if s.tasks[t].FastClaim? && s.slots.active == s.tasks[t].cur then [Claims]
    else if s.tasks[t].PushBack? then [Queues]
    else []
  }

  /** The slots that task `t` claimed for itself in a run, and its entries into the queue. */
  function Path(limit: nat, es: seq<Event>, t: Tid): seq<Choice>
    requires Legal(limit, es)
    decreases |es|
  {
    if es == [] then [] else Path(limit, es[..|es| - 1], t) + Chooses(After(limit, es[..|es| - 1]), es[|es| - 1], t)
  }

  predicate IsDeciding(k: Task) {
    k.LoadMax? || k.LoadActive? || k.FastClaim? || k.PushBack?
  }

  /** The start that a request makes for itself, and what may follow it. */
  predicate IsOwnStart(k: Task) {
    k.Finished? || ((k.Starting? || k.ReleaseCas? || k.FetchSub? || k.NotifyOne?) && k.caller.Direct?)
  }

  /** Where a task stands that has taken this path. */
  predicate OnPath(k: Task, path: seq<Choice>) {
    && (IsDeciding(k) ==> path == [])
    && (IsWaiting(k) ==> path == [Queues])
    && (k.Starting? && k.caller.Direct? ==> path == [Claims])
    && (path == [] || (path == [Claims] && IsOwnStart(k)) || (path == [Queues] && IsQueued(k)))
  }

  /** What a task may be after an event of its own at which it makes the choice `c`. */
  predicate MayFollow(k: Task, c: seq<Choice>, k': Task) {
    if c != [] then
      IsDeciding(k) && (c == [Claims] || c == [Queues])
      && (if c == [Claims] then k'.Starting? && k'.caller.Direct? else IsWaiting(k'))
    else
      && (IsDeciding(k') ==> IsDeciding(k)) && (IsWaiting(k') ==> IsWaiting(k))
      && !(k'.Starting? && k'.caller.Direct?)
      && (IsOwnStart(k) ==> IsOwnStart(k')) && (IsQueued(k) ==> IsQueued(k'))
  }

  lemma StepFollows(s: State, t: Tid)
    requires CanStep(s, t) && !s.tasks[t].NotifyWaiters? && !s.tasks[t].NotifyOne?
    ensures t < |StepTask(s, t).tasks| && MayFollow(s.tasks[t], Chooses(s, Step(t), t), StepTask(s, t).tasks[t])
  {
  }

  lemma NotifierFollows(s: State, t: Tid)
    requires OwnerInv(s.line, s.tasks) && CanStep(s, t) && (s.tasks[t].NotifyWaiters? || s.tasks[t].NotifyOne?)
    ensures t < |StepTask(s, t).tasks| && MayFollow(s.tasks[t], Chooses(s, Step(t), t), StepTask(s, t).tasks[t])
  {
    if s.tasks[t].NotifyWaiters? {
      WakeAllIsWakeOne(s.tasks[t := Finished], s.line.waiters);
    }
  }

  lemma AnswerFollows(s: State, e: Event)
    requires Enabled(s, e) && (e.Answer? || e.Close?)
    ensures e.t < |Next(s, e).tasks| && MayFollow(s.tasks[e.t], [], Next(s, e).tasks[e.t])
  {
  }

  lemma FollowerIsOnPath(k: Task, c: seq<Choice>, k': Task, path: seq<Choice>)
    requires OnPath(k, path) && MayFollow(k, c, k')
    ensures OnPath(k', path + c)
  {
    assert path + [] == path;
    assert c != [] ==> path + c == c;
  }

  lemma OwnEventStays(s: State, e: Event, t: Tid, path: seq<Choice>)
    requires OwnerInv(s.line, s.tasks) && Enabled(s, e) && t < |s.tasks| && OnPath(s.tasks[t], path)
    requires (e.Step? || e.Answer? || e.Close?) && e.t == t
    ensures t < |Next(s, e).tasks| && OnPath(Next(s, e).tasks[t], path + Chooses(s, e, t))
  {
    hide StepTask, AnswerStart, MayFollow, OwnerInv, OnPath;
    if !e.Step? {
      AnswerFollows(s, e);
    } else if s.tasks[t].NotifyWaiters? || s.tasks[t].NotifyOne? {
      NotifierFollows(s, t);
    } else {
      StepFollows(s, t);
    }
    FollowerIsOnPath(s.tasks[t], Chooses(s, e, t), Next(s, e).tasks[t], path);
  }

  lemma OthersStay(s: State, e: Event, t: Tid, path: seq<Choice>)
    requires OwnerInv(s.line, s.tasks) && Enabled(s, e) && t < |s.tasks| && OnPath(s.tasks[t], path)
    requires (e.Step? || e.Answer? || e.Close?) ==> e.t != t
    ensures t < |Next(s, e).tasks| && OnPath(Next(s, e).tasks[t], path) && Chooses(s, e, t) == []
  {
    hide OwnerInv, Next, Enabled;
    if s.tasks[t].WParked? {
      ParkedIsOnlyWoken(s, e, t);
    } else {
      OthersUnchanged(s, e, t);
    }
  }

  lemma NewcomersStart(s: State, e: Event, t: Tid)
    requires Enabled(s, e) && t >= |s.tasks|
    ensures Chooses(s, e, t) == [] && (t < |Next(s, e).tasks| ==> OnPath(Next(s, e).tasks[t], []))
  {
  }

  /** A request claims a slot once for itself or enters the queue once, and never does both. */
  lemma {:induction false} RequestTakesOnePath(limit: nat, es: seq<Event>, t: Tid)
    requires limit < U32 && Legal(limit, es)
    ensures if t < |After(limit, es).tasks| then OnPath(After(limit, es).tasks[t], Path(limit, es, t))
            else Path(limit, es, t) == []
    decreases |es|
  {
    if es != [] {
      var before, e := es[..|es| - 1], es[|es| - 1];
      RequestTakesOnePath(limit, before, t);
      RunKeepsInv(limit, before);
      var s, path := After(limit, before), Path(limit, before, t);
      assert OwnerInv(s.line, s.tasks) && path + [] == path;
      hide Inv, OwnerInv, Next, Enabled, OnPath, Chooses;
      if t >= |s.tasks| {
        NewcomersStart(s, e, t);
      } else if (e.Step? || e.Answer? || e.Close?) && e.t == t {
        OwnEventStays(s, e, t, path);
      } else {
        OthersStay(s, e, t, path);
      }
    }
  }

  lemma CountAppend<T>(xs: seq<T>, ys: seq<T>, x: T)
    ensures multiset(xs + ys)[x] == multiset(xs)[x] + multiset(ys)[x]
  {
  }

  /** What an event adds to the order of arrivals. */
  function Pushes(s: State, e: Event): seq<Tid> {
    if e.Step? && e.t < |s.tasks| && s.tasks[e.t].PushBack? then [e.t] else []
  }

  lemma PushIsChosen(s: State, e: Event, t: Tid)
    ensures multiset(Pushes(s, e))[t] == if Queues in Chooses(s, e, t) then 1 else 0
    ensures Queues in Chooses(s, e, t) ==> t < |s.tasks| && IsDeciding(s.tasks[t])
  {
  }

  /** A request that entered the queue is in the order of arrivals, exactly once. */
  lemma {:induction false} QueuedIsPushedOnce(limit: nat, es: seq<Event>, t: Tid)
    requires limit < U32 && Legal(limit, es)
    ensures multiset(Pushed(limit, es))[t] == if Queues in Path(limit, es, t) then 1 else 0
    decreases |es|
  {
    if es != [] {
      var before, e := es[..|es| - 1], es[|es| - 1];
      QueuedIsPushedOnce(limit, before, t);
      RequestTakesOnePath(limit, before, t);
      hide Next, After, Chooses;
      assert Pushed(limit, es) == Pushed(limit, before) + Pushes(After(limit, before), e);
      CountAppend(Pushed(limit, before), Pushes(After(limit, before), e), t);
      PushIsChosen(After(limit, before), e, t);
    }
  }

  // ----- the answer to a request -----

  /** The answer that an event brings to a start made for request `r`, by itself or by the worker. */
  function AnswerOf(s: State, e: Event, r: Tid): seq<bool> {
    match e
    case Answer(t, ok) =>
      if t < |s.tasks| && s.tasks[t].Starting? && Requester(t, s.tasks[t].caller) == r then [ok] else []
    case _ => []
  }

  function Requester(t: Tid, who: Caller): Tid {
    match who case Direct => t case ForQueued(r) => r
  }

  /** The answers that a run brings to the starts made for request `r`. */
  function AnswersFor(limit: nat, es: seq<Event>, r: Tid): seq<bool>
    requires Legal(limit, es)
    decreases |es|
  {
    if es == [] then []
    else AnswersFor(limit, es[..|es| - 1], r) + AnswerOf(After(limit, es[..|es| - 1]), es[|es| - 1], r)
  }

  /** What the worker does for a queued request: it awaits the answer to its start, or knows it. */
  datatype Service = Nobody | Awaited(req: Tid) | Known(req: Tid, ok: bool)

  function ServiceOf(k: Task): Service {
    if k.WDeliver? then Known(k.req, k.ok)
    else if k.Starting? && k.caller.ForQueued? then Awaited(k.caller.req)
    else if (k.ReleaseCas? || k.FetchSub? || k.NotifyOne?) && k.caller.ForQueued? then Known(k.caller.req, false)
    else Nobody
  }

  function CurrentService(s: State): Service {
    ServiceOf(Worker(s.line, s.tasks))
  }

  /** What an event does to the worker's service, and to the results that were sent. */
  predicate ServiceMoves(s: State, e: Event, s': State) {
    var v, v', q, q' := CurrentService(s), CurrentService(s'), s.line, s'.line;
    match e
    case Answer(t, ok) =>
      && t < |s.tasks| && s.tasks[t].Starting? && q'.replied == q.replied && q'.results == q.results
      && var who := s.tasks[t].caller;
         if who.Direct? then v' == v else v == Awaited(who.req) && v' == Known(who.req, ok)
    case Step(t) =>
      && t < |s.tasks|
      && if s.tasks[t].WDeliver? then
           var WDeliver(r, ok) := s.tasks[t];
           v == Known(r, ok) && v' == Nobody && q'.replied == q.replied + [r] && q'.results == q.results[r := ok]
         else
           && q'.replied == q.replied && q'.results == q.results
           && if s.tasks[t].WClaim? && s.tasks[t].cur == s.slots.active then
                v == Nobody && v' == Awaited(s.tasks[t].req)
              else v' == v
    case _ => v' == v && q'.replied == q.replied && q'.results == q.results
  }

  lemma AnswerMovesService(s: State, e: Event)
    requires OwnerInv(s.line, s.tasks) && Enabled(s, e) && !e.Step?
    ensures ServiceMoves(s, e, Next(s, e))
  {
  }

  lemma OwnersStepMovesService(s: State, t: Tid)
    requires OwnerInv(s.line, s.tasks) && CanStep(s, t) && Owns(s.tasks[t])
    ensures ServiceMoves(s, Step(t), StepTask(s, t))
  {
  }

  lemma OthersStepMovesService(s: State, t: Tid)
    requires OwnerInv(s.line, s.tasks) && CanStep(s, t) && !Owns(s.tasks[t])
    ensures ServiceMoves(s, Step(t), StepTask(s, t))
  {
    if s.tasks[t].NotifyWaiters? {
      WakeAllIsWakeOne(s.tasks[t := Finished], s.line.waiters);
    }
  }

  lemma EventMovesService(s: State, e: Event)
    requires OwnerInv(s.line, s.tasks) && Enabled(s, e)
    ensures ServiceMoves(s, e, Next(s, e))
  {
    hide OwnerInv, ServiceMoves, StepTask, AnswerStart;
    if !e.Step? {
      AnswerMovesService(s, e);
    } else if Owns(s.tasks[e.t]) {
      OwnersStepMovesService(s, e.t);
    } else {
      OthersStepMovesService(s, e.t);
    }
  }

  /** Request `r` has claimed a slot for itself and awaits the answer to its start. */
  predicate IsStarting(s: State, r: Tid) {
    r < |s.tasks| && s.tasks[r].Starting? && s.tasks[r].caller.Direct?
  }

  /** How far the start for request `r` has come. */
  predicate AnswerStands(s: State, r: Tid, path: seq<Choice>, answers: seq<bool>) {
    var v := CurrentService(s);
    if r in s.line.replied then r in s.line.results && answers == [s.line.results[r]]
    else if v == Awaited(r) then answers == []
    else if v.Known? && v.req == r then answers == [v.ok]
    else if path == [Claims] && !IsStarting(s, r) then |answers| == 1
    else answers == []
  }

  /** A request that was replied to is not served again, and one that does not queue is not served. */
  ghost predicate LineStands(s: State, r: Tid, path: seq<Choice>) {
    var served := ServingOf(Worker(s.line, s.tasks)) + HandOf(Worker(s.line, s.tasks));
    && !(r in s.line.replied && r in served)
    && (path != [Queues] ==> r !in s.line.replied && r !in served)
  }

  lemma NoDupApart<T>(xs: seq<T>, ys: seq<T>, zs: seq<T>, x: T)
    requires NoDup(xs + ys + zs)
    ensures !(x in xs && x in ys)
  {
    forall i, j | 0 <= i < |xs| && 0 <= j < |ys| ensures xs[i] != ys[j] {
      assert (xs + ys + zs)[i] == xs[i] && (xs + ys + zs)[|xs| + j] == ys[j];
    }
  }

  lemma InLineIsQueued(s: State, r: Tid, path: seq<Choice>)
    requires ArrivalInv(s.line.arrivals, s.tasks) && QueueInv(s.line, Worker(s.line, s.tasks))
    requires r in s.line.arrivals ==> path == [Queues]
    ensures LineStands(s, r, path)
  {
    var q, k := s.line, Worker(s.line, s.tasks);
    assert q.arrivals == q.replied + (ServingOf(k) + HandOf(k)) + q.queue;
    NoDupApart(q.replied, ServingOf(k) + HandOf(k), q.queue, r);
  }

  lemma RunLineStands(limit: nat, es: seq<Event>, r: Tid)
    requires limit < U32 && Legal(limit, es)
    ensures LineStands(After(limit, es), r, Path(limit, es, r))
  {
    hide After, Legal, Path, OnPath, LineStands;
    RunKeepsInv(limit, es);
    LogsAreTheRun(limit, es);
    QueuedIsPushedOnce(limit, es, r);
    QueuesAlone(limit, es, r);
    InLineIsQueued(After(limit, es), r, Path(limit, es, r));
  }

  lemma QueuesAlone(limit: nat, es: seq<Event>, r: Tid)
    requires limit < U32 && Legal(limit, es)
    ensures Queues in Path(limit, es, r) ==> Path(limit, es, r) == [Queues]
  {
    RequestTakesOnePath(limit, es, r);
  }

  predicate StartMoves(s: State, e: Event, s': State, r: Tid) {
    && |s.tasks| <= |s'.tasks|
    && (IsStarting(s', r) <==>
          Chooses(s, e, r) == [Claims] || (IsStarting(s, r) && !(e.Answer? && e.t == r)))
  }

  lemma OwnEventMovesStart(s: State, e: Event, r: Tid)
    requires OwnerInv(s.line, s.tasks) && Enabled(s, e) && r < |s.tasks|
    requires (e.Step? || e.Answer? || e.Close?) && e.t == r
    ensures IsStarting(Next(s, e), r) <==> Chooses(s, e, r) == [Claims]
    ensures e.Answer? || !IsStarting(s, r)
  {
    hide StepTask, AnswerStart, OwnerInv;
    if !e.Step? {
      AnswerFollows(s, e);
    } else if s.tasks[r].NotifyWaiters? || s.tasks[r].NotifyOne? {
      NotifierFollows(s, r);
    } else {
      StepFollows(s, r);
    }
  }

  lemma TasksGrow(s: State, e: Event)
    requires Enabled(s, e)
    ensures |s.tasks| <= |Next(s, e).tasks|
  {
  }

  lemma NewcomerIsNotStarting(s: State, e: Event, r: Tid)
    requires Enabled(s, e) && r >= |s.tasks|
    ensures !IsStarting(Next(s, e), r)
  {
  }

  lemma EventMovesStart(s: State, e: Event, r: Tid)
    requires OwnerInv(s.line, s.tasks) && Enabled(s, e)
    ensures StartMoves(s, e, Next(s, e), r)
  {
    TasksGrow(s, e);
    hide OwnerInv, Next;
    if r >= |s.tasks| {
      NewcomerIsNotStarting(s, e, r);
    } else if (e.Step? || e.Answer? || e.Close?) && e.t == r {
      OwnEventMovesStart(s, e, r);
    } else if s.tasks[r].WParked? {
      ParkedIsOnlyWoken(s, e, r);
    } else {
      OthersUnchanged(s, e, r);
    }
  }

  lemma AnswerStep(s: State, e: Event, s': State, r: Tid, path: seq<Choice>, answers: seq<bool>)
    requires OwnerInv(s.line, s.tasks)
    requires AnswerStands(s, r, path, answers) && LineStands(s, r, path)
    requires if r < |s.tasks| then OnPath(s.tasks[r], path) else path == []
    requires ServiceMoves(s, e, s') && StartMoves(s, e, s', r)
    ensures AnswerStands(s', r, path + Chooses(s, e, r), answers + AnswerOf(s, e, r))
  {
    assert path + [] == path && answers + [] == answers;
    assert [] + Chooses(s, e, r) == Chooses(s, e, r);
  }

  lemma {:induction false} AnswerStandsIn(limit: nat, es: seq<Event>, r: Tid)
    requires limit < U32 && Legal(limit, es)
    ensures AnswerStands(After(limit, es), r, Path(limit, es, r), AnswersFor(limit, es, r))
    decreases |es|
  {
    if es != [] {
      var before, e := es[..|es| - 1], es[|es| - 1];
      AnswerStandsIn(limit, before, r);
      RunKeepsInv(limit, before);
      RunLineStands(limit, before, r);
      RequestTakesOnePath(limit, before, r);
      var s := After(limit, before);
      assert OwnerInv(s.line, s.tasks);
      hide Inv, OwnerInv, Next, Enabled, OnPath, Chooses, AnswerOf, AnswerStands, LineStands, ServiceMoves, StartMoves;
      EventMovesService(s, e);
      EventMovesStart(s, e, r);
      AnswerStep(s, e, Next(s, e), r, Path(limit, before, r), AnswersFor(limit, before, r));
    }
  }

  lemma RepliesAreResults(limit: nat, es: seq<Event>, r: Tid)
    requires limit < U32 && Legal(limit, es)
    ensures r in After(limit, es).line.results <==> r in After(limit, es).line.replied
  {
    RunKeepsInv(limit, es);
  }

  lemma AnswerIsKnown(s: State, r: Tid, path: seq<Choice>, answers: seq<bool>)
    requires AnswerStands(s, r, path, answers) && LineStands(s, r, path)
    requires r in s.line.results <==> r in s.line.replied
    ensures |answers| <= 1 && (r in s.line.results ==> answers == [s.line.results[r]])
    ensures path == [Claims] && !IsStarting(s, r) ==> |answers| == 1
  {
  }

  /** At most one start is made and answered for a request; the result that the worker sends to a queued
      one is the answer to that start, and one that claimed a slot itself has its answer when it is done. */
  lemma RequestGetsItsOwnAnswer(limit: nat, es: seq<Event>, r: Tid)
    requires limit < U32 && Legal(limit, es)
    ensures |AnswersFor(limit, es, r)| <= 1
    ensures r in After(limit, es).line.results ==> AnswersFor(limit, es, r) == [After(limit, es).line.results[r]]
    ensures Path(limit, es, r) == [Claims] && !IsStarting(After(limit, es), r) ==> |AnswersFor(limit, es, r)| == 1
  {
    hide Legal, After, Path, AnswersFor, AnswerStands, LineStands, Inv;
    RepliesAreResults(limit, es, r);
    RunLineStands(limit, es, r);
    AnswerStandsIn(limit, es, r);
    AnswerIsKnown(After(limit, es), r, Path(limit, es, r), AnswersFor(limit, es, r));
  }

  /** Whatever the run so far, a request that nothing disturbs claims a slot if the counter is below the
      limit, and enters the queue otherwise. */
  lemma UndisturbedRequest(limit: nat, es: seq<Event>)
    requires limit < U32 && Legal(limit, es)
    ensures var s, t := After(limit, es), |After(limit, es).tasks|;
            var solo := es + [Arrive] + [Step(t)] + [Step(t)] + [Step(t)];
            && Legal(limit, solo)
            && t < |After(limit, solo).tasks|
            && (if s.slots.active < s.slots.limit then
                  After(limit, solo).tasks[t].Starting? && After(limit, solo).slots.active == s.slots.active + 1
                else
                  After(limit, solo).tasks[t].KickWorker? && After(limit, solo).line.queue == s.line.queue + [t])
  {
    hide Legal, After;
    var t := |After(limit, es).tasks|;
    Extend(limit, es, Arrive);
    var es0 := es + [Arrive];
    Extend(limit, es0, Step(t));
    var es1 := es0 + [Step(t)];
    Extend(limit, es1, Step(t));
    var es2 := es1 + [Step(t)];
    Extend(limit, es2, Step(t));
  }

  lemma {:induction false} PathIsKept(limit: nat, es: seq<Event>, more: seq<Event>, t: Tid)
    requires limit < U32 && Legal(limit, es) && Legal(limit, more) && es <= more && Path(limit, es, t) != []
    ensures Path(limit, more, t) == Path(limit, es, t)
    decreases |more|
  {
    if |more| > |es| {
      PathIsKept(limit, es, more[..|more| - 1], t);
      RequestTakesOnePath(limit, more, t);
      hide Chooses, OnPath;
      OneChoice(limit, more, t);
    } else {
      assert more == es;
    }
  }

  lemma OneChoice(limit: nat, es: seq<Event>, t: Tid)
    requires limit < U32 && Legal(limit, es)
    ensures |Path(limit, es, t)| <= 1
  {
    RequestTakesOnePath(limit, es, t);
  }

  lemma {:induction false} AnswersAreKept(limit: nat, es: seq<Event>, more: seq<Event>, r: Tid)
    requires limit < U32 && Legal(limit, es) && Legal(limit, more) && es <= more && AnswersFor(limit, es, r) != []
    ensures AnswersFor(limit, more, r) == AnswersFor(limit, es, r)
    decreases |more|
  {
    if |more| > |es| {
      AnswersAreKept(limit, es, more[..|more| - 1], r);
      RequestGetsItsOwnAnswer(limit, more, r);
    } else {
      assert more == es;
    }
  }

  lemma AnswerIsCounted(limit: nat, es: seq<Event>, t: Tid, ok: bool)
    requires limit < U32 && Legal(limit, es) && Legal(limit, es + [Answer(t, ok)])
    requires t < |After(limit, es).tasks| && After(limit, es).tasks[t].Starting?
    ensures AnswersFor(limit, es + [Answer(t, ok)], Requester(t, After(limit, es).tasks[t].caller)) == [ok]
  {
    var r := Requester(t, After(limit, es).tasks[t].caller);
    assert (es + [Answer(t, ok)])[..|es|] == es;
    RequestGetsItsOwnAnswer(limit, es + [Answer(t, ok)], r);
  }

  // ----- permits -----

  /** The worker, at the limit, goes on at once because a permit was stored. */
  predicate TakesPermit(s: State, e: Event) {
    e.Step? && e.t < |s.tasks| && s.tasks[e.t].WSeen? && s.tasks[e.t].cur >= s.tasks[e.t].max && s.line.permit
  }

  /** A released slot is announced while nobody waits. */
  predicate LeavesPermit(s: State, e: Event) {
    e.Step? && e.t < |s.tasks| && s.tasks[e.t].NotifyOne? && s.line.waiters == []
  }

  function PermitsTaken(limit: nat, es: seq<Event>): nat
    requires Legal(limit, es)
    decreases |es|
  {
    if es == [] then 0
    else PermitsTaken(limit, es[..|es| - 1]) + if TakesPermit(After(limit, es[..|es| - 1]), es[|es| - 1]) then 1 else 0
  }

  function PermitsLeft(limit: nat, es: seq<Event>): nat
    requires Legal(limit, es)
    decreases |es|
  {
    if es == [] then 0
    else PermitsLeft(limit, es[..|es| - 1]) + if LeavesPermit(After(limit, es[..|es| - 1]), es[|es| - 1]) then 1 else 0
  }

  lemma PermitMoves(s: State, e: Event)
    requires Enabled(s, e)
    ensures Next(s, e).line.permit == (LeavesPermit(s, e) || (s.line.permit && !TakesPermit(s, e)))
  {
  }

  /** Every permit serves once: the worker does not go round more often at the limit than slots were
      released while nobody waited. */
  lemma {:induction false} PermitsServeOnce(limit: nat, es: seq<Event>)
    requires Legal(limit, es)
    ensures PermitsTaken(limit, es) + (if After(limit, es).line.permit then 1 else 0) <= PermitsLeft(limit, es)
    decreases |es|
  {
    if es != [] {
      var before, e := es[..|es| - 1], es[|es| - 1];
      PermitsServeOnce(limit, before);
      hide Next, Enabled;
      PermitMoves(After(limit, before), e);
    }
  }

  // ----- rounds -----

  /** How often task `t` has gone through the top of the worker's loop. */
  function Rounds(limit: nat, es: seq<Event>, t: Tid): nat
    requires Legal(limit, es)
    decreases |es|
  {
    if es == [] then 0
    else Rounds(limit, es[..|es| - 1], t) + if IsRound(After(limit, es[..|es| - 1]), es[|es| - 1], t) then 1 else 0
  }

  predicate IsRound(s: State, e: Event, t: Tid) {
    e == Step(t) && t < |s.tasks| && s.tasks[t].WLoadMax?
  }

  lemma RoundsGrow(limit: nat, es: seq<Event>, e: Event, t: Tid)
    requires Legal(limit, es) && Legal(limit, es + [e])
    ensures Rounds(limit, es + [e], t)
         == Rounds(limit, es, t) + if IsRound(After(limit, es), e, t) then 1 else 0
  {
    hide IsRound;
    assert (es + [e])[..|es|] == es;
  }
}
