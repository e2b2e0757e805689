/** Slot admission of `StreamManager`: a state machine over the atomic operations of
    `request_stream`, `process_queue`, `start_stream_internal`, `stream_ended` and
    `set_max_concurrent`, run by any number of tasks in any order.

    Every load, compare-and-swap, `fetch_sub`, notification and locked section is one event.
    Tasks are numbered in the order in which they are created, slots in the order in which
    they are claimed. */
module Admission {
  import opened Base

  /** On whose behalf a slot is held: the caller itself, or a queued request served by the worker. */
  datatype Caller = Direct | ForQueued(req: Tid)

  /** A task is the atomic operation it performs next, with the locals it still needs. */
  datatype Task =
    // request_stream
    | LoadMax
    | LoadActive(max: nat)
    | FastClaim(cur: nat)
    | PushBack
    | KickWorker
    | SpawnWorker
    | AwaitResult
    // process_queue
    | WLoadMax
    | WLoadActive(max: nat)
    | WSeen(max: nat, cur: nat)
    | WParked(max: nat)
    | WClaim(cur: nat, req: Tid)
    | WPutBack(req: Tid)
    | WStoreIdle
    | WRecheck
    | WRearm
    | WDeliver(req: Tid, ok: bool)
    // start_stream_internal, and the paths that release a slot
    | Starting(slot: nat, caller: Caller)
    | Holding(slot: nat)
    | ReleaseCas(slot: nat, caller: Caller)
    | FetchSub(slot: nat, caller: Caller)
    | NotifyOne(caller: Caller)
    // set_max_concurrent
    | StoreMax(max: nat)
    | NotifyWaiters
    | Finished

  /** The waiting line: the queue, `queue_worker_active`, the stored permit and the waiters of
      `slot_available`, and the one-shot results sent so far. The last four fields are history:
      the task that acts for the flag, and the orders of queueing, starting and replying. */
  datatype Line = Line(
    queue: seq<Tid>,
    flag: bool,
    permit: bool,
    waiters: seq<Tid>,
    results: map<Tid, bool>,
    owner: Option<Tid>,
    arrivals: seq<Tid>,
    dispatched: seq<Tid>,
    replied: seq<Tid>)

  /** The slots: `max_concurrent`, `active_count` and every `slot_released` flag. The last four
      fields are history: who answers for each slot, the slots subtracted from the counter, the
      slots whose stream was started, and the largest limit ever stored. */
  datatype Slots = Slots(
    limit: nat,
    active: nat,
    released: seq<bool>,
    keeper: seq<Tid>,
    freed: set<nat>,
    started: set<nat>,
    peak: nat)

  datatype State = State(line: Line, slots: Slots, tasks: seq<Task>)

  datatype Event =
    | Arrive                    // a client calls request_stream
    | Step(t: Tid)              // task t performs its next atomic operation
    | Answer(t: Tid, ok: bool)  // the request sent by a starting task is answered
    | Close(t: Tid)             // a handle reaches the compare-and-swap of stop or Drop
    | OnEnd(slot: nat)          // the connection calls the on_end callback of a stream
    | SetMax(max: nat)          // set_max_concurrent is called

  function Init(limit: nat): State {
    State(Line([], false, false, [], map[], None, [], [], []), Slots(limit, 0, [], [], {}, {}, limit), [])
  }

  function Goto(s: State, t: Tid, k: Task): State
    requires t < |s.tasks|
  {
    s.(tasks := s.tasks[t := k])
  }

  function Spawn(s: State, k: Task): State {
    s.(tasks := s.tasks + [k])
  }

  /** A successful compare-and-swap of `active_count`: task `t` now answers for a new slot. */
  function Claim(c: Slots, t: Tid): Slots {
    c.(active := c.active + 1, released := c.released + [false], keeper := c.keeper + [t])
  }

  /** What follows once a start has failed and its slot is given back. */
  function AfterRelease(caller: Caller): Task {
    match caller
    case Direct => Finished
    case ForQueued(r) => WDeliver(r, false)
  }

  predicate WaitersExist(s: State) {
    forall i :: 0 <= i < |s.line.waiters| ==> s.line.waiters[i] < |s.tasks|
  }

  /** Whether the scheduler may run task `t`. */
  predicate CanStep(s: State, t: Tid) {
    && t < |s.tasks|
    && match s.tasks[t]
       case Starting(_, _) => false
       case Holding(_) => false
       case WParked(_) => false
       case AwaitResult => t in s.line.results
       case Finished => false
       case ReleaseCas(x, _) => x < |s.slots.released| == |s.slots.keeper|
       case NotifyOne(_) => WaitersExist(s)
       case NotifyWaiters => WaitersExist(s)
       case _ => true
  }

  predicate Enabled(s: State, e: Event) {
    match e
    case Arrive => true
    case Step(t) => CanStep(s, t)
    case Answer(t, _) => t < |s.tasks| && s.tasks[t].Starting? && s.tasks[t].slot < |s.slots.keeper|
    case Close(t) => t < |s.tasks| && s.tasks[t].Holding?
    case OnEnd(x) => x in s.slots.started
    case SetMax(m) => m < U32
  }

  // ----- request_stream -----

  function TryFastClaim(s: State, t: Tid): State
    requires t < |s.tasks| && s.tasks[t].FastClaim?
  {
    if s.slots.active == s.tasks[t].cur then
      Goto(s, t, Starting(|s.slots.released|, Direct)).(slots := Claim(s.slots, t))
    else Goto(s, t, PushBack)
  }

  function Enqueue(s: State, t: Tid): State
    requires t < |s.tasks|
  {
    var q := s.line;
    Goto(s, t, KickWorker).(line := q.(queue := q.queue + [t], arrivals := q.arrivals + [t]))
  }

  function TryRaiseFlag(s: State, t: Tid): State
    requires t < |s.tasks|
  {
    if s.line.flag then Goto(s, t, AwaitResult)
    else Goto(s, t, SpawnWorker).(line := s.line.(flag := true, owner := Some(t)))
  }

  function StartWorker(s: State, t: Tid): State
    requires t < |s.tasks|
  {
    Spawn(Goto(s, t, AwaitResult), WLoadMax).(line := s.line.(owner := Some(|s.tasks|)))
  }

  // ----- process_queue -----

  /** At the limit: take a stored permit or wait for one. Below it: pop the front of the queue. */
  function PollOrPop(s: State, t: Tid): State
    requires t < |s.tasks| && s.tasks[t].WSeen?
  {
    var WSeen(max, cur) := s.tasks[t];
    var q := s.line;
    if cur >= max then
      if q.permit then Goto(s, t, WLoadMax).(line := q.(permit := false))
      else Goto(s, t, WParked(max)).(line := q.(waiters := q.waiters + [t]))
    else if q.queue == [] then Goto(s, t, WStoreIdle)
    else Goto(s, t, WClaim(cur, q.queue[0])).(line := q.(queue := q.queue[1..]))
  }

  function TryClaim(s: State, t: Tid): State
    requires t < |s.tasks| && s.tasks[t].WClaim?
  {
    var WClaim(cur, r) := s.tasks[t];
    if s.slots.active == cur then
      State(s.line.(dispatched := s.line.dispatched + [r]),
            Claim(s.slots, t),
            s.tasks[t := Starting(|s.slots.released|, ForQueued(r))])
    else Goto(s, t, WPutBack(r))
  }

  function PutBack(s: State, t: Tid): State
    requires t < |s.tasks| && s.tasks[t].WPutBack?
  {
    Goto(s, t, WLoadMax).(line := s.line.(queue := [s.tasks[t].req] + s.line.queue))
  }

  function LowerFlag(s: State, t: Tid): State
    requires t < |s.tasks|
  {
    Goto(s, t, WRecheck).(line := s.line.(flag := false, owner := None))
  }

  function Recheck(s: State, t: Tid): State
    requires t < |s.tasks|
  {
    Goto(s, t, if s.line.queue == [] then Finished else WRearm)
  }

  function TryRearm(s: State, t: Tid): State
    requires t < |s.tasks|
  {
    if s.line.flag then Goto(s, t, Finished)
    else Goto(s, t, WLoadMax).(line := s.line.(flag := true, owner := Some(t)))
  }

  function Deliver(s: State, t: Tid): State
    requires t < |s.tasks| && s.tasks[t].WDeliver?
  {
    var WDeliver(r, ok) := s.tasks[t];
    var q := s.line;
    Goto(s, t, WLoadMax).(line := q.(results := q.results[r := ok], replied := q.replied + [r]))
  }

  // ----- giving a slot back, and set_max_concurrent -----

  /** The compare-and-swap of `slot_released`: only the first caller goes on to decrement. */
  function TryRelease(s: State, t: Tid): State
    requires t < |s.tasks| && s.tasks[t].ReleaseCas?
    requires s.tasks[t].slot < |s.slots.released| == |s.slots.keeper|
  {
    var ReleaseCas(x, who) := s.tasks[t];
    var c := s.slots;
    if c.released[x] then Goto(s, t, AfterRelease(who))
    else Goto(s, t, FetchSub(x, who)).(slots := c.(released := c.released[x := true], keeper := c.keeper[x := t]))
  }

  /** `fetch_sub` wraps around at zero, as on the u32 of the source. */
  function Decrement(s: State, t: Tid): State
    requires t < |s.tasks| && s.tasks[t].FetchSub?
  {
    var FetchSub(x, who) := s.tasks[t];
    var c := s.slots;
    Goto(s, t, NotifyOne(who)).(slots := c.(active := (c.active + U32 - 1) % U32, freed := c.freed + {x}))
  }

  /** `notify_one` wakes the longest-waiting task, or stores a permit when there is none. */
  function WakeOne(s: State, t: Tid): State
    requires t < |s.tasks| && s.tasks[t].NotifyOne? && WaitersExist(s)
  {
    var s' := Goto(s, t, AfterRelease(s.tasks[t].caller));
    var q := s.line;
    if q.waiters == [] then s'.(line := q.(permit := true))
    else Goto(s', q.waiters[0], WLoadMax).(line := q.(waiters := q.waiters[1..]))
  }

  function WriteLimit(s: State, t: Tid): State
    requires t < |s.tasks| && s.tasks[t].StoreMax?
  {
    var m := s.tasks[t].max;
    Goto(s, t, NotifyWaiters).(slots := s.slots.(limit := m, peak := Max(s.slots.peak, m)))
  }

  /** Every waiting task goes back to the top of its loop. */
  function WakeAll(tasks: seq<Task>, waiters: seq<Tid>): (r: seq<Task>)
    requires forall i :: 0 <= i < |waiters| ==> waiters[i] < |tasks|
    ensures |r| == |tasks|
    decreases |waiters|
  {
    if waiters == [] then tasks else WakeAll(tasks[waiters[0] := WLoadMax], waiters[1..])
  }

  /** `notify_waiters` wakes those waiting now and stores no permit. */
  function WakeEveryone(s: State, t: Tid): State
    requires t < |s.tasks| && WaitersExist(s)
  {
    State(s.line.(waiters := []), s.slots, WakeAll(s.tasks[t := Finished], s.line.waiters))
  }

  function StepTask(s: State, t: Tid): State
    requires CanStep(s, t)
  {
    match s.tasks[t]
    case LoadMax => Goto(s, t, LoadActive(s.slots.limit))
    case LoadActive(max) => Goto(s, t, if s.slots.active < max then FastClaim(s.slots.active) else PushBack)
    case FastClaim(_) => TryFastClaim(s, t)
    case PushBack => Enqueue(s, t)
    case KickWorker => TryRaiseFlag(s, t)
    case SpawnWorker => StartWorker(s, t)
    case AwaitResult => Goto(s, t, Finished)
    case WLoadMax => Goto(s, t, WLoadActive(s.slots.limit))
    case WLoadActive(max) => Goto(s, t, WSeen(max, s.slots.active))
    case WSeen(_, _) => PollOrPop(s, t)
    case WClaim(_, _) => TryClaim(s, t)
    case WPutBack(_) => PutBack(s, t)
    case WStoreIdle => LowerFlag(s, t)
    case WRecheck => Recheck(s, t)
    case WRearm => TryRearm(s, t)
    case WDeliver(_, _) => Deliver(s, t)
    case ReleaseCas(_, _) => TryRelease(s, t)
    case FetchSub(_, _) => Decrement(s, t)
    case NotifyOne(_) => WakeOne(s, t)
    case StoreMax(_) => WriteLimit(s, t)
    case NotifyWaiters => WakeEveryone(s, t)
  }

  /** A start that succeeds yields a new handle; one that fails goes on to release its slot. */
  function AnswerStart(s: State, t: Tid, ok: bool): State
    requires t < |s.tasks| && s.tasks[t].Starting? && s.tasks[t].slot < |s.slots.keeper|
  {
    var Starting(x, who) := s.tasks[t];
    var c := s.slots;
    if !ok then Goto(s, t, ReleaseCas(x, who))
    else
      var k := match who case Direct => Finished case ForQueued(r) => WDeliver(r, true);
      Spawn(Goto(s, t, k), Holding(x))
        .(slots := c.(started := c.started + {x}, keeper := c.keeper[x := |s.tasks|]))
  }

  function Next(s: State, e: Event): State
    requires Enabled(s, e)
  {
    match e
    case Arrive => Spawn(s, LoadMax)
    case Step(t) => StepTask(s, t)
    case Answer(t, ok) => AnswerStart(s, t, ok)
    case Close(t) => Goto(s, t, ReleaseCas(s.tasks[t].slot, Direct))
    case OnEnd(x) => Spawn(s, ReleaseCas(x, Direct))
    case SetMax(m) => Spawn(s, StoreMax(m))
  }

  /** A run: every event is enabled in the state reached by the events before it. */
  predicate Legal(limit: nat, es: seq<Event>)
    decreases |es|, 0
  {
    es == [] || (Legal(limit, es[..|es| - 1]) && Enabled(After(limit, es[..|es| - 1]), es[|es| - 1]))
  }

  /** The state after a run from an idle manager. */
  function After(limit: nat, es: seq<Event>): State
    requires Legal(limit, es)
    decreases |es|, 1
  {
    if es == [] then Init(limit) else Next(After(limit, es[..|es| - 1]), es[|es| - 1])
  }
}
