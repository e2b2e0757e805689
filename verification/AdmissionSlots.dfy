/** Slot accounting of `StreamManager`: every claimed slot is subtracted from `active_count` once,
    and the counter never passes the largest limit that was stored. */
module AdmissionSlots {
  import opened Base
  import opened Admission
  import Order = AdmissionOrder

  predicate HasSlot(k: Task) {
    k.Starting? || k.Holding? || k.ReleaseCas? || k.FetchSub?
  }

  /** Task `k` is the one that still has to give slot `x` back. */
  predicate Keeps(k: Task, x: nat, released: bool) {
    HasSlot(k) && k.slot == x && k.FetchSub? == released
  }

  /** The part of the invariant about one task. */
  predicate Fits(c: Slots, t: Tid, k: Task) {
    && (HasSlot(k) ==> k.slot < |c.released| == |c.keeper|)
    && (k.Starting? ==> c.keeper[k.slot] == t && !c.released[k.slot] && k.slot !in c.started)
    && (k.Holding? ==> k.slot in c.started)
    && (k.ReleaseCas? ==> k.slot in c.started || c.keeper[k.slot] == t)
    && (k.FetchSub? ==> c.keeper[k.slot] == t && c.released[k.slot] && k.slot !in c.freed)
  }

  /** The counter is the number of slots not yet subtracted, and each of those has one keeper. */
  ghost predicate SlotInv(c: Slots, tasks: seq<Task>) {
    && |c.keeper| == |c.released| == c.active + |c.freed|
    && (forall x :: x in c.freed ==> x < |c.released| && c.released[x])
    && (forall x :: x in c.started ==> x < |c.released|)
    && (forall x :: 0 <= x < |c.released| && x !in c.freed ==>
          c.keeper[x] < |tasks| && Keeps(tasks[c.keeper[x]], x, c.released[x]))
    && (forall t: Tid :: t < |tasks| ==> Fits(c, t, tasks[t]))
  }

  /** What a task has read or stored of the limit. */
  predicate Bounded(k: Task, peak: nat) {
    && ((k.LoadActive? || k.WLoadActive? || k.WSeen? || k.WParked?) ==> k.max <= peak)
    && ((k.FastClaim? || k.WClaim?) ==> k.cur < peak)
    && (k.StoreMax? ==> k.max < U32)
  }

  ghost predicate BoundInv(c: Slots, tasks: seq<Task>) {
    && c.limit <= c.peak < U32
    && c.active <= c.peak
    && (forall t: Tid :: t < |tasks| ==> Bounded(tasks[t], c.peak))
  }

  ghost predicate CountInv(c: Slots, tasks: seq<Task>) {
    SlotInv(c, tasks) && BoundInv(c, tasks)
  }

  lemma MoveKeepsCount(c: Slots, tasks: seq<Task>, t: Tid, k: Task)
    requires CountInv(c, tasks) && t < |tasks|
    requires !HasSlot(tasks[t]) && !HasSlot(k) && Bounded(k, c.peak)
    ensures CountInv(c, tasks[t := k])
  {
  }

  lemma SpawnKeepsCount(c: Slots, tasks: seq<Task>, k: Task)
    requires CountInv(c, tasks) && Bounded(k, c.peak)
    requires HasSlot(k) ==> k.ReleaseCas? && k.slot in c.started
    ensures CountInv(c, tasks + [k])
  {
  }

  lemma ClaimKeepsCount(c: Slots, tasks: seq<Task>, t: Tid, who: Caller)
    requires CountInv(c, tasks) && t < |tasks| && !HasSlot(tasks[t]) && c.active < c.peak
    ensures CountInv(Claim(c, t), tasks[t := Starting(|c.released|, who)])
  {
  }

  lemma ReleaseKeepsCount(s: State, t: Tid)
    requires CountInv(s.slots, s.tasks) && CanStep(s, t) && s.tasks[t].ReleaseCas?
    ensures CountInv(TryRelease(s, t).slots, TryRelease(s, t).tasks)
  {
  }

  /** A task about to subtract finds the counter above zero. */
  lemma NoUnderflow(c: Slots, tasks: seq<Task>, t: Tid)
    requires SlotInv(c, tasks) && t < |tasks| && tasks[t].FetchSub?
    ensures c.active > 0
    ensures |c.freed + {tasks[t].slot}| == |c.freed| + 1
  {
    var all := c.freed + {tasks[t].slot};
    BoundedSet(all, |c.released|);
    assert all - {tasks[t].slot} == c.freed;
  }

  lemma DecrementKeepsCount(s: State, t: Tid)
    requires CountInv(s.slots, s.tasks) && t < |s.tasks| && s.tasks[t].FetchSub?
    ensures CountInv(Decrement(s, t).slots, Decrement(s, t).tasks)
    ensures Decrement(s, t).slots.active == s.slots.active - 1
  {
    NoUnderflow(s.slots, s.tasks, t);
    assert (s.slots.active + U32 - 1) % U32 == s.slots.active - 1;
  }

  lemma AnswerKeepsCount(s: State, t: Tid, ok: bool)
    requires CountInv(s.slots, s.tasks) && Enabled(s, Answer(t, ok))
    ensures CountInv(AnswerStart(s, t, ok).slots, AnswerStart(s, t, ok).tasks)
  {
  }

  lemma CloseKeepsCount(c: Slots, tasks: seq<Task>, t: Tid)
    requires CountInv(c, tasks) && t < |tasks| && tasks[t].Holding?
    ensures CountInv(c, tasks[t := ReleaseCas(tasks[t].slot, Direct)])
  {
  }

  lemma LimitKeepsCount(s: State, t: Tid)
    requires CountInv(s.slots, s.tasks) && t < |s.tasks| && s.tasks[t].StoreMax?
    ensures CountInv(WriteLimit(s, t).slots, WriteLimit(s, t).tasks)
  {
  }

  lemma WakeKeepsCount(s: State, t: Tid)
    requires CountInv(s.slots, s.tasks) && Order.OwnerInv(s.line, s.tasks) && CanStep(s, t)
    requires s.tasks[t].NotifyOne? || s.tasks[t].NotifyWaiters?
    ensures CountInv(StepTask(s, t).slots, StepTask(s, t).tasks)
  {
    hide CountInv;
    var k := if s.tasks[t].NotifyOne? then AfterRelease(s.tasks[t].caller) else Finished;
    var done, w := s.tasks[t := k], s.line.waiters;
    MoveKeepsCount(s.slots, s.tasks, t, k);
    Order.WakeAllIsWakeOne(done, w);
    if w != [] {
      MoveKeepsCount(s.slots, done, w[0], WLoadMax);
    }
  }

  /** The operations that touch no slot. */
  predicate IsSlotFree(k: Task) {
    k.LoadMax? || k.LoadActive? || k.PushBack? || k.KickWorker? || k.SpawnWorker? || k.AwaitResult?
    || k.WLoadMax? || k.WLoadActive? || k.WSeen? || k.WPutBack? || k.WStoreIdle? || k.WRecheck? || k.WRearm?
    || k.WDeliver?
  }

  lemma SlotFreeKeepsCount(s: State, t: Tid)
    requires CountInv(s.slots, s.tasks) && CanStep(s, t) && IsSlotFree(s.tasks[t])
    ensures CountInv(StepTask(s, t).slots, StepTask(s, t).tasks)
  {
    assert Bounded(s.tasks[t], s.slots.peak) && s.slots.limit <= s.slots.peak;
    assert s.tasks[t].WSeen? ==> s.tasks[t].max <= s.slots.peak;
    hide CountInv;
    var k := StepTask(s, t).tasks[t];
    MoveKeepsCount(s.slots, s.tasks, t, k);
    if s.tasks[t].SpawnWorker? {
      SpawnKeepsCount(s.slots, s.tasks[t := k], WLoadMax);
    }
  }

  lemma TryClaimKeepsCount(s: State, t: Tid)
    requires CountInv(s.slots, s.tasks) && CanStep(s, t) && (s.tasks[t].FastClaim? || s.tasks[t].WClaim?)
    ensures CountInv(StepTask(s, t).slots, StepTask(s, t).tasks)
  {
    assert Bounded(s.tasks[t], s.slots.peak);
    hide CountInv;
    var k := StepTask(s, t).tasks[t];
    if k.Starting? {
      ClaimKeepsCount(s.slots, s.tasks, t, k.caller);
    } else {
      MoveKeepsCount(s.slots, s.tasks, t, k);
    }
  }

  lemma StepKeepsCount(s: State, t: Tid)
    requires CountInv(s.slots, s.tasks) && Order.OwnerInv(s.line, s.tasks) && CanStep(s, t)
    ensures CountInv(StepTask(s, t).slots, StepTask(s, t).tasks)
  {
    hide CountInv, Order.OwnerInv, Enqueue, TryRaiseFlag, StartWorker, PollOrPop, TryClaim, PutBack, LowerFlag;
    hide TryRearm, Deliver, WakeOne, WakeEveryone, TryFastClaim, TryRelease, Decrement, WriteLimit, Recheck, Goto;
    var k := s.tasks[t];
    if IsSlotFree(k) {
      SlotFreeKeepsCount(s, t);
    } else {
      match k
      case FastClaim(_) => TryClaimKeepsCount(s, t);
      case WClaim(_, _) => TryClaimKeepsCount(s, t);
      case ReleaseCas(_, _) => ReleaseKeepsCount(s, t);
      case FetchSub(_, _) => DecrementKeepsCount(s, t);
      case StoreMax(_) => LimitKeepsCount(s, t);
      case NotifyOne(_) => WakeKeepsCount(s, t);
      case NotifyWaiters => WakeKeepsCount(s, t);
    }
  }

  lemma KeepsCount(s: State, e: Event)
    requires CountInv(s.slots, s.tasks) && Order.OwnerInv(s.line, s.tasks) && Enabled(s, e)
    ensures CountInv(Next(s, e).slots, Next(s, e).tasks)
  {
    hide CountInv, Order.OwnerInv, AnswerStart, StepTask;
    match e
    case Arrive => SpawnKeepsCount(s.slots, s.tasks, LoadMax);
    case Step(t) => StepKeepsCount(s, t);
    case Answer(t, ok) => AnswerKeepsCount(s, t, ok);
    case Close(t) => CloseKeepsCount(s.slots, s.tasks, t);
    case OnEnd(x) => SpawnKeepsCount(s.slots, s.tasks, ReleaseCas(x, Direct));
    case SetMax(m) => SpawnKeepsCount(s.slots, s.tasks, StoreMax(m));
  }
}
