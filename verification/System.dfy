/** Slots and streams together. A run of the system is a run of slot admission and a run of the live
    stream map that agree: a start that succeeds claims the slot of a new stream, and every
    compare-and-swap of a stream's `slot_released` is the same event in both. */
module System {
  import opened Base
  import A = Admission
  import Counting = AdmissionSlots
  import Tasks = AdmissionWakeups
  import SlotTheorems = AdmissionTheorems
  import R = Registry
  import StreamTheorems = RegistryTheorems

  /** The two runs so far, the slot of each stream, and the task that holds it for the handle. */
  datatype State = State(slotRun: seq<A.Event>, streamRun: seq<R.Event>, slotOf: seq<nat>, holder: seq<Tid>)

  datatype Event =
    | OfSlots(a: A.Event)
    | OfStreams(r: R.Event)
    | Started(t: Tid, id: Id)    // a start is answered with a new stream
    | HandleReleases(h: nat)     // the compare-and-swap of stop or Drop
    | EndReleases                // the compare-and-swap of on_end

  predicate IsLegal(limit: nat, s: State) {
    A.Legal(limit, s.slotRun) && R.Legal(s.streamRun)
  }

  function Slots(limit: nat, s: State): A.State
    requires IsLegal(limit, s)
  {
    A.After(limit, s.slotRun)
  }

  function Streams(limit: nat, s: State): R.State
    requires IsLegal(limit, s)
  {
    R.After(s.streamRun)
  }

  /** Events of slot admission that concern a stream. */
  predicate ConcernsStream(s: A.State, a: A.Event) {
    || a.Close? || a.OnEnd? || (a.Answer? && a.ok)
    || (a.Step? && a.t < |s.tasks| && s.tasks[a.t].ReleaseCas? && s.tasks[a.t].slot in s.slots.started)
  }

  /** Events of the stream map that concern a slot. */
  predicate ConcernsSlot(s: R.State, r: R.Event) {
    || r.Accept?
    || (r.HandleStep? && r.h < |s.handles| && s.handles[r.h].pc.Releasing?)
    || (r.SectionStep? && s.section.EndCas?)
  }

  predicate Enabled(limit: nat, s: State, e: Event)
    requires IsLegal(limit, s)
  {
    var a, r := Slots(limit, s), Streams(limit, s);
    match e
    case OfSlots(x) => A.Enabled(a, x) && !ConcernsStream(a, x)
    case OfStreams(x) => R.Enabled(r, x) && !ConcernsSlot(r, x)
    case Started(t, id) => A.Enabled(a, A.Answer(t, true)) && R.Enabled(r, R.Accept(id))
    case HandleReleases(h) =>
      h < |s.holder| && h < |r.handles| && r.handles[h].pc.Releasing? && A.Enabled(a, A.Close(s.holder[h]))
    case EndReleases =>
      R.SectionReady(r) && r.section.EndCas? && r.section.h < |s.slotOf| && A.Enabled(a, A.OnEnd(s.slotOf[r.section.h]))
  }

  function Next(limit: nat, s: State, e: Event): State
    requires IsLegal(limit, s) && Enabled(limit, s, e)
  {
    var a, r := Slots(limit, s), Streams(limit, s);
    match e
    case OfSlots(x) => s.(slotRun := s.slotRun + [x])
    case OfStreams(x) => s.(streamRun := s.streamRun + [x])
    case Started(t, id) =>
      State(s.slotRun + [A.Answer(t, true)], s.streamRun + [R.Accept(id)],
            s.slotOf + [a.tasks[t].slot], s.holder + [|a.tasks|])
    case HandleReleases(h) =>
      s.(slotRun := s.slotRun + [A.Close(s.holder[h])] + [A.Step(s.holder[h])],
         streamRun := s.streamRun + [R.HandleStep(h)])
    case EndReleases =>
      s.(slotRun := s.slotRun + [A.OnEnd(s.slotOf[r.section.h])] + [A.Step(|a.tasks|)],
         streamRun := s.streamRun + [R.SectionStep])
  }

  /** The part of the link that belongs to stream `h`. */
  predicate LinkedStream(a: A.State, h: nat, x: R.Handle, slot: nat, holder: Tid) {
    && slot < |a.slots.released| && slot in a.slots.started && a.slots.released[slot] == x.released
    && (!x.pc.Closed? ==> holder < |a.tasks| && a.tasks[holder] == A.Holding(slot))
  }

  /** Streams and started slots correspond one to one; flags agree, and a handle that is not closed
      has its task. */
  ghost predicate Linked(a: A.State, r: R.State, slotOf: seq<nat>, holder: seq<Tid>) {
    && |slotOf| == |holder| == |r.handles|
    && NoDup(slotOf)
    && (forall x :: x in a.slots.started ==> x in slotOf)
    && (forall h: nat :: h < |r.handles| ==> LinkedStream(a, h, r.handles[h], slotOf[h], holder[h]))
  }

  // ----- what the events of slot admission change -----

  /** Started slots keep their flags, and holders stay. */
  ghost predicate KeepsStreams(a: A.State, b: A.State) {
    && |a.slots.released| <= |b.slots.released|
    && (forall x :: 0 <= x < |a.slots.released| && x in a.slots.started ==> b.slots.released[x] == a.slots.released[x])
    && (forall u: Tid :: u < |a.tasks| && a.tasks[u].Holding? ==> u < |b.tasks| && b.tasks[u] == a.tasks[u])
  }

  lemma HoldersStay(a: A.State, e: A.Event)
    requires SlotTheorems.Inv(a) && A.Enabled(a, e)
    ensures forall u: Tid :: u < |a.tasks| && a.tasks[u].Holding? && e != A.Close(u) ==>
              u < |A.Next(a, e).tasks| && A.Next(a, e).tasks[u] == a.tasks[u]
  {
    forall u: Tid | u < |a.tasks| && a.tasks[u].Holding? && e != A.Close(u)
      ensures u < |A.Next(a, e).tasks| && A.Next(a, e).tasks[u] == a.tasks[u]
    {
      Tasks.OthersUnchanged(a, e, u);
    }
  }

  lemma StepKeepsFlags(a: A.State, t: Tid)
    requires A.CanStep(a, t) && !(a.tasks[t].ReleaseCas? && a.tasks[t].slot in a.slots.started)
    ensures A.StepTask(a, t).slots.started == a.slots.started
    ensures |a.slots.released| <= |A.StepTask(a, t).slots.released|
    ensures forall x :: 0 <= x < |a.slots.released| && x in a.slots.started ==>
              A.StepTask(a, t).slots.released[x] == a.slots.released[x]
  {
  }

  lemma OtherSlotEvents(a: A.State, e: A.Event)
    requires SlotTheorems.Inv(a) && A.Enabled(a, e) && !ConcernsStream(a, e)
    ensures KeepsStreams(a, A.Next(a, e)) && A.Next(a, e).slots.started == a.slots.started
  {
    HoldersStay(a, e);
    hide SlotTheorems.Inv, A.StepTask;
    if e.Step? {
      StepKeepsFlags(a, e.t);
    }
  }

  /** A successful start has a slot that no stream has, and adds a holder for it. */
  lemma StartAddsOne(a: A.State, t: Tid)
    requires SlotTheorems.Inv(a) && A.Enabled(a, A.Answer(t, true))
    ensures var b, x := A.Next(a, A.Answer(t, true)), a.tasks[t].slot;
            && KeepsStreams(a, b) && b.slots.started == a.slots.started + {x} && x !in a.slots.started
            && x < |b.slots.released| && !b.slots.released[x]
            && |a.tasks| < |b.tasks| && b.tasks[|a.tasks|] == A.Holding(x)
  {
    HoldersStay(a, A.Answer(t, true));
    StartingHasOwnSlot(a, t);
  }

  lemma StartingHasOwnSlot(a: A.State, t: Tid)
    requires SlotTheorems.Inv(a) && t < |a.tasks| && a.tasks[t].Starting?
    ensures var x := a.tasks[t].slot; x < |a.slots.released| && !a.slots.released[x] && x !in a.slots.started
  {
    assert Counting.Fits(a.slots, t, a.tasks[t]);
  }

  /** The compare-and-swap leaves the flag of slot `x` set, and nothing else of it changes. */
  ghost predicate Sets(a: A.State, b: A.State, x: nat) {
    && x < |a.slots.released| && b.slots.released == a.slots.released[x := true] && b.slots.started == a.slots.started
  }

  lemma HandleSets(a: A.State, u: Tid)
    requires SlotTheorems.Inv(a) && A.Enabled(a, A.Close(u))
    ensures var a1, x := A.Next(a, A.Close(u)), a.tasks[u].slot;
            && A.Enabled(a1, A.Step(u)) && Sets(a, A.Next(a1, A.Step(u)), x)
            && forall v: Tid :: v < |a.tasks| && v != u ==>
                 v < |A.Next(a1, A.Step(u)).tasks| && A.Next(a1, A.Step(u)).tasks[v] == a.tasks[v]
  {
    assert Counting.Fits(a.slots, u, a.tasks[u]);
  }

  lemma EndSets(a: A.State, x: nat)
    requires SlotTheorems.Inv(a) && A.Enabled(a, A.OnEnd(x))
    ensures var a1, n := A.Next(a, A.OnEnd(x)), |a.tasks|;
            && A.Enabled(a1, A.Step(n)) && Sets(a, A.Next(a1, A.Step(n)), x)
            && forall v: Tid :: v < |a.tasks| ==>
                 v < |A.Next(a1, A.Step(n)).tasks| && A.Next(a1, A.Step(n)).tasks[v] == a.tasks[v]
  {
    var a1 := A.Next(a, A.OnEnd(x));
    assert a1.tasks[|a.tasks|] == A.ReleaseCas(x, A.Direct);
  }

  // ----- what the events of the stream map change -----

  /** No stream comes, is closed, or has its slot released. */
  ghost predicate KeepsFlags(r: R.State, q: R.State) {
    && |q.handles| == |r.handles|
    && forall h: nat :: h < |r.handles| ==>
         q.handles[h].released == r.handles[h].released && q.handles[h].pc.Closed? == r.handles[h].pc.Closed?
  }

  lemma UsersKeepFlags(r: R.State, e: R.Event)
    requires R.Enabled(r, e) && StreamTheorems.IsUsers(e) && !e.HandleStep?
    ensures KeepsFlags(r, R.Next(r, e))
  {
  }

  lemma HandleKeepsFlags(r: R.State, h: nat)
    requires h < |r.handles| && R.HandleReady(r, h) && !r.handles[h].pc.Releasing?
    ensures KeepsFlags(r, R.StepHandle(r, h))
  {
  }

  lemma ChannelsKeepFlags(r: R.State, e: R.Event)
    requires R.Enabled(r, e) && StreamTheorems.IsChannels(e)
    ensures KeepsFlags(r, R.Next(r, e))
  {
  }

  lemma SectionKeepsFlags(r: R.State)
    requires R.SectionReady(r) && !r.section.EndCas?
    ensures KeepsFlags(r, R.StepSection(r))
  {
  }

  lemma LoopKeepsFlags(r: R.State, e: R.Event)
    requires R.Enabled(r, e) && !ConcernsSlot(r, e) && !e.SectionStep?
    requires !(StreamTheorems.IsUsers(e) || StreamTheorems.IsChannels(e))
    ensures KeepsFlags(r, R.Next(r, e))
  {
  }

  lemma OtherStreamEvents(r: R.State, e: R.Event)
    requires R.Enabled(r, e) && !ConcernsSlot(r, e)
    ensures KeepsFlags(r, R.Next(r, e))
  {
    hide R.Enabled, R.Next, KeepsFlags;
    if e.SectionStep? {
      StreamTheorems.SectionStepIs(r);
      SectionKeepsFlags(r);
    } else if e.HandleStep? {
      StreamTheorems.HandleStepIs(r, e.h);
      HandleKeepsFlags(r, e.h);
    } else if StreamTheorems.IsUsers(e) {
      UsersKeepFlags(r, e);
    } else if StreamTheorems.IsChannels(e) {
      ChannelsKeepFlags(r, e);
    } else {
      LoopKeepsFlags(r, e);
    }
  }

  lemma HandleMarks(r: R.State, h: nat)
    requires h < |r.handles| && r.handles[h].pc.Releasing?
    ensures R.Enabled(r, R.HandleStep(h))
    ensures R.Next(r, R.HandleStep(h)).handles == r.handles[h := r.handles[h].(pc := R.Closed, released := true)]
  {
  }

  lemma EndMarks(r: R.State)
    requires R.SectionReady(r) && r.section.EndCas?
    ensures R.Enabled(r, R.SectionStep)
    ensures var h := r.section.h; R.Next(r, R.SectionStep).handles == r.handles[h := r.handles[h].(released := true)]
  {
    StreamTheorems.SectionStepIs(r);
  }

  lemma AcceptMarks(r: R.State, id: Id)
    requires R.Enabled(r, R.Accept(id))
    ensures R.Next(r, R.Accept(id)).handles == r.handles + [R.NewHandle(id)]
  {
  }

  // ----- the link -----

  lemma SlotsKeepLink(a: A.State, b: A.State, r: R.State, slotOf: seq<nat>, holder: seq<Tid>)
    requires Linked(a, r, slotOf, holder) && KeepsStreams(a, b) && b.slots.started == a.slots.started
    ensures Linked(b, r, slotOf, holder)
  {
  }

  lemma StreamsKeepLink(a: A.State, r: R.State, q: R.State, slotOf: seq<nat>, holder: seq<Tid>)
    requires Linked(a, r, slotOf, holder) && KeepsFlags(r, q)
    ensures Linked(a, q, slotOf, holder)
  {
  }

  lemma StartLinks(a: A.State, r: R.State, slotOf: seq<nat>, holder: seq<Tid>, t: Tid, id: Id)
    requires Linked(a, r, slotOf, holder) && SlotTheorems.Inv(a)
    requires A.Enabled(a, A.Answer(t, true)) && R.Enabled(r, R.Accept(id))
    ensures Linked(A.Next(a, A.Answer(t, true)), R.Next(r, R.Accept(id)),
                   slotOf + [a.tasks[t].slot], holder + [|a.tasks|])
  {
    hide SlotTheorems.Inv, A.Next, R.Next, A.Enabled, R.Enabled;
    StartAddsOne(a, t);
    AcceptMarks(r, id);
  }

  lemma ReleaseLinks(a: A.State, b: A.State, r: R.State, q: R.State, slotOf: seq<nat>, holder: seq<Tid>,
                     h: nat, closes: bool)
    requires Linked(a, r, slotOf, holder) && h < |r.handles| && Sets(a, b, slotOf[h])
    requires var x := r.handles[h];
             q.handles == r.handles[h := x.(pc := if closes then R.Closed else x.pc, released := true)]
    requires forall g: nat :: g < |holder| && !q.handles[g].pc.Closed? ==>
               holder[g] < |b.tasks| && b.tasks[holder[g]] == a.tasks[holder[g]]
    ensures Linked(b, q, slotOf, holder)
  {
  }

  // ----- runs of the system -----

  function Init(): State {
    State([], [], [], [])
  }

  ghost predicate Good(limit: nat, s: State) {
    IsLegal(limit, s) && Linked(Slots(limit, s), Streams(limit, s), s.slotOf, s.holder)
  }

  lemma KeepsGood(limit: nat, s: State, e: Event)
    requires limit < U32 && Good(limit, s) && Enabled(limit, s, e)
    ensures Good(limit, Next(limit, s, e))
  {
    hide A.Legal, A.After, R.Legal, R.After, A.Next, R.Next, A.Enabled, R.Enabled;
    hide Linked, SlotTheorems.Inv, Sets, KeepsStreams, KeepsFlags;
    SlotTheorems.RunKeepsInv(limit, s.slotRun);
    var a, r := Slots(limit, s), Streams(limit, s);
    match e
    case OfSlots(x) =>
      SlotTheorems.Extend(limit, s.slotRun, x);
      OtherSlotEvents(a, x);
      SlotsKeepLink(a, A.Next(a, x), r, s.slotOf, s.holder);
    case OfStreams(x) =>
      StreamTheorems.Extend(s.streamRun, x);
      OtherStreamEvents(r, x);
      StreamsKeepLink(a, r, R.Next(r, x), s.slotOf, s.holder);
    case Started(t, id) =>
      SlotTheorems.Extend(limit, s.slotRun, A.Answer(t, true));
      StreamTheorems.Extend(s.streamRun, R.Accept(id));
      StartLinks(a, r, s.slotOf, s.holder, t, id);
    case HandleReleases(h) => HandleKeepsGood(limit, s, h);
    case EndReleases => EndKeepsGood(limit, s);
  }

  lemma HandleKeepsGood(limit: nat, s: State, h: nat)
    requires limit < U32 && Good(limit, s) && Enabled(limit, s, HandleReleases(h))
    ensures Good(limit, Next(limit, s, HandleReleases(h)))
  {
    hide A.Legal, A.After, R.Legal, R.After, A.Next, R.Next, A.Enabled, R.Enabled, SlotTheorems.Inv, Sets;
    SlotTheorems.RunKeepsInv(limit, s.slotRun);
    var a, r, u := Slots(limit, s), Streams(limit, s), s.holder[h];
    HandleSets(a, u);
    HandleMarks(r, h);
    SlotTheorems.Extend(limit, s.slotRun, A.Close(u));
    SlotTheorems.Extend(limit, s.slotRun + [A.Close(u)], A.Step(u));
    StreamTheorems.Extend(s.streamRun, R.HandleStep(h));
    assert LinkedStream(a, h, r.handles[h], s.slotOf[h], u);
    ReleaseLinks(a, A.Next(A.Next(a, A.Close(u)), A.Step(u)), r, R.Next(r, R.HandleStep(h)),
                 s.slotOf, s.holder, h, true);
  }

  lemma EndKeepsGood(limit: nat, s: State)
    requires limit < U32 && Good(limit, s) && Enabled(limit, s, EndReleases)
    ensures Good(limit, Next(limit, s, EndReleases))
  {
    hide A.Legal, A.After, R.Legal, R.After, A.Next, R.Next, A.Enabled, R.Enabled, SlotTheorems.Inv, Sets;
    SlotTheorems.RunKeepsInv(limit, s.slotRun);
    var a, r := Slots(limit, s), Streams(limit, s);
    var h := r.section.h;
    var x, n := s.slotOf[h], |a.tasks|;
    EndSets(a, x);
    EndMarks(r);
    SlotTheorems.Extend(limit, s.slotRun, A.OnEnd(x));
    SlotTheorems.Extend(limit, s.slotRun + [A.OnEnd(x)], A.Step(n));
    StreamTheorems.Extend(s.streamRun, R.SectionStep);
    ReleaseLinks(a, A.Next(A.Next(a, A.OnEnd(x)), A.Step(n)), r, R.Next(r, R.SectionStep),
                 s.slotOf, s.holder, h, false);
  }

  /** The state that a run of the system reaches, if each of its events is enabled in turn. */
  function Run(limit: nat, es: seq<Event>): Option<State>
    decreases |es|
  {
    if es == [] then Some(Init())
    else
      match Run(limit, es[..|es| - 1])
      case None => None
      case Some(s) =>
        var e := es[|es| - 1];
        if IsLegal(limit, s) && Enabled(limit, s, e) then Some(Next(limit, s, e)) else None
  }

  lemma {:induction false} RunIsGood(limit: nat, es: seq<Event>)
    requires limit < U32 && Run(limit, es).Some?
    ensures Good(limit, Run(limit, es).value)
    decreases |es|
  {
    if es == [] {
      SlotTheorems.Begin(limit);
      assert R.After([]) == R.Init();
    } else {
      var before := es[..|es| - 1];
      RunIsGood(limit, before);
      KeepsGood(limit, Run(limit, before).value, es[|es| - 1]);
    }
  }

  // ----- slots and streams -----

  /** The slots of the streams whose slot nobody has released. */
  function OpenSlots(r: R.State, slotOf: seq<nat>): set<nat>
    requires |slotOf| == |r.handles|
  {
    set h | h in Upto(|r.handles|) && !r.handles[h].released :: slotOf[h]
  }

  /** The slots of starts that are not answered yet, or are answered with a failure and not given
      back yet. */
  function StartingSlots(a: A.State): set<nat> {
    set x | x in Upto(|a.slots.released|) && !a.slots.released[x] && x !in a.slots.started
  }

  /** The slots whose release has won and not yet reached the counter. */
  function ReturningSlots(a: A.State): set<nat> {
    set t | t in Upto(|a.tasks|) && a.tasks[t].FetchSub? :: a.tasks[t].slot
  }

  lemma HeldSlotsAre(limit: nat, s: State)
    requires limit < U32 && Good(limit, s)
    ensures var a, r := Slots(limit, s), Streams(limit, s);
            SlotTheorems.Held(a.slots, a.tasks) == OpenSlots(r, s.slotOf) + StartingSlots(a) + ReturningSlots(a)
  {
    hide A.After, R.After, A.Legal, R.Legal, SlotTheorems.Held;
    SlotTheorems.RunKeepsInv(limit, s.slotRun);
    var a, r := Slots(limit, s), Streams(limit, s);
    HeldSplits(a, r, s.slotOf, s.holder);
  }

  lemma HeldSplits(a: A.State, r: R.State, slotOf: seq<nat>, holder: seq<Tid>)
    requires Linked(a, r, slotOf, holder) && Counting.SlotInv(a.slots, a.tasks)
    ensures SlotTheorems.Held(a.slots, a.tasks) == OpenSlots(r, slotOf) + StartingSlots(a) + ReturningSlots(a)
  {
    hide Counting.SlotInv;
    OpenAreHeld(a, r, slotOf, holder);
    ReturningAreHeld(a);
    var held := SlotTheorems.Held(a.slots, a.tasks);
    forall x | x in held ensures x in OpenSlots(r, slotOf) + StartingSlots(a) + ReturningSlots(a) {
      if a.slots.released[x] {
        var t: Tid :| t < |a.tasks| && a.tasks[t].FetchSub? && a.tasks[t].slot == x;
        assert t in Upto(|a.tasks|);
      } else if x in a.slots.started {
        var h :| 0 <= h < |slotOf| && slotOf[h] == x;
        assert LinkedStream(a, h, r.handles[h], slotOf[h], holder[h]);
        assert h in Upto(|r.handles|);
      }
    }
  }

  lemma OpenAreHeld(a: A.State, r: R.State, slotOf: seq<nat>, holder: seq<Tid>)
    requires Linked(a, r, slotOf, holder)
    ensures OpenSlots(r, slotOf) <= SlotTheorems.Held(a.slots, a.tasks)
  {
    forall x | x in OpenSlots(r, slotOf) ensures x in SlotTheorems.Held(a.slots, a.tasks) {
      var h :| h in Upto(|r.handles|) && !r.handles[h].released && slotOf[h] == x;
      assert LinkedStream(a, h, r.handles[h], slotOf[h], holder[h]);
    }
  }

  lemma ReturningAreHeld(a: A.State)
    requires Counting.SlotInv(a.slots, a.tasks)
    ensures ReturningSlots(a) <= SlotTheorems.Held(a.slots, a.tasks)
  {
    forall x | x in ReturningSlots(a) ensures x in SlotTheorems.Held(a.slots, a.tasks) {
      var t :| t in Upto(|a.tasks|) && a.tasks[t].FetchSub? && a.tasks[t].slot == x;
      assert Counting.Fits(a.slots, t, a.tasks[t]);
    }
  }

  /** In every state of every run, `active_count` is the number of the open streams' slots, one for
      each stream and no two alike, the slots of starts in flight, and those on their way back. */
  lemma ActiveCountIsOpenStreams(limit: nat, es: seq<Event>)
    requires limit < U32 && Run(limit, es).Some?
    ensures var s := Run(limit, es).value;
            && IsLegal(limit, s) && |s.slotOf| == |Streams(limit, s).handles| && NoDup(s.slotOf)
            && var a := Slots(limit, s);
               a.slots.active == |OpenSlots(Streams(limit, s), s.slotOf) + StartingSlots(a) + ReturningSlots(a)|
  {
    RunIsGood(limit, es);
    var s := Run(limit, es).value;
    HeldSlotsAre(limit, s);
    SlotTheorems.ActiveCountIsHeldSlots(limit, s.slotRun);
  }

  function OpenStreams(r: R.State): set<nat> {
    set h | h in Upto(|r.handles|) && !r.handles[h].released
  }

  lemma {:induction false} SameSize(hs: set<nat>, slotOf: seq<nat>)
    requires NoDup(slotOf) && forall h :: h in hs ==> h < |slotOf|
    ensures |hs| == |set h | h in hs :: slotOf[h]|
    decreases |hs|
  {
    if hs != {} {
      var h :| h in hs;
      var rest := hs - {h};
      SameSize(rest, slotOf);
      assert (set g | g in hs :: slotOf[g]) == (set g | g in rest :: slotOf[g]) + {slotOf[h]};
    }
  }

  lemma SubsetSize(x: set<nat>, y: set<nat>)
    requires x <= y
    ensures |x| <= |y|
  {
    assert y == x + (y - x);
  }

  /** The streams whose slot is not released are at all times no more than `active_count`, and so no
      more than some limit that was stored, over all reconnects, stops, drops and ends. */
  lemma OpenStreamsStayWithinALimit(limit: nat, es: seq<Event>)
    requires limit < U32 && Run(limit, es).Some?
    ensures var s := Run(limit, es).value;
            && IsLegal(limit, s) && |OpenStreams(Streams(limit, s))| <= Slots(limit, s).slots.active
            && exists m :: SlotTheorems.WasStored(limit, s.slotRun, m) && |OpenStreams(Streams(limit, s))| <= m
  {
    ActiveCountIsOpenStreams(limit, es);
    var s := Run(limit, es).value;
    var a, r := Slots(limit, s), Streams(limit, s);
    var slots := OpenSlots(r, s.slotOf);
    SameSize(OpenStreams(r), s.slotOf);
    assert slots == set h | h in OpenStreams(r) :: s.slotOf[h];
    SubsetSize(slots, slots + StartingSlots(a) + ReturningSlots(a));
    SlotTheorems.AdmissionStaysWithinALimit(limit, s.slotRun);
    var m :| SlotTheorems.WasStored(limit, s.slotRun, m) && a.slots.active <= m;
    assert |OpenStreams(r)| <= m;
  }

  /** A slot of a start in flight has the task that waits for the answer, or gives the slot back. */
  lemma StartIsInFlight(a: A.State, x: nat)
    requires SlotTheorems.Inv(a) && x in StartingSlots(a)
    ensures exists t: Tid :: t < |a.tasks| && (a.tasks[t].Starting? || a.tasks[t].ReleaseCas?) && a.tasks[t].slot == x
  {
    var t := a.slots.keeper[x];
    assert Counting.Keeps(a.tasks[t], x, a.slots.released[x]);
    assert Counting.Fits(a.slots, t, a.tasks[t]);
  }

  /** Once every stream's slot has been released, no start is in flight and no release is under way,
      the counter is back at zero. */
  lemma ClosingEverythingFreesEverySlot(limit: nat, es: seq<Event>)
    requires limit < U32 && Run(limit, es).Some? && IsLegal(limit, Run(limit, es).value)
    requires OpenStreams(Streams(limit, Run(limit, es).value)) == {}
    requires var a := Slots(limit, Run(limit, es).value);
             forall t: Tid :: t < |a.tasks| ==>
               !a.tasks[t].Starting? && !a.tasks[t].ReleaseCas? && !a.tasks[t].FetchSub?
    ensures Slots(limit, Run(limit, es).value).slots.active == 0
  {
    ActiveCountIsOpenStreams(limit, es);
    var s := Run(limit, es).value;
    SlotTheorems.RunKeepsInv(limit, s.slotRun);
    hide A.After, R.After, A.Legal, R.Legal, Run, SlotTheorems.Inv;
    NothingIsHeld(Slots(limit, s), Streams(limit, s), s.slotOf);
  }

  lemma NothingIsHeld(a: A.State, r: R.State, slotOf: seq<nat>)
    requires SlotTheorems.Inv(a) && |slotOf| == |r.handles| && OpenStreams(r) == {}
    requires forall t: Tid :: t < |a.tasks| ==>
               !a.tasks[t].Starting? && !a.tasks[t].ReleaseCas? && !a.tasks[t].FetchSub?
    ensures OpenSlots(r, slotOf) + StartingSlots(a) + ReturningSlots(a) == {}
  {
    hide SlotTheorems.Inv;
    if x :| x in StartingSlots(a) {
      StartIsInFlight(a, x);
    }
    assert forall h :: h in Upto(|r.handles|) && !r.handles[h].released ==> h in OpenStreams(r);
  }

  /** Neither side waits for the other: whoever reaches the compare-and-swap can perform it. */
  lemma ReleaseIsNeverBlocked(limit: nat, es: seq<Event>, h: nat)
    requires limit < U32 && Run(limit, es).Some? && IsLegal(limit, Run(limit, es).value)
    ensures var s := Run(limit, es).value;
            var r := Streams(limit, s);
            && (h < |r.handles| && r.handles[h].pc.Releasing? ==> Enabled(limit, s, HandleReleases(h)))
            && (R.SectionReady(r) && r.section.EndCas? ==> Enabled(limit, s, EndReleases))
  {
    hide A.After, R.After, A.Legal, R.Legal, A.Enabled, R.Enabled, R.SectionReady, Linked;
    RunIsGood(limit, es);
    var s := Run(limit, es).value;
    var a, r := Slots(limit, s), Streams(limit, s);
    if h < |r.handles| && r.handles[h].pc.Releasing? {
      HolderCanClose(a, r, s.slotOf, s.holder, h);
    }
    if R.SectionReady(r) && r.section.EndCas? {
      SlotCanEnd(a, r, s.slotOf, s.holder);
    }
  }

  lemma HolderCanClose(a: A.State, r: R.State, slotOf: seq<nat>, holder: seq<Tid>, h: nat)
    requires Linked(a, r, slotOf, holder) && h < |r.handles| && r.handles[h].pc.Releasing?
    ensures h < |holder| && A.Enabled(a, A.Close(holder[h]))
  {
    assert LinkedStream(a, h, r.handles[h], slotOf[h], holder[h]);
  }

  lemma SlotCanEnd(a: A.State, r: R.State, slotOf: seq<nat>, holder: seq<Tid>)
    requires Linked(a, r, slotOf, holder) && R.SectionReady(r) && r.section.EndCas?
    ensures r.section.h < |slotOf| && A.Enabled(a, A.OnEnd(slotOf[r.section.h]))
  {
    assert LinkedStream(a, r.section.h, r.handles[r.section.h], slotOf[r.section.h], holder[r.section.h]);
  }
}
