/** What the stream map gets done: quotes reach the handle, every stream gets its turn in a resume
    pass, a granted id is taken, and a stop takes back every id that its stream had. */
module RegistryFlow {
  import opened Base
  import opened Delivery
  import opened Registry
  import opened RegistryInv
  import opened RegistrySteps
  import opened RegistryTheorems
  import Sides = QuoteStreamClass

  // ----- quotes -----

  function Backlog(p: Pipe): nat {
    3 * |p.raw| + (if p.adapter.Sending? then 2 else 0) + |p.quotes|
  }

  /** The next event that brings a quote closer to the handle, and what it makes of the pipeline. */
  function Forward(p: Pipe, h: nat): Event {
    if p.quotes != [] then Receive(h) else PumpStep(h)
  }

  function Forwarded(p: Pipe): Pipe
    requires p.open && (p.quotes != [] || CanPump(p))
  {
    if p.quotes != [] then Recv(p) else Pump(p)
  }

  lemma ForwardIsProgress(p: Pipe)
    requires PipeInv(p) && p.open && Backlog(p) > 0
    ensures p.quotes != [] || CanPump(p)
    ensures Forwarded(p).open && Backlog(Forwarded(p)) < Backlog(p)
  {
    hide QuotesOf;
  }

  lemma ForwardIs(s: State, h: nat)
    requires h < |s.handles| && s.handles[h].pipe.open
    requires s.handles[h].pipe.quotes != [] || CanPump(s.handles[h].pipe)
    ensures var e := Forward(s.handles[h].pipe, h);
            && Enabled(s, e) && FrameFor(s, e, h) == []
            && Next(s, e) == WithPipe(s, h, Forwarded(s.handles[h].pipe))
  {
    hide Recv, Pump, CanPump;
  }

  /** With nothing on its way, everything was received. */
  lemma NothingLeft(es: seq<Event>, h: nat)
    requires Legal(es) && h < |After(es).handles| && After(es).handles[h].pipe.open
    requires Backlog(After(es).handles[h].pipe) == 0
    ensures After(es).handles[h].pipe.received == QuotesOf(FramesFor(es, h))
    ensures CanDispatch(After(es).handles[h].pipe)
  {
    hide Legal, After, FramesFor;
    DeliveryIsFifo(es, h);
    var p := After(es).handles[h].pipe;
    assert p.received + [] + [] + [] == p.received;
    assert p.raw == [] && QuotesOf(p.raw) == [] && p.quotes == [] && InHand(p.adapter) == [];
  }

  /** From the run `es` on, the run `all` has brought every quote that was read for stream `h` to its
      handle, and has changed nothing else. */
  ghost predicate Brings(es: seq<Event>, all: seq<Event>, h: nat)
    requires Legal(es) && h < |After(es).handles|
  {
    && Legal(all) && h < |After(all).handles|
    && var p := After(all).handles[h].pipe;
       && p.open && Backlog(p) == 0 && CanDispatch(p) && p.received == QuotesOf(FramesFor(es, h))
       && After(all) == WithPipe(After(es), h, p)
  }

  lemma BringsFromBefore(es: seq<Event>, e: Event, all: seq<Event>, h: nat, p: Pipe)
    requires Legal(es) && h < |After(es).handles|
    requires Legal(es + [e]) && After(es + [e]) == WithPipe(After(es), h, p)
    requires FramesFor(es + [e], h) == FramesFor(es, h) && Brings(es + [e], all, h)
    ensures Brings(es, all, h)
  {
    hide Legal, After, FramesFor, Backlog, QuotesOf;
    PipesOnly(After(es), h, p, After(all).handles[h].pipe);
  }

  lemma BringsAtOnce(es: seq<Event>, h: nat)
    requires Legal(es) && h < |After(es).handles| && After(es).handles[h].pipe.open
    requires Backlog(After(es).handles[h].pipe) == 0
    ensures Brings(es, es, h)
  {
    hide Legal, After, FramesFor, QuotesOf;
    NothingLeft(es, h);
    PipesOnly(After(es), h, After(es).handles[h].pipe, After(es).handles[h].pipe);
  }

  lemma {:induction false} BringForward(es: seq<Event>, h: nat) returns (more: seq<Event>)
    requires Legal(es) && h < |After(es).handles| && After(es).handles[h].pipe.open
    ensures forall i :: 0 <= i < |more| ==> more[i] == PumpStep(h) || more[i] == Receive(h)
    ensures Brings(es, es + more, h)
    decreases Backlog(After(es).handles[h].pipe)
  {
    hide Next, Enabled, Legal, After, Forwarded, Backlog, FramesFor, FrameFor, Brings;
    RunKeepsInv(es);
    AboutPipe(After(es), h);
    var p := After(es).handles[h].pipe;
    if Backlog(p) == 0 {
      more := [];
      assert es + more == es;
      BringsAtOnce(es, h);
    } else {
      var e := Forward(p, h);
      ForwardIsProgress(p);
      ForwardIs(After(es), h);
      Extend(es, e);
      FramesGrow(es, e, h);
      assert FramesFor(es + [e], h) == FramesFor(es, h);
      var rest := BringForward(es + [e], h);
      more := [e] + rest;
      assert es + more == es + [e] + rest;
      BringsFromBefore(es, e, es + more, h, Forwarded(p));
    }
  }

  /** In every state of every run, the adapter and the reader of a stream that is not dropped can bring
      every quote that the connection read for it to the handle, in order, by steps of their own, and
      then there is room for more. */
  lemma EveryQuoteCanBeReceived(es: seq<Event>, h: nat) returns (more: seq<Event>)
    requires Legal(es) && h < |After(es).handles| && After(es).handles[h].pipe.open
    ensures forall i :: 0 <= i < |more| ==> more[i] == PumpStep(h) || more[i] == Receive(h)
    ensures Legal(es + more) && h < |After(es + more).handles|
    ensures After(es + more).handles[h].pipe.received == QuotesOf(FramesFor(es, h))
    ensures CanDispatch(After(es + more).handles[h].pipe)
  {
    hide Legal, After, FramesFor;
    more := BringForward(es, h);
  }

  lemma PipesOnly(s: State, h: nat, p: Pipe, q: Pipe)
    requires h < |s.handles|
    ensures WithPipe(WithPipe(s, h, p), h, q) == WithPipe(s, h, q)
    ensures WithPipe(s, h, s.handles[h].pipe) == s
  {
    assert s.handles[h := s.handles[h]] == s.handles;
  }

  /** Nobody sends to the stream any more: it has been ended or unregistered, and no resume is to bring it
      back. */
  predicate IsDetached(s: State, h: nat) {
    && h < |s.handles| && !s.handles[h].pc.Registering? && !AtHome(s, h) && !InSnapshot(s.loop, h)
    && !IsRemap(s.section)
  }

  /** Then the handle gets every quote that was read for it, and after these the end of the stream: the
      adapter is gone and the channel empty, so that `recv` returns nothing more. */
  lemma DetachedStreamIsReadToItsEnd(es: seq<Event>, h: nat) returns (more: seq<Event>)
    requires Legal(es) && IsDetached(After(es), h) && After(es).handles[h].pipe.open
    ensures Legal(es + more) && h < |After(es + more).handles|
    ensures forall i :: 0 <= i < |more| ==> more[i] == PumpStep(h) || more[i] == Receive(h) || more[i] == InputEnds(h)
    ensures var p := After(es + more).handles[h].pipe;
            p.received == QuotesOf(FramesFor(es, h)) && p.quotes == [] && p.adapter.Gone?
  {
    hide Legal, After, FramesFor, Next;
    var first := BringForward(es, h);
    var t := After(es + first);
    RunKeepsInv(es + first);
    AboutPipe(t, h);
    EmptyPipeIs(t.handles[h].pipe);
    if t.handles[h].pipe.adapter.Gone? {
      more := first;
    } else {
      StaysDetached(After(es), h, t.handles[h].pipe);
      InputEndsIs(t, h);
      Extend(es + first, InputEnds(h));
      more := first + [InputEnds(h)];
      assert es + more == es + first + [InputEnds(h)];
    }
  }

  lemma EmptyPipeIs(p: Pipe)
    requires PipeInv(p) && p.open && Backlog(p) == 0
    ensures p.raw == [] && p.quotes == [] && (p.adapter.Receiving? || p.adapter.Gone?)
  {
  }

  lemma StaysDetached(s: State, h: nat, p: Pipe)
    requires IsDetached(s, h)
    ensures IsDetached(WithPipe(s, h, p), h)
  {
  }

  lemma InputEndsIs(s: State, h: nat)
    requires IsDetached(s, h) && s.handles[h].pipe.adapter.Receiving? && s.handles[h].pipe.raw == []
    ensures Enabled(s, InputEnds(h))
    ensures Next(s, InputEnds(h)) == WithPipe(s, h, s.handles[h].pipe.(adapter := Gone))
  {
  }

  lemma FramesGrow(es: seq<Event>, e: Event, h: nat)
    requires Legal(es) && Enabled(After(es), e) && Legal(es + [e])
    ensures FramesFor(es + [e], h) == FramesFor(es, h) + FrameFor(After(es), e, h)
  {
    hide Next, Enabled, FrameFor;
    assert (es + [e])[..|es|] == es;
  }

  /** Nothing is received on a dropped handle. */
  lemma {:induction false} NothingIsReceivedAfterDrop(es: seq<Event>, more: seq<Event>, h: nat)
    requires Legal(es) && Legal(es + [DropReceiver(h)] + more)
    ensures h < |After(es + [DropReceiver(h)] + more).handles|
    ensures !After(es + [DropReceiver(h)] + more).handles[h].pipe.open
    ensures Receipts(es + [DropReceiver(h)] + more, h) == Receipts(es, h)
    decreases |more|
  {
    var all := es + [DropReceiver(h)] + more;
    hide Next, Enabled;
    if more == [] {
      assert all == es + [DropReceiver(h)] && all[..|all| - 1] == es;
      DropNeedsHandle(After(es), h);
      PipeHistory(After(es), DropReceiver(h), h);
    } else {
      var before, e := es + [DropReceiver(h)] + more[..|more| - 1], all[|all| - 1];
      assert all[..|all| - 1] == before;
      NothingIsReceivedAfterDrop(es, more[..|more| - 1], h);
      PipeHistory(After(before), e, h);
      ReceiveNeedsOpen(After(before), h);
    }
  }

  lemma DropNeedsHandle(s: State, h: nat)
    requires Enabled(s, DropReceiver(h))
    ensures h < |s.handles|
  {
  }

  lemma ReceiveNeedsOpen(s: State, h: nat)
    requires h < |s.handles| && !s.handles[h].pipe.open
    ensures !Enabled(s, Receive(h))
  {
  }

  // ----- turns -----

  /** The turns of the last resume pass that have begun. */
  function TurnsBegun(es: seq<Event>): seq<(Id, nat)>
    requires Legal(es)
    decreases |es|
  {
    if es == [] then []
    else
      var before, e := es[..|es| - 1], es[|es| - 1];
      var s := After(before);
      if e.Reconnect? then []
      else if e.TurnStep? && s.loop.Turn? && s.loop.todo != [] then TurnsBegun(before) + [s.loop.todo[0]]
      else TurnsBegun(before)
  }

  /** The entries that were in the map when the last resume pass began. */
  function Registered(es: seq<Event>): set<(Id, nat)>
    requires Legal(es)
    decreases |es|
  {
    if es == [] then {}
    else
      var before, e := es[..|es| - 1], es[|es| - 1];
      if e.Reconnect? then After(before).streams.Items else Registered(before)
  }

  function ToDo(l: LoopPc): seq<(Id, nat)> {
    if l.Turn? || l.Await? || l.Granted? || l.Removing? then l.todo else []
  }

  predicate InPass(l: LoopPc) {
    l.Turn? || l.Await? || l.Granted? || l.Removing?
  }

  /** The turns begun and those to come are the registered entries, each once. */
  ghost predicate Lists(turns: seq<(Id, nat)>, entries: set<(Id, nat)>) {
    NoDup(turns) && forall x :: x in turns <==> x in entries
  }

  lemma SnapshotLists(s: State, order: seq<Id>)
    requires Enabled(s, Reconnect(order))
    ensures InPass(Next(s, Reconnect(order)).loop) && Lists(ToDo(Next(s, Reconnect(order)).loop), s.streams.Items)
  {
    var todo := ToDo(Next(s, Reconnect(order)).loop);
    assert todo == Snapshot(s.streams, order);
    forall x | x in s.streams.Items ensures x in todo {
      var i :| 0 <= i < |order| && order[i] == x.0;
      assert todo[i] == x;
    }
  }

  lemma OthersLeaveTurns(s: State, e: Event)
    requires Enabled(s, e) && !e.Reconnect? && !e.TurnStep?
    requires !e.SectionStep? && !e.HandleStep?
    ensures InPass(Next(s, e).loop) ==> InPass(s.loop) && ToDo(Next(s, e).loop) == ToDo(s.loop)
  {
  }

  lemma HandleLeavesTurns(s: State, h: nat)
    requires h < |s.handles| && HandleReady(s, h)
    ensures StepHandle(s, h).loop == s.loop
  {
  }

  lemma SectionLeavesTurns(s: State)
    requires SectionReady(s)
    ensures StepSection(s).loop == s.loop
  {
  }

  lemma TurnTakesFirst(s: State)
    requires Enabled(s, TurnStep)
    ensures if s.loop.todo == [] then !InPass(Next(s, TurnStep).loop)
            else InPass(Next(s, TurnStep).loop) && s.loop.todo == [s.loop.todo[0]] + ToDo(Next(s, TurnStep).loop)
    ensures s.loop.Turn?
  {
  }

  /** Throughout a resume pass, the turns begun and those to come are together the entries that were in
      the map when the pass began, each exactly once. */
  lemma {:induction false} EveryStreamGetsItsTurn(es: seq<Event>)
    requires Legal(es) && InPass(After(es).loop)
    ensures Lists(TurnsBegun(es) + ToDo(After(es).loop), Registered(es))
    decreases |es|
  {
    hide Next, Enabled, Lists;
    NotAtStart();
    var before, e := es[..|es| - 1], es[|es| - 1];
    var s := After(before);
    if e.Reconnect? {
      SnapshotLists(s, e.order);
      assert [] + ToDo(After(es).loop) == ToDo(After(es).loop);
    } else if e.TurnStep? {
      TurnTakesFirst(s);
      EveryStreamGetsItsTurn(before);
      assert TurnsBegun(before) + s.loop.todo == TurnsBegun(es) + ToDo(After(es).loop);
    } else {
      if e.SectionStep? {
        SectionStepIs(s);
        SectionLeavesTurns(s);
      } else if e.HandleStep? {
        HandleStepIs(s, e.h);
        HandleLeavesTurns(s, e.h);
      } else {
        OthersLeaveTurns(s, e);
      }
      EveryStreamGetsItsTurn(before);
    }
  }

  lemma NotAtStart()
    ensures !InPass(After([]).loop)
  {
  }

  /** A pass ends only when every entry that was in the map when it began has had its turn. */
  lemma PassEndsWhenAllHadTheirTurn(es: seq<Event>)
    requires Legal(es) && Enabled(After(es), TurnStep) && !InPass(Next(After(es), TurnStep).loop)
    ensures Lists(TurnsBegun(es), Registered(es))
  {
    TurnTakesFirst(After(es));
    EveryStreamGetsItsTurn(es);
    assert TurnsBegun(es) + [] == TurnsBegun(es);
  }

  /** The loop is at the turn of a registered stream that is neither stopped nor without its adapter. */
  predicate AtLiveTurn(s: State, oldId: Id, h: nat) {
    && s.section.Free? && s.loop.Turn? && s.loop.todo != [] && s.loop.todo[0] == (oldId, h)
    && AtHome(s, h) && s.handles[h].eff == oldId
    && !s.handles[h].stopped && !s.handles[h].pipe.adapter.Gone?
  }

  /** Its resume is requested and granted. */
  lemma TurnIsGranted(es: seq<Event>, oldId: Id, h: nat, id: Id) returns (more: seq<Event>)
    requires Legal(es) && AtLiveTurn(After(es), oldId, h) && id !in After(es).issued
    ensures more == [TurnStep, ResumeGranted(id)] && Legal(es + more)
    ensures var s, t := After(es), After(es + more);
            t == s.(issued := s.issued[id := h], loop := Granted(id, oldId, h, s.loop.todo[1..]))
  {
    hide Legal, After, StepSection, StepHandle, TakeForRemap, RemoveAndEnd;
    Extend(es, TurnStep);
    Extend(es + [TurnStep], ResumeGranted(id));
    more := [TurnStep, ResumeGranted(id)];
    assert es + more == es + [TurnStep] + [ResumeGranted(id)];
  }

  /** Its entry moves under the lock. */
  lemma GrantIsTaken(es: seq<Event>, oldId: Id, h: nat, id: Id, rest: seq<(Id, nat)>) returns (more: seq<Event>)
    requires Legal(es) && AtHome(After(es), h) && After(es).section.Free? && After(es).handles[h].eff == oldId
    requires After(es).loop == Granted(id, oldId, h, rest)
    requires !After(es).handles[h].stopped && !After(es).handles[h].pipe.adapter.Gone?
    ensures more == [LockRemap, SectionStep, SectionStep, SectionStep] && Legal(es + more)
    ensures var s, t := After(es), After(es + more);
            && t.streams == Without(s.streams, oldId)[id := h] && t.loop == Turn(rest) && t.section.Free?
            && |t.handles| == |s.handles| && t.handles[h].eff == id && !t.handles[h].stopped
  {
    hide Legal, After, RemoveAndEnd, StepHandle, Without;
    more := [LockRemap, SectionStep, SectionStep, SectionStep];
    Extend(es, LockRemap);
    var es' := es + [LockRemap];
    assert After(es').section == RemapCheck(id, h);
    Extend(es', SectionStep);
    es' := es' + [SectionStep];
    assert After(es').section == RemapStore(id, h);
    Extend(es', SectionStep);
    es' := es' + [SectionStep];
    assert After(es').section == RemapInsert(id, h);
    Extend(es', SectionStep);
    assert es + more == es' + [SectionStep];
  }

  /** Whatever the run so far, a turn of a live stream that nothing disturbs ends with the stream in the
      map under the id that the server granted and no longer under the old one. */
  lemma UndisturbedTurnResumes(es: seq<Event>, oldId: Id, h: nat, id: Id) returns (more: seq<Event>)
    requires Legal(es) && AtLiveTurn(After(es), oldId, h) && id !in After(es).issued
    ensures more == [TurnStep, ResumeGranted(id), LockRemap, SectionStep, SectionStep, SectionStep]
    ensures Legal(es + more)
    ensures var s, t := After(es), After(es + more);
            && t.streams == Without(s.streams, oldId)[id := h] && t.section.Free? && t.loop == Turn(s.loop.todo[1..])
            && h < |t.handles| && t.handles[h].eff == id && !t.handles[h].stopped
  {
    hide Legal, After;
    var first := TurnIsGranted(es, oldId, h, id);
    var second := GrantIsTaken(es + first, oldId, h, id, After(es).loop.todo[1..]);
    more := first + second;
    assert es + more == es + first + second;
  }

  /** A turn that gives its stream up takes the entry out of the map and ends that stream. */
  lemma RemovalEnds(es: seq<Event>, h: nat) returns (more: seq<Event>)
    requires Legal(es) && After(es).loop.Removing? && After(es).section.Free?
    requires AtHome(After(es), h) && After(es).loop.oldId == After(es).handles[h].eff
    ensures more == [LockRemove, SectionStep, SectionStep] && Legal(es + more)
    ensures var s, t := After(es), After(es + more);
            && t.streams == Without(s.streams, s.loop.oldId) && t.section.Free? && t.loop == Turn(s.loop.todo)
            && h < |t.handles| && t.handles[h].stopped && t.handles[h].released
  {
    hide Legal, After, StepHandle, Without;
    more := [LockRemove, SectionStep, SectionStep];
    Extend(es, LockRemove);
    var es' := es + [LockRemove];
    assert After(es').section == EndFlag(h, Loop, false);
    Extend(es', SectionStep);
    es' := es' + [SectionStep];
    assert After(es').section == EndCas(h, Loop, false);
    Extend(es', SectionStep);
    assert es + more == es' + [SectionStep];
  }

  /** So it ends, when nothing disturbs it, if the stream is stopped or without its adapter, or if its
      request fails. */
  lemma UndisturbedTurnEnds(es: seq<Event>, oldId: Id, h: nat) returns (more: seq<Event>)
    requires Legal(es) && After(es).section.Free? && After(es).loop.Turn? && After(es).loop.todo != []
    requires After(es).loop.todo[0] == (oldId, h) && AtHome(After(es), h) && After(es).handles[h].eff == oldId
    ensures more == (if AtLiveTurn(After(es), oldId, h) then [TurnStep, ResumeFailed] else [TurnStep])
                    + [LockRemove, SectionStep, SectionStep]
    ensures Legal(es + more)
    ensures var s, t := After(es), After(es + more);
            && t.streams == Without(s.streams, oldId) && t.section.Free? && t.loop == Turn(s.loop.todo[1..])
            && h < |t.handles| && t.handles[h].stopped && t.handles[h].released
  {
    hide Legal, After, StepHandle, StepSection, Without;
    Extend(es, TurnStep);
    var first := [TurnStep];
    if AtLiveTurn(After(es), oldId, h) {
      Extend(es + [TurnStep], ResumeFailed);
      first := [TurnStep, ResumeFailed];
      assert es + first == es + [TurnStep] + [ResumeFailed];
    }
    var rest := RemovalEnds(es + first, h);
    more := first + rest;
    assert es + more == es + first + rest;
  }

  /** A turn asks for its stream exactly when the stream is neither stopped nor without its adapter, and
      otherwise gives it up. */
  lemma TurnAsksIff(s: State)
    requires Enabled(s, TurnStep) && s.loop.todo != []
    ensures var (oldId, h), l := s.loop.todo[0], Next(s, TurnStep).loop;
            && l == (if s.handles[h].stopped || s.handles[h].pipe.adapter.Gone? then Removing(oldId, s.loop.todo[1..])
                     else Await(oldId, h, s.loop.todo[1..]))
  {
  }

  /** An entry is taken out of the map only by the stop or the adapter of a stream that has its id, by the
      end of its stream, by a drain, or by its own turn, to be moved or because the stream is given up. */
  predicate TakesOut(s: State, e: Event, k: Id) {
    match e
    case HandleStep(h) => h < |s.handles| && s.handles[h].pc.Stopping? && s.handles[h].pc.ids != []
                          && k == s.handles[h].pc.ids[0]
    case LeaveMap(h) => h < |s.handles| && s.handles[h].pipe.adapter == Leaving(k)
    case EndFrame(id) => k == id
    case DrainOne(id) => k == id
    case LockRemove => s.loop.Removing? && k == s.loop.oldId
    case LockRemap => s.loop.Granted? && k == s.loop.oldId
    case _ => false
  }

  lemma EntriesLeaveOnlyBy(s: State, e: Event, k: Id)
    requires Enabled(s, e) && k in s.streams
    ensures k !in Next(s, e).streams <==> TakesOut(s, e, k)
  {
    hide Next, Enabled;
    if e.HandleStep? {
      HandleStepIs(s, e.h);
      HandleTakesOut(s, e.h, k);
    } else if e.SectionStep? {
      SectionStepIs(s);
      SectionTakesNothing(s, k);
    } else {
      OthersTakeOut(s, e, k);
    }
  }

  lemma HandleTakesOut(s: State, h: nat, k: Id)
    requires h < |s.handles| && HandleReady(s, h) && k in s.streams
    ensures k !in StepHandle(s, h).streams <==> TakesOut(s, HandleStep(h), k)
  {
  }

  lemma SectionTakesNothing(s: State, k: Id)
    requires SectionReady(s) && k in s.streams
    ensures k in StepSection(s).streams
  {
  }

  lemma OthersTakeOut(s: State, e: Event, k: Id)
    requires Enabled(s, e) && k in s.streams && !e.HandleStep? && !e.SectionStep?
    ensures k !in Next(s, e).streams <==> TakesOut(s, e, k)
  {
  }

  /** The loop goes to remove an entry only in the turn of that entry: of a stopped stream, of one without
      its adapter, or of one whose request failed. */
  lemma RemovesOnlyInItsTurn(s: State, e: Event)
    requires Enabled(s, e) && Next(s, e).loop.Removing? && Next(s, e).loop != s.loop
    ensures var oldId := Next(s, e).loop.oldId;
            || (e.ResumeFailed? && s.loop.Await? && oldId == s.loop.oldId)
            || (e.TurnStep? && s.loop.Turn? && s.loop.todo != [] && oldId == s.loop.todo[0].0
                && var x := s.handles[s.loop.todo[0].1]; x.stopped || x.pipe.adapter.Gone?)
  {
  }

  /** The adapter of a dropped handle, turned away with a quote in its hand, takes its stream out of the
      map and ends. */
  lemma UndisturbedAdapterLeaves(es: seq<Event>, h: nat) returns (more: seq<Event>)
    requires Legal(es) && h < |After(es).handles| && After(es).section.Free?
    requires !After(es).handles[h].pipe.open && After(es).handles[h].pipe.adapter.Sending?
    ensures more == [PumpStep(h), LoadForLeaving(h), LeaveMap(h)] && Legal(es + more)
    ensures var s, t := After(es), After(es + more);
            && t.streams == Without(s.streams, s.handles[h].eff)
            && h < |t.handles| && t.handles[h].pipe.adapter.Gone? && t.handles[h].eff == s.handles[h].eff
  {
    hide Legal, After, StepHandle, StepSection, Without;
    more := [PumpStep(h), LoadForLeaving(h), LeaveMap(h)];
    Extend(es, PumpStep(h));
    var es' := es + [PumpStep(h)];
    Extend(es', LoadForLeaving(h));
    es' := es' + [LoadForLeaving(h)];
    Extend(es', LeaveMap(h));
    assert es + more == es' + [LeaveMap(h)];
  }

  // ----- what a stop takes back -----

  /** The ids that stop loads for stream `h`, and those that it unregisters, in order. */
  function Loads(es: seq<Event>, h: nat): seq<Id>
    requires Legal(es)
    decreases |es|
  {
    if es == [] then [] else Loads(es[..|es| - 1], h) + Load(After(es[..|es| - 1]), es[|es| - 1], h)
  }

  function Load(s: State, e: Event, h: nat): seq<Id> {
    if e == HandleStep(h) && h < |s.handles| && (s.handles[h].pc.FirstLoad? || s.handles[h].pc.SecondLoad?) then
      [s.handles[h].eff]
    else []
  }

  function Unregistered(es: seq<Event>, h: nat): seq<Id>
    requires Legal(es)
    decreases |es|
  {
    if es == [] then [] else Unregistered(es[..|es| - 1], h) + Unregisters(After(es[..|es| - 1]), es[|es| - 1], h)
  }

  function Unregisters(s: State, e: Event, h: nat): seq<Id> {
    if e == HandleStep(h) && h < |s.handles| && s.handles[h].pc.Stopping? && s.handles[h].pc.ids != [] then
      [s.handles[h].pc.ids[0]]
    else []
  }

  lemma StopIdsAre(first: Id, second: Id, orig: Id)
    ensures NoDup(StopIds(first, second, orig)) && StopIds(first, second, orig) != []
    ensures forall id :: id in StopIds(first, second, orig) <==> id == first || id == second || id == orig
  {
  }

  /** How far a stop has come. */
  predicate StopStands(x: Handle, loads: seq<Id>, gone: seq<Id>) {
    match x.pc
    case SecondLoad(first) => loads == [first] && gone == []
    case Stopping(ids) => ids != [] && |loads| == 2 && gone + ids == StopIds(loads[0], loads[1], x.orig)
    case Releasing => x.bare || (|loads| == 2 && gone == StopIds(loads[0], loads[1], x.orig))
    case Closed => x.bare || (|loads| == 2 && gone == StopIds(loads[0], loads[1], x.orig))
    case _ => loads == [] && gone == []
  }

  lemma HandleStepStands(s: State, h: nat, loads: seq<Id>, gone: seq<Id>)
    requires h < |s.handles| && HandleReady(s, h) && StopStands(s.handles[h], loads, gone)
    ensures h < |StepHandle(s, h).handles|
    ensures StopStands(StepHandle(s, h).handles[h], loads + Load(s, HandleStep(h), h),
                       gone + Unregisters(s, HandleStep(h), h))
  {
    hide StopIds;
    var x := s.handles[h];
    match x.pc
    case SecondLoad(first) =>
      StopIdsAre(first, x.eff, x.orig);
      assert [] + StopIds(first, x.eff, x.orig) == StopIds(first, x.eff, x.orig);
    case Stopping(ids) =>
      assert gone + ids == gone + [ids[0]] + ids[1..];
      assert |ids| == 1 ==> ids[1..] == [];
    case _ =>
  }

  lemma SideStands(s: State, e: Event, h: nat, loads: seq<Id>, gone: seq<Id>)
    requires Enabled(s, e) && h < |s.handles| && StopStands(s.handles[h], loads, gone)
    requires (e.Register? || e.Stop? || e.DropBare?) && e.h == h
    ensures h < |Next(s, e).handles| && StopStands(Next(s, e).handles[h], loads, gone)
    ensures Load(s, e, h) == Unregisters(s, e, h) == []
  {
  }

  lemma {:induction false} StopStandsIn(es: seq<Event>, h: nat)
    requires Legal(es)
    ensures if h < |After(es).handles| then StopStands(After(es).handles[h], Loads(es, h), Unregistered(es, h))
            else Loads(es, h) == [] && Unregistered(es, h) == []
    decreases |es|
  {
    if es != [] {
      var before, e := es[..|es| - 1], es[|es| - 1];
      StopStandsIn(before, h);
      hide Next, Enabled, StopStands, Load, Unregisters;
      var s, loads, gone := After(before), Loads(before, h), Unregistered(before, h);
      assert loads + [] == loads && gone + [] == gone;
      if h >= |s.handles| {
        NobodyLoads(s, e, h);
        if h < |After(es).handles| { NewcomerStands(s, e, h); }
      } else if e == HandleStep(h) {
        HandleStepIs(s, h);
        HandleStepStands(s, h, loads, gone);
      } else if Sides.IsBy(e, h) {
        SideStands(s, e, h, loads, gone);
      } else {
        Sides.OthersKeepSide(s, e, h);
        OthersStand(s, e, h, loads, gone, Next(s, e).handles[h]);
      }
    }
  }

  lemma NobodyLoads(s: State, e: Event, h: nat)
    requires Enabled(s, e) && h >= |s.handles|
    ensures Load(s, e, h) == Unregisters(s, e, h) == []
  {
  }

  lemma NewcomerStands(s: State, e: Event, h: nat)
    requires Enabled(s, e) && |s.handles| <= h < |Next(s, e).handles|
    ensures StopStands(Next(s, e).handles[h], [], [])
  {
    hide Next, Enabled;
    NewcomersRegister(s, e, h);
  }

  lemma OthersStand(s: State, e: Event, h: nat, loads: seq<Id>, gone: seq<Id>, y: Handle)
    requires h < |s.handles| && e != HandleStep(h) && Sides.SameSide(s.handles[h], y)
    requires StopStands(s.handles[h], loads, gone)
    ensures StopStands(y, loads, gone) && Load(s, e, h) == Unregisters(s, e, h) == []
  {
  }

  /** A completed stop has loaded the effective id twice and has unregistered what it loaded and the
      original id, each once and nothing else. */
  lemma StopTakesBackEveryId(es: seq<Event>, h: nat)
    requires Legal(es) && h < |After(es).handles|
    requires After(es).handles[h].pc.Closed? && !After(es).handles[h].bare
    ensures |Loads(es, h)| == 2 && NoDup(Unregistered(es, h))
    ensures forall id :: id in Unregistered(es, h) <==> id in Loads(es, h) || id == After(es).handles[h].orig
  {
    hide Legal, After, Loads, Unregistered, StopIds;
    StopStandsIn(es, h);
    var loads := Loads(es, h);
    StopIdsAre(loads[0], loads[1], After(es).handles[h].orig);
    assert loads == [loads[0], loads[1]];
  }
}
