/** What every run of the live stream map guarantees, whatever the interleaving. */
module RegistryTheorems {
  import opened Base
  import opened Delivery
  import opened Registry
  import opened RegistryInv
  import opened RegistrySteps

  // ----- keys, ids and streams -----

  /** Every entry's key is the effective id of its stream, so no stream has two keys. */
  lemma KeyIsEffectiveId(es: seq<Event>, k: Id, j: Id)
    requires Legal(es) && k in After(es).streams && j in After(es).streams
    ensures var s := After(es);
            && s.streams[k] < |s.handles| && s.handles[s.streams[k]].eff == k
            && (s.streams[k] == s.streams[j] ==> k == j)
  {
    RunKeepsInv(es);
  }

  /** The stream is between two keys, or its on_end has begun, inside a locked section. */
  predicate InTransit(s: State, h: nat) {
    (IsRemap(s.section) || s.section.EndFlag?) && s.section.h == h
  }

  /** However often the connection is lost and its streams are re-keyed, a registered stream that
      nobody stopped and whose on_end has not run is in the map under its effective id. */
  lemma UnstoppedStreamIsKept(es: seq<Event>, h: nat)
    requires Legal(es) && h < |After(es).handles|
    requires !After(es).handles[h].pc.Registering? && !After(es).handles[h].stopped
    ensures AtHome(After(es), h) || InTransit(After(es), h)
  {
    RunKeepsInv(es);
    AboutStream(After(es), h);
  }

  /** With no locked section and no stop in progress, every registered stream is in the map under
      its effective id or has its slot released. */
  lemma StreamIsKeptOrReleased(es: seq<Event>, h: nat)
    requires Legal(es) && h < |After(es).handles| && After(es).section.Free?
    requires !After(es).handles[h].pc.Registering? && !Closing(After(es).handles[h].pc)
    ensures AtHome(After(es), h) || After(es).handles[h].released
  {
    RunKeepsInv(es);
    AboutStream(After(es), h);
  }

  // ----- ids and deliveries -----

  /** The server's grants of a run: the stream for which each id was issued. */
  function Grants(es: seq<Event>): map<Id, nat>
    requires Legal(es)
    decreases |es|
  {
    if es == [] then map[]
    else
      var before, e := es[..|es| - 1], es[|es| - 1];
      var s := After(before);
      match e
      case Accept(id) => Grants(before)[id := |s.handles|]
      case ResumeGranted(id) => Grants(before)[id := s.loop.h]
      case _ => Grants(before)
  }

  lemma IssuedOnlyByGrants(s: State, e: Event)
    requires Enabled(s, e)
    ensures Next(s, e).issued == match e
                                 case Accept(id) => s.issued[id := |s.handles|]
                                 case ResumeGranted(id) => s.issued[id := s.loop.h]
                                 case _ => s.issued
  {
    hide StepHandle, StepSection;
    if e.HandleStep? {
      HandleStepIs(s, e.h);
      HandleIssuesNothing(s, e.h);
    } else if e.SectionStep? {
      SectionStepIs(s);
      SectionIssuesNothing(s);
    } else if IsChannels(e) {
      ChannelsIssueNothing(s, e);
    }
  }

  lemma ChannelsIssueNothing(s: State, e: Event)
    requires Enabled(s, e) && IsChannels(e)
    ensures Next(s, e).issued == s.issued
  {
  }

  lemma HandleIssuesNothing(s: State, h: nat)
    requires h < |s.handles| && HandleReady(s, h)
    ensures StepHandle(s, h).issued == s.issued
  {
  }

  lemma SectionIssuesNothing(s: State)
    requires SectionReady(s)
    ensures StepSection(s).issued == s.issued
  {
  }

  lemma {:induction false} IssuedAreTheGrants(es: seq<Event>)
    requires Legal(es)
    ensures After(es).issued == Grants(es)
    decreases |es|
  {
    if es != [] {
      var before := es[..|es| - 1];
      IssuedAreTheGrants(before);
      IssuedOnlyByGrants(After(before), es[|es| - 1]);
    }
  }

  /** Over any number of reconnects, an entry's key was granted in answer to that same stream's
      original or resume request, and so was the id of everything dispatched to the stream. */
  lemma NoCrossDelivery(es: seq<Event>)
    requires Legal(es)
    ensures var s := After(es);
            && (forall k :: k in s.streams ==> Owned(Grants(es), k, s.streams[k]))
            && (forall h: nat, i :: h < |s.handles| && 0 <= i < |s.handles[h].pipe.dispatched| ==>
                  Owned(Grants(es), s.handles[h].pipe.dispatched[i].id, h))
  {
    RunKeepsInv(es);
    IssuedAreTheGrants(es);
    forall h: nat | h < |After(es).handles|
      ensures Sound(After(es).issued, h, After(es).handles[h])
    {
      AboutStream(After(es), h);
    }
  }

  /** What stop and the adapter unregister can only be the stream's own entry. */
  lemma StopRemovesOnlyItsOwn(es: seq<Event>, h: nat, k: Id)
    requires Legal(es) && h < |After(es).handles| && k in After(es).streams
    requires var x := After(es).handles[h];
             (x.pc.Stopping? && k in x.pc.ids) || (x.pipe.adapter.Leaving? && k == x.pipe.adapter.id)
    ensures After(es).streams[k] == h
  {
    RunKeepsInv(es);
    var s := After(es);
    AboutStream(s, h);
    assert k in KnownIds(s.handles[h]);
    OwnedKeyIsHome(s, k, h);
  }

  /** The data of the event, if the connection reads it for stream `h` while the stream's adapter is
      there to take it. */
  function FrameFor(s: State, e: Event, h: nat): seq<Data> {
    match e
    case DataFrame(d) =>
      if d.id in s.streams && s.streams[d.id] == h && h < |s.handles| && !s.handles[h].pipe.adapter.Gone? then [d]
      else []
    case _ => []
  }

  /** The data frames that a run reads for stream `h`. */
  function FramesFor(es: seq<Event>, h: nat): seq<Data>
    requires Legal(es)
    decreases |es|
  {
    if es == [] then [] else FramesFor(es[..|es| - 1], h) + FrameFor(After(es[..|es| - 1]), es[|es| - 1], h)
  }

  /** How often a run calls `recv` on stream `h` and gets a quote. */
  function Receipts(es: seq<Event>, h: nat): nat
    decreases |es|
  {
    if es == [] then 0 else Receipts(es[..|es| - 1], h) + if es[|es| - 1] == Receive(h) then 1 else 0
  }

  /** What an event does to the ends of a stream's pipeline. */
  predicate PipeMoves(s: State, e: Event, h: nat, p: Pipe, q: Pipe) {
    && q.dispatched == p.dispatched + FrameFor(s, e, h)
    && |q.received| == |p.received| + (if e == Receive(h) then 1 else 0)
    && q.open == (p.open && e != DropReceiver(h))
  }

  lemma ChannelsMovePipe(s: State, e: Event, h: nat)
    requires Enabled(s, e) && h < |s.handles| && IsChannels(e)
    ensures h < |Next(s, e).handles| && PipeMoves(s, e, h, s.handles[h].pipe, Next(s, e).handles[h].pipe)
  {
    if e.PumpStep? {
      PumpChangesNoHistory(s.handles[e.h].pipe);
    }
    assert s.handles[h].pipe.dispatched + [] == s.handles[h].pipe.dispatched;
  }

  lemma UsersLeavePipe(s: State, e: Event, h: nat)
    requires Enabled(s, e) && h < |s.handles| && IsUsers(e) && !e.HandleStep?
    ensures h < |Next(s, e).handles| && Next(s, e).handles[h].pipe == s.handles[h].pipe
  {
  }

  lemma HandleLeavesPipe(s: State, g: nat, h: nat)
    requires g < |s.handles| && HandleReady(s, g) && h < |s.handles|
    ensures h < |StepHandle(s, g).handles| && StepHandle(s, g).handles[h].pipe == s.handles[h].pipe
  {
  }

  lemma LoopMovesPipe(s: State, e: Event, h: nat)
    requires Enabled(s, e) && h < |s.handles| && !IsUsers(e) && !IsChannels(e) && !e.SectionStep?
    ensures h < |Next(s, e).handles| && PipeMoves(s, e, h, s.handles[h].pipe, Next(s, e).handles[h].pipe)
  {
    assert s.handles[h].pipe.dispatched + [] == s.handles[h].pipe.dispatched;
  }

  lemma PipeHistory(s: State, e: Event, h: nat)
    requires Enabled(s, e) && h < |s.handles|
    ensures h < |Next(s, e).handles| && PipeMoves(s, e, h, s.handles[h].pipe, Next(s, e).handles[h].pipe)
  {
    hide Enabled, Next, StepSection, StepHandle, Treated;
    assert s.handles[h].pipe.dispatched + [] == s.handles[h].pipe.dispatched;
    if e.SectionStep? {
      SectionStepIs(s);
      SectionTreats(s, h);
      TreatedPipe(s.section, s.handles[h]);
    } else if e.HandleStep? {
      HandleStepIs(s, e.h);
      HandleLeavesPipe(s, e.h, h);
    } else if IsUsers(e) {
      UsersLeavePipe(s, e, h);
    } else if IsChannels(e) {
      ChannelsMovePipe(s, e, h);
    } else {
      LoopMovesPipe(s, e, h);
    }
  }

  lemma TreatedPipe(sec: Section, x: Handle)
    ensures Treated(sec, x).pipe == x.pipe
  {
  }

  lemma NewPipesAreEmpty(s: State, e: Event, h: nat)
    requires Enabled(s, e) && |s.handles| <= h < |Next(s, e).handles|
    ensures Next(s, e).handles[h].pipe == NewPipe() && FrameFor(s, e, h) == [] && e != Receive(h)
  {
  }

  /** What was dispatched to a stream is exactly the data that the run read for it, in order, and it
      received as many quotes as it called for. */
  lemma {:induction false} DispatchedAreTheFrames(es: seq<Event>, h: nat)
    requires Legal(es)
    ensures if h < |After(es).handles| then
              && After(es).handles[h].pipe.dispatched == FramesFor(es, h)
              && |After(es).handles[h].pipe.received| == Receipts(es, h)
            else FramesFor(es, h) == [] && Receipts(es, h) == 0
    decreases |es|
  {
    if es != [] {
      var before, e := es[..|es| - 1], es[|es| - 1];
      DispatchedAreTheFrames(before, h);
      hide Next, Enabled, FrameFor;
      if h < |After(before).handles| {
        PipeHistory(After(before), e, h);
      } else if h < |After(es).handles| {
        NewPipesAreEmpty(After(before), e, h);
      } else {
        NobodyHasNoFrames(After(before), e, h);
      }
    }
  }

  lemma NobodyHasNoFrames(s: State, e: Event, h: nat)
    requires Enabled(s, e) && h >= |s.handles|
    ensures FrameFor(s, e, h) == [] && e != Receive(h)
  {
  }

  /** `recv` returns the quotes among the data that the connection read for the stream, in order and
      without repeats, across all remaps: as many of them as it was called for. While the handle lives
      the others are on their way, and none is lost. */
  lemma DeliveryIsFifo(es: seq<Event>, h: nat)
    requires Legal(es) && h < |After(es).handles|
    ensures var p, quotes := After(es).handles[h].pipe, QuotesOf(FramesFor(es, h));
            && p.received <= quotes && |p.received| == Receipts(es, h)
            && (p.open ==> p.received + p.quotes + InHand(p.adapter) + QuotesOf(p.raw) == quotes)
  {
    RunKeepsInv(es);
    AboutPipe(After(es), h);
    DispatchedAreTheFrames(es, h);
  }

  // ----- stop against remap -----

  /** Once the flag is set, the stream is re-keyed at most once more: `lateRemaps` counts the stores
      of a new id made after that. */
  lemma RekeyedAtMostOnceAfterStop(es: seq<Event>, h: nat)
    requires Legal(es) && h < |After(es).handles|
    ensures After(es).handles[h].lateRemaps <= 1
    ensures After(es).section.RemapStore? && After(es).section.h == h ==> After(es).handles[h].lateRemaps == 0
  {
    RunKeepsInv(es);
    AboutStream(After(es), h);
  }

  /** The section is about to store a new id for stream `h`. */
  predicate Storing(s: State, e: Event, h: nat) {
    e.SectionStep? && s.section.RemapStore? && s.section.h == h
  }

  /** What a section's step makes of the stream it is about. */
  function Treated(sec: Section, x: Handle): Handle {
    match sec
    case EndFlag(_, _, _) => x.(stopped := true)
    case EndCas(_, _, _) => x.(released := true)
    case RemapCheck(_, _) => if x.stopped || x.pipe.adapter.Gone? then x.(takenOut := true) else x
    case RemapStore(newId, _) =>
      x.(eff := newId,
         lateRemaps := x.lateRemaps + (if x.stopped then 1 else 0),
         overtaken := x.overtaken || Computed(x))
    case _ => x
  }

  predicate IsAbout(sec: Section, h: nat) {
    !sec.Free? && !sec.Draining? && sec.h == h
  }

  lemma StoreTreats(s: State, h: nat)
    requires SectionReady(s) && s.section.RemapStore? && h < |s.handles|
    ensures h < |StepSection(s).handles|
    ensures StepSection(s).handles[h]
         == if s.section.h == h then Treated(s.section, s.handles[h]) else s.handles[h]
  {
  }

  lemma OthersTreat(s: State, h: nat)
    requires SectionReady(s) && !s.section.RemapStore? && h < |s.handles|
    ensures h < |StepSection(s).handles|
    ensures StepSection(s).handles[h]
         == if IsAbout(s.section, h) then Treated(s.section, s.handles[h]) else s.handles[h]
  {
  }

  lemma SectionTreats(s: State, h: nat)
    requires SectionReady(s) && h < |s.handles|
    ensures h < |StepSection(s).handles|
    ensures StepSection(s).handles[h]
         == if IsAbout(s.section, h) then Treated(s.section, s.handles[h]) else s.handles[h]
  {
    hide StepSection;
    if s.section.RemapStore? {
      StoreTreats(s, h);
    } else {
      OthersTreat(s, h);
    }
  }

  lemma SectionRekeys(s: State, h: nat)
    requires SectionReady(s) && h < |s.handles|
    ensures h < |StepSection(s).handles|
    ensures var x, x', now := s.handles[h], StepSection(s).handles[h], Storing(s, SectionStep, h);
            && x'.eff == (if now then s.section.newId else x.eff)
            && x'.lateRemaps == x.lateRemaps + (if now && x.stopped then 1 else 0)
            && x'.overtaken == (x.overtaken || (now && Computed(x)))
            && (x.stopped ==> x'.stopped)
  {
    hide StepSection;
    SectionTreats(s, h);
  }

  /** Events of the user's side of a stream, and of its channels. */
  predicate IsUsers(e: Event) {
    e.Register? || e.Stop? || e.DropBare? || e.HandleStep?
  }

  predicate IsChannels(e: Event) {
    e.DropReceiver? || e.Receive? || e.PumpStep? || e.LoadForLeaving? || e.LeaveMap? || e.InputEnds?
  }

  /** Events that leave the ids and the stop path of stream `h` alone. */
  predicate KeepsIds(s: State, s': State, h: nat)
    requires h < |s.handles|
  {
    && h < |s'.handles|
    && s'.handles[h].eff == s.handles[h].eff
    && s'.handles[h].lateRemaps == s.handles[h].lateRemaps
    && s'.handles[h].overtaken == s.handles[h].overtaken
    && (s.handles[h].stopped ==> s'.handles[h].stopped)
  }

  lemma UsersKeepIds(s: State, e: Event, h: nat)
    requires Enabled(s, e) && h < |s.handles| && IsUsers(e) && !e.HandleStep?
    ensures KeepsIds(s, Next(s, e), h)
  {
  }

  lemma HandleStepIs(s: State, h: nat)
    requires Enabled(s, HandleStep(h))
    ensures h < |s.handles| && HandleReady(s, h) && Next(s, HandleStep(h)) == StepHandle(s, h)
  {
  }

  lemma HandleKeepsIds(s: State, g: nat, h: nat)
    requires g < |s.handles| && HandleReady(s, g) && h < |s.handles|
    ensures KeepsIds(s, StepHandle(s, g), h)
  {
  }

  lemma ChannelsKeepIds(s: State, e: Event, h: nat)
    requires Enabled(s, e) && h < |s.handles| && IsChannels(e)
    ensures KeepsIds(s, Next(s, e), h)
  {
  }

  lemma LoopKeepsIds(s: State, e: Event, h: nat)
    requires Enabled(s, e) && h < |s.handles| && !IsUsers(e) && !IsChannels(e) && !e.SectionStep?
    ensures KeepsIds(s, Next(s, e), h)
  {
  }

  lemma SectionStepIs(s: State)
    requires Enabled(s, SectionStep)
    ensures SectionReady(s) && Next(s, SectionStep) == StepSection(s)
  {
  }

  /** A stream's effective id changes, and a stop is overtaken, only when a section stores a new
      id; a flag once set stays set. */
  lemma RekeyedOnlyByStore(s: State, e: Event, h: nat)
    requires Enabled(s, e) && h < |s.handles|
    ensures h < |Next(s, e).handles|
    ensures var x, x', now := s.handles[h], Next(s, e).handles[h], Storing(s, e, h);
            && x'.eff == (if now then s.section.newId else x.eff)
            && x'.lateRemaps == x.lateRemaps + (if now && x.stopped then 1 else 0)
            && x'.overtaken == (x.overtaken || (now && Computed(x)))
            && (x.stopped ==> x'.stopped)
  {
    hide Next, Enabled;
    if e.SectionStep? {
      SectionStepIs(s);
      SectionRekeys(s, h);
    } else if e.HandleStep? {
      HandleStepIs(s, e.h);
      HandleKeepsIds(s, e.h, h);
    } else if IsUsers(e) {
      UsersKeepIds(s, e, h);
    } else if IsChannels(e) {
      ChannelsKeepIds(s, e, h);
    } else {
      LoopKeepsIds(s, e, h);
    }
  }

  /** A stopped stream is not requested again: its turn removes it, and a remap that reads the
      flag set ends it instead of storing the new id. */
  lemma StoppedIsNotResumed(s: State, e: Event, h: nat)
    requires Enabled(s, e) && h < |s.handles| && s.handles[h].stopped
    ensures Next(s, e).loop.Await? && Next(s, e).loop.h == h ==> Next(s, e).loop == s.loop
    ensures Next(s, e).section.RemapStore? && Next(s, e).section.h == h ==> Next(s, e).section == s.section
  {
  }

  /** When stop has completed and the lock is free, the map still holds the stream exactly when a
      remap that had read the flag clear stored its id after stop had loaded the ids, and that
      entry has not been removed since. */
  lemma StopLeavesEntryIff(es: seq<Event>, h: nat)
    requires Legal(es) && h < |After(es).handles| && After(es).section.Free?
    requires After(es).handles[h].pc.Closed? && !After(es).handles[h].bare
    ensures AtHome(After(es), h) <==> After(es).handles[h].overtaken && !After(es).handles[h].takenOut
  {
    RunKeepsInv(es);
    AboutStream(After(es), h);
  }

  lemma NewcomersRegister(s: State, e: Event, h: nat)
    requires Enabled(s, e) && |s.handles| <= h < |Next(s, e).handles|
    ensures Next(s, e).handles[h].pc.Registering?
  {
  }

  lemma Begin()
    ensures Legal([]) && After([]) == Init()
  {
  }

  lemma Extend(es: seq<Event>, e: Event)
    requires Legal(es) && Enabled(After(es), e)
    ensures Legal(es + [e]) && After(es + [e]) == Next(After(es), e)
  {
    hide Next, Enabled;
    assert (es + [e])[..|es|] == es;
  }

  /** The race in a concrete run: stop sets its flag and loads the ids while a remap is between
      its check and its store, unregisters the old id, and the entry stays under the new one. */
  lemma StopCanBeOvertaken() returns (es: seq<Event>)
    ensures Legal(es)
    ensures var s := After(es);
            && s.section.Free? && |s.handles| == 1
            && s.handles[0].pc.Closed? && s.handles[0].released && !s.handles[0].bare
            && s.streams == map[2 := 0]
  {
    es := StopDuringRemap();
    hide Legal, After;
    Extend(es, SectionStep); es := es + [SectionStep];
    Extend(es, SectionStep); es := es + [SectionStep];
    Extend(es, HandleStep(0)); es := es + [HandleStep(0)];
    assert After(es).streams == map[2 := 0];
    Extend(es, HandleStep(0)); es := es + [HandleStep(0)];
  }

  /** A stream is registered, and the connection is lost. */
  lemma ConnectionIsLost() returns (es: seq<Event>)
    ensures Legal(es)
    ensures After(es) == State(map[1 := 0], map[1 := 0], [NewHandle(1).(pc := Live)], Down, Free)
  {
    hide Legal, After, StepSection, RemoveAndEnd, StepHandle, TakeForRemap, Without;
    es := [];
    Begin();
    Extend(es, Accept(1)); es := es + [Accept(1)];
    Extend(es, Register(0)); es := es + [Register(0)];
    Extend(es, Disconnect); es := es + [Disconnect];
  }

  /** The connection comes back, and the loop awaits the reply to the stream's resume request. */
  lemma ResumeIsAwaited() returns (es: seq<Event>)
    ensures Legal(es)
    ensures After(es) == State(map[1 := 0], map[1 := 0], [NewHandle(1).(pc := Live)], Await(1, 0, []), Free)
  {
    hide Legal, After, StepSection, RemoveAndEnd, StepHandle, TakeForRemap, Without;
    es := ConnectionIsLost();
    Extend(es, Reconnect([1])); es := es + [Reconnect([1])];
    assert After(es).loop == Turn([(1, 0)]);
    Extend(es, TurnStep); es := es + [TurnStep];
    assert After(es).loop == Await(1, 0, []);
  }

  /** The resume request is granted. */
  lemma ResumeIsGranted() returns (es: seq<Event>)
    ensures Legal(es)
    ensures After(es) == State(map[1 := 0], map[1 := 0, 2 := 0], [NewHandle(1).(pc := Live)],
                               Granted(2, 1, 0, []), Free)
  {
    hide Legal, After, StepSection, RemoveAndEnd, StepHandle, TakeForRemap, Without;
    es := ResumeIsAwaited();
    assert After(es).issued[2 := 0] == map[1 := 0, 2 := 0];
    Extend(es, ResumeGranted(2)); es := es + [ResumeGranted(2)];
  }

  /** The remap reads the flag clear; then stop sets it and loads the old id twice. */
  lemma StopDuringRemap() returns (es: seq<Event>)
    ensures Legal(es)
    ensures After(es) == State(map[], map[1 := 0, 2 := 0], [NewHandle(1).(pc := Stopping([1]), stopped := true)],
                               Turn([]), RemapStore(2, 0))
  {
    hide Legal, After;
    es := ResumeIsGranted();
    Extend(es, LockRemap); es := es + [LockRemap];
    assert After(es).streams == map[];
    Extend(es, SectionStep); es := es + [SectionStep];
    Extend(es, Stop(0)); es := es + [Stop(0)];
    assert After(es).handles == [NewHandle(1).(pc := FirstLoad, stopped := true)];
    Extend(es, HandleStep(0)); es := es + [HandleStep(0)];
    assert StopIds(1, 1, 1) == [1];
    Extend(es, HandleStep(0)); es := es + [HandleStep(0)];
  }
}
