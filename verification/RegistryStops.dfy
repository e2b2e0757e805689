/** When a completed stop leaves its stream in the map: what decides it, and who may still take the
    entry out. */
module RegistryStops {
  import opened Delivery
  import opened Registry
  import opened RegistryInv
  import opened RegistrySteps
  import opened RegistryTheorems

  // ----- what decides whether a stop is overtaken -----

  /** A remap of stream `h` has read the flag clear and has not stored the new id yet. */
  predicate InWindow(s: State, h: nat) {
    s.section.RemapStore? && s.section.h == h
  }

  /** Stop, or a drop inside a runtime, set the flag of stream `h` in that window. */
  predicate StoppedInWindow(es: seq<Event>, h: nat)
    requires Legal(es)
    decreases |es|
  {
    es != []
    && var before := es[..|es| - 1];
       StoppedInWindow(before, h) || (es[|es| - 1] == Stop(h) && InWindow(After(before), h))
  }

  /** The stop path of stream `h` has not seen the flag set, or will unregister nothing. */
  predicate IsPassive(s: State, h: nat)
    requires h < |s.handles|
  {
    !s.handles[h].stopped || s.handles[h].bare
  }

  lemma UsersKeepWindow(s: State, e: Event, h: nat)
    requires Enabled(s, e) && h < |s.handles| && IsUsers(e) && !(e == Stop(h) && InWindow(s, h))
    requires InWindow(s, h) ==> IsPassive(s, h)
    ensures h < |Next(s, e).handles| && (InWindow(Next(s, e), h) ==> IsPassive(Next(s, e), h))
  {
  }

  lemma ChannelsKeepWindow(s: State, e: Event, h: nat)
    requires Enabled(s, e) && h < |s.handles| && IsChannels(e) && (InWindow(s, h) ==> IsPassive(s, h))
    ensures h < |Next(s, e).handles| && (InWindow(Next(s, e), h) ==> IsPassive(Next(s, e), h))
  {
  }

  lemma LoopKeepsWindow(s: State, e: Event, h: nat)
    requires Enabled(s, e) && h < |s.handles| && !IsUsers(e) && !IsChannels(e) && !e.SectionStep?
    requires InWindow(s, h) ==> IsPassive(s, h)
    ensures h < |Next(s, e).handles| && (InWindow(Next(s, e), h) ==> IsPassive(Next(s, e), h))
  {
  }

  lemma SectionOpensWindow(s: State, h: nat)
    requires SectionReady(s) && h < |s.handles|
    ensures h < |StepSection(s).handles| && (InWindow(StepSection(s), h) ==> !StepSection(s).handles[h].stopped)
  {
  }

  /** A window opens only for a stream whose flag is clear. */
  lemma KeepsWindow(s: State, e: Event, h: nat)
    requires Enabled(s, e) && h < |s.handles| && !(e == Stop(h) && InWindow(s, h))
    requires InWindow(s, h) ==> IsPassive(s, h)
    ensures h < |Next(s, e).handles| && (InWindow(Next(s, e), h) ==> IsPassive(Next(s, e), h))
  {
    hide Enabled, Next;
    if e.SectionStep? {
      SectionStepIs(s);
      SectionOpensWindow(s, h);
    } else if IsUsers(e) {
      UsersKeepWindow(s, e, h);
    } else if IsChannels(e) {
      ChannelsKeepWindow(s, e, h);
    } else {
      LoopKeepsWindow(s, e, h);
    }
  }

  /** Stream `h`, if it exists, was not overtaken, and nothing is about to overtake it. */
  predicate Clean(s: State, h: nat) {
    h < |s.handles| ==> !s.handles[h].overtaken && (InWindow(s, h) ==> IsPassive(s, h))
  }

  lemma ComputedIsStopped(s: State, h: nat)
    requires Inv(s) && h < |s.handles|
    ensures Computed(s.handles[h]) || s.handles[h].overtaken ==> s.handles[h].stopped
    ensures s.handles[h].stopped ==> !s.handles[h].pc.Registering?
  {
    AboutStream(s, h);
  }

  lemma StepKeepsClean(s: State, e: Event, h: nat)
    requires Inv(s) && Enabled(s, e) && Clean(s, h) && !(e == Stop(h) && InWindow(s, h))
    ensures Clean(Next(s, e), h)
  {
    hide Inv, Enabled, Next;
    var s' := Next(s, e);
    if h < |s.handles| {
      RekeyedOnlyByStore(s, e, h);
      ComputedIsStopped(s, h);
      KeepsWindow(s, e, h);
    } else if h < |s'.handles| {
      KeepsInv(s, e);
      ComputedIsStopped(s', h);
      NewcomersRegister(s, e, h);
    }
  }

  lemma {:induction false} OutsideWindowIsClean(es: seq<Event>, h: nat)
    requires Legal(es) && !StoppedInWindow(es, h)
    ensures Clean(After(es), h)
    decreases |es|
  {
    if es != [] {
      var before := es[..|es| - 1];
      RunKeepsInv(before);
      OutsideWindowIsClean(before, h);
      StepKeepsClean(After(before), es[|es| - 1], h);
    }
  }

  /** A stop that did not set its flag while a remap of its own stream was between reading the flag
      and storing the new id leaves no entry, whatever else happens. */
  lemma StopOutsideWindowIsClean(es: seq<Event>, h: nat)
    requires Legal(es) && h < |After(es).handles| && After(es).section.Free?
    requires After(es).handles[h].pc.Closed? && !After(es).handles[h].bare && !StoppedInWindow(es, h)
    ensures !AtHome(After(es), h)
  {
    OutsideWindowIsClean(es, h);
    StopLeavesEntryIff(es, h);
  }

  /** Once a remap of stream `h` has read its flag, nothing happens before it stores the new id. */
  predicate Uninterrupted(es: seq<Event>, h: nat)
    requires Legal(es)
    decreases |es|
  {
    es == []
    || (Uninterrupted(es[..|es| - 1], h) && (InWindow(After(es[..|es| - 1]), h) ==> es[|es| - 1].SectionStep?))
  }

  lemma {:induction false} UninterruptedIsOutside(es: seq<Event>, h: nat)
    requires Legal(es) && Uninterrupted(es, h)
    ensures !StoppedInWindow(es, h)
    decreases |es|
  {
    if es != [] {
      UninterruptedIsOutside(es[..|es| - 1], h);
    }
  }

  /** Were the locked section of the stream's remaps one atomic step, a completed stop would leave no
      entry. */
  lemma UninterruptedStopIsClean(es: seq<Event>, h: nat)
    requires Legal(es) && Uninterrupted(es, h) && h < |After(es).handles| && After(es).section.Free?
    requires After(es).handles[h].pc.Closed? && !After(es).handles[h].bare
    ensures !AtHome(After(es), h)
  {
    UninterruptedIsOutside(es, h);
    StopOutsideWindowIsClean(es, h);
  }

  // ----- a stop happens once -----

  predicate BeforeStop(x: Handle) {
    x.pc.Registering? || x.pc.Live?
  }

  lemma UsersDoNotRevive(s: State, e: Event, h: nat)
    requires Enabled(s, e) && h < |s.handles| && !BeforeStop(s.handles[h])
    requires (IsUsers(e) && !e.HandleStep?) || IsChannels(e)
    ensures h < |Next(s, e).handles| && !BeforeStop(Next(s, e).handles[h])
  {
  }

  lemma HandleDoesNotRevive(s: State, g: nat, h: nat)
    requires g < |s.handles| && HandleReady(s, g) && h < |s.handles| && !BeforeStop(s.handles[h])
    ensures h < |StepHandle(s, g).handles| && !BeforeStop(StepHandle(s, g).handles[h])
  {
  }

  lemma LoopDoesNotRevive(s: State, e: Event, h: nat)
    requires Enabled(s, e) && h < |s.handles| && !BeforeStop(s.handles[h])
    requires !IsUsers(e) && !IsChannels(e) && !e.SectionStep?
    ensures h < |Next(s, e).handles| && !BeforeStop(Next(s, e).handles[h])
  {
  }

  lemma StaysStopped(s: State, e: Event, h: nat)
    requires Enabled(s, e) && h < |s.handles| && !BeforeStop(s.handles[h])
    ensures h < |Next(s, e).handles| && !BeforeStop(Next(s, e).handles[h])
  {
    hide Enabled, Next, StepSection;
    if e.SectionStep? {
      SectionStepIs(s);
      SectionTreats(s, h);
    } else if e.HandleStep? {
      HandleStepIs(s, e.h);
      HandleDoesNotRevive(s, e.h, h);
    } else if IsUsers(e) || IsChannels(e) {
      UsersDoNotRevive(s, e, h);
    } else {
      LoopDoesNotRevive(s, e, h);
    }
  }

  lemma StopNeedsLive(s: State, h: nat)
    requires Enabled(s, Stop(h))
    ensures h < |s.handles| && s.handles[h].pc.Live? && !BeforeStop(Next(s, Stop(h)).handles[h])
  {
  }

  /** Whether a stop is in the window is decided when it sets the flag. */
  lemma {:induction false} WindowIsDecidedAtStop(es: seq<Event>, more: seq<Event>, h: nat)
    requires Legal(es + [Stop(h)] + more)
    ensures Legal(es) && Legal(es + [Stop(h)])
    ensures StoppedInWindow(es + [Stop(h)] + more, h) <==> InWindow(After(es), h)
    ensures h < |After(es + [Stop(h)] + more).handles| && !BeforeStop(After(es + [Stop(h)] + more).handles[h])
    decreases |more|
  {
    var all := es + [Stop(h)] + more;
    if more == [] {
      assert all == es + [Stop(h)] && all[..|all| - 1] == es;
      StopNeedsLive(After(es), h);
      LiveWasNotStopped(es, h);
    } else {
      var rest := more[..|more| - 1];
      assert all[..|all| - 1] == es + [Stop(h)] + rest;
      WindowIsDecidedAtStop(es, rest, h);
      StaysStopped(After(es + [Stop(h)] + rest), all[|all| - 1], h);
      if all[|all| - 1] == Stop(h) {
        StopNeedsLive(After(es + [Stop(h)] + rest), h);
      }
    }
  }

  /** A stream that is still live has not been stopped. */
  lemma {:induction false} LiveWasNotStopped(es: seq<Event>, h: nat)
    requires Legal(es) && (h < |After(es).handles| ==> BeforeStop(After(es).handles[h]))
    ensures !StoppedInWindow(es, h)
    decreases |es|
  {
    if es != [] {
      var before, e := es[..|es| - 1], es[|es| - 1];
      if h < |After(before).handles| && !BeforeStop(After(before).handles[h]) {
        StaysStopped(After(before), e, h);
      }
      if e == Stop(h) {
        StopNeedsLive(After(before), h);
      }
      LiveWasNotStopped(before, h);
    }
  }

  // ----- who takes entries out -----

  /** The event takes the entry of stream `h` out of the map: its end at the server, a drain, a
      failed or stopped resume, or the adapter. */
  predicate TakesOut(s: State, e: Event, h: nat)
    requires h < |s.handles|
  {
    match e
    case EndFrame(id) => id in s.streams && s.streams[id] == h
    case DrainOne(id) => id in s.streams && s.streams[id] == h
    case LockRemove => s.loop.Removing? && s.loop.oldId in s.streams && s.streams[s.loop.oldId] == h
    case SectionStep =>
      s.section.RemapCheck? && s.section.h == h && (s.handles[h].stopped || s.handles[h].pipe.adapter.Gone?)
    case LeaveMap(g) => g == h && s.handles[h].pipe.adapter == Leaving(s.handles[h].eff)
    case _ => false
  }

  lemma UsersTakeNothingOut(s: State, e: Event, h: nat)
    requires Enabled(s, e) && h < |s.handles| && ((IsUsers(e) && !e.HandleStep?) || IsChannels(e))
    ensures h < |Next(s, e).handles|
    ensures Next(s, e).handles[h].takenOut == (s.handles[h].takenOut || TakesOut(s, e, h))
  {
  }

  lemma HandleTakesNothingOut(s: State, g: nat, h: nat)
    requires g < |s.handles| && HandleReady(s, g) && h < |s.handles|
    ensures h < |StepHandle(s, g).handles| && StepHandle(s, g).handles[h].takenOut == s.handles[h].takenOut
  {
  }

  lemma LoopTakesOut(s: State, e: Event, h: nat)
    requires Enabled(s, e) && h < |s.handles| && !IsUsers(e) && !IsChannels(e) && !e.SectionStep?
    ensures h < |Next(s, e).handles|
    ensures Next(s, e).handles[h].takenOut == (s.handles[h].takenOut || TakesOut(s, e, h))
  {
  }

  /** The history bit `takenOut` records exactly these events. */
  lemma TakenOutByRemoval(s: State, e: Event, h: nat)
    requires Enabled(s, e) && h < |s.handles|
    ensures h < |Next(s, e).handles|
    ensures Next(s, e).handles[h].takenOut == (s.handles[h].takenOut || TakesOut(s, e, h))
  {
    hide Enabled, Next, StepSection;
    if e.SectionStep? {
      SectionStepIs(s);
      SectionTreats(s, h);
    } else if e.HandleStep? {
      HandleStepIs(s, e.h);
      HandleTakesNothingOut(s, e.h, h);
    } else if IsUsers(e) || IsChannels(e) {
      UsersTakeNothingOut(s, e, h);
    } else {
      LoopTakesOut(s, e, h);
    }
  }

  // ----- every stop in the window can be overtaken -----

  /** The rest of a stop path that has been overtaken, undisturbed. */
  lemma {:induction false} OvertakenStopEnds(es: seq<Event>, h: nat) returns (more: seq<Event>)
    requires Legal(es) && h < |After(es).handles| && After(es).section.Free? && AtHome(After(es), h)
    requires var x := After(es).handles[h];
             (x.pc.Releasing? || (x.pc.Stopping? && x.pc.ids != [])) && !x.bare && x.eff !in Rest(x)
    ensures Legal(es + more) && h < |After(es + more).handles|
    ensures After(es + more).section.Free? && AtHome(After(es + more), h)
    ensures After(es + more).handles[h].pc.Closed? && !After(es + more).handles[h].bare
    decreases |Rest(After(es).handles[h])|
  {
    hide Legal, After;
    Extend(es, HandleStep(h));
    var next := es + [HandleStep(h)];
    if After(es).handles[h].pc.Releasing? {
      more := [HandleStep(h)];
    } else {
      var rest := OvertakenStopEnds(next, h);
      more := [HandleStep(h)] + rest;
      assert next + rest == es + more;
    }
  }

  /** An undisturbed stop loads its ids and changes nothing else. */
  lemma StopLoadsIds(es: seq<Event>, h: nat) returns (more: seq<Event>)
    requires Legal(es) && h < |After(es).handles| && After(es).handles[h].pc.Live?
    ensures Legal(es + [Stop(h)] + more)
    ensures var s, x := After(es), After(es).handles[h];
            After(es + [Stop(h)] + more)
            == SetHandle(s, h, x.(stopped := true, pc := Stopping(StopIds(x.eff, x.eff, x.orig))))
  {
    hide Legal, After, StepSection, StepTurn, TakeForRemap, RemoveAndEnd, StopIds;
    Extend(es, Stop(h));
    var es1 := es + [Stop(h)];
    Extend(es1, HandleStep(h));
    var es2 := es1 + [HandleStep(h)];
    Extend(es2, HandleStep(h));
    more := [HandleStep(h), HandleStep(h)];
    assert es1 + more == es2 + [HandleStep(h)];
  }

  lemma NewIdIsUnknown(s: State, h: nat)
    requires Inv(s) && h < |s.handles| && s.handles[h].pc.Live? && InWindow(s, h)
    ensures var x := s.handles[h];
            !x.bare && s.section.newId !in StopIds(x.eff, x.eff, x.orig) && StopIds(x.eff, x.eff, x.orig) != []
  {
    AboutStream(s, h);
    assert s.handles[h].eff in KnownIds(s.handles[h]) && s.handles[h].orig in KnownIds(s.handles[h]);
  }

  /** Stop loads both ids before the remap stores the new one. */
  lemma StopIsOvertaken(es: seq<Event>, h: nat) returns (more: seq<Event>)
    requires Legal(es) && h < |After(es).handles| && After(es).handles[h].pc.Live? && InWindow(After(es), h)
    ensures Legal(es + [Stop(h)] + more) && h < |After(es + [Stop(h)] + more).handles|
    ensures var s := After(es + [Stop(h)] + more);
            var x := s.handles[h];
            && s.section.RemapInsert? && s.section.h == h && x.eff == s.section.newId
            && x.pc.Stopping? && x.pc.ids != [] && !x.bare && x.eff !in Rest(x)
  {
    RunKeepsInv(es);
    NewIdIsUnknown(After(es), h);
    hide Legal, After, Inv, StopIds, StepTurn, TakeForRemap, RemoveAndEnd, StepHandle;
    var loads := StopLoadsIds(es, h);
    var loaded := es + [Stop(h)] + loads;
    Extend(loaded, SectionStep);
    more := loads + [SectionStep];
    assert es + [Stop(h)] + more == loaded + [SectionStep];
  }

  /** Conversely, from every state in which a stop begins in that window, the run can go on so that
      the stop completes and leaves its stream in the map. */
  lemma StopInWindowCanLeak(es: seq<Event>, h: nat) returns (more: seq<Event>)
    requires Legal(es) && h < |After(es).handles| && After(es).handles[h].pc.Live? && InWindow(After(es), h)
    ensures Legal(es + [Stop(h)] + more)
    ensures var s := After(es + [Stop(h)] + more);
            && h < |s.handles| && s.handles[h].pc.Closed? && !s.handles[h].bare
            && s.section.Free? && AtHome(s, h)
  {
    hide Legal, After;
    var first := StopIsOvertaken(es, h);
    var overtaken := es + [Stop(h)] + first;
    Extend(overtaken, SectionStep);
    var last := OvertakenStopEnds(overtaken + [SectionStep], h);
    more := first + [SectionStep] + last;
    assert es + [Stop(h)] + more == overtaken + [SectionStep] + last;
  }

  /** After the run, stop has completed, the lock is free, and the map still holds the stream. */
  predicate LeavesEntry(es: seq<Event>, h: nat) {
    && Legal(es) && h < |After(es).handles| && After(es).section.Free?
    && After(es).handles[h].pc.Closed? && !After(es).handles[h].bare && AtHome(After(es), h)
  }

  /** A stop that is called now may leave its entry behind if and only if a remap of its stream has
      just read the flag and not yet stored the new id. */
  lemma StopCanLeakIff(es: seq<Event>, h: nat)
    requires Legal(es) && Enabled(After(es), Stop(h))
    ensures (exists more: seq<Event> :: LeavesEntry(es + [Stop(h)] + more, h)) <==> InWindow(After(es), h)
  {
    if InWindow(After(es), h) {
      var more := StopInWindowCanLeak(es, h);
      assert LeavesEntry(es + [Stop(h)] + more, h);
    } else if exists more: seq<Event> :: LeavesEntry(es + [Stop(h)] + more, h) {
      var more: seq<Event> :| LeavesEntry(es + [Stop(h)] + more, h);
      WindowIsDecidedAtStop(es, more, h);
      StopOutsideWindowIsClean(es + [Stop(h)] + more, h);
      assert false;
    }
  }
}
