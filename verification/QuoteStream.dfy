/** `QuoteStream::stop` and `Drop` in the form of their source, over the shared map and flags,
    with arbitrary events of all other tasks in between. Every object is at all times in a state
    of the machine of module `Registry`. */
module QuoteStreamClass {
  import opened Base
  import opened Registry
  import Inv = RegistryInv
  import Steps = RegistrySteps
  import Theorems = RegistryTheorems
  import Stops = RegistryStops

  /** Whether the event is performed by the user's side of stream `h`. */
  predicate IsBy(e: Event, h: nat) {
    (e.Register? || e.Stop? || e.DropBare? || e.HandleStep?) && e.h == h
  }

  /** What other tasks leave alone in a stream. */
  predicate SameSide(x: Handle, y: Handle) {
    y.pc == x.pc && y.orig == x.orig && y.bare == x.bare
    && (x.stopped ==> y.stopped) && (x.released ==> y.released)
  }

  lemma SectionKeepsSide(s: State, h: nat)
    requires SectionReady(s) && h < |s.handles|
    ensures h < |StepSection(s).handles| && SameSide(s.handles[h], StepSection(s).handles[h])
  {
    hide StepSection;
    Theorems.SectionTreats(s, h);
  }

  lemma UsersKeepSide(s: State, e: Event, h: nat)
    requires Enabled(s, e) && h < |s.handles| && !IsBy(e, h)
    requires Theorems.IsUsers(e) || Theorems.IsChannels(e)
    ensures h < |Next(s, e).handles| && SameSide(s.handles[h], Next(s, e).handles[h])
  {
  }

  lemma LoopKeepsSide(s: State, e: Event, h: nat)
    requires Enabled(s, e) && h < |s.handles|
    requires !Theorems.IsUsers(e) && !Theorems.IsChannels(e) && !e.SectionStep?
    ensures h < |Next(s, e).handles| && SameSide(s.handles[h], Next(s, e).handles[h])
  {
  }

  lemma OthersKeepSide(s: State, e: Event, h: nat)
    requires Enabled(s, e) && h < |s.handles| && !IsBy(e, h)
    ensures h < |Next(s, e).handles| && SameSide(s.handles[h], Next(s, e).handles[h])
  {
    hide Enabled, Next, SameSide;
    if e.SectionStep? {
      Theorems.SectionStepIs(s);
      SectionKeepsSide(s, h);
    } else if Theorems.IsUsers(e) || Theorems.IsChannels(e) {
      UsersKeepSide(s, e, h);
    } else {
      LoopKeepsSide(s, e, h);
    }
  }

  /** Flags once set stay set. */
  predicate FlagsGrow(xs: seq<Handle>, ys: seq<Handle>) {
    |xs| <= |ys|
    && forall h :: 0 <= h < |xs| ==> (xs[h].stopped ==> ys[h].stopped) && (xs[h].released ==> ys[h].released)
  }

  /** Only the section in progress changes the map. */
  predicate Stays(s: State, t: State) {
    t.section == s.section && t.streams == s.streams && FlagsGrow(s.handles, t.handles)
  }

  lemma UsersStay(s: State, e: Event)
    requires Enabled(s, e) && !s.section.Free? && (Theorems.IsUsers(e) || Theorems.IsChannels(e))
    ensures Stays(s, Next(s, e))
  {
  }

  lemma LoopStays(s: State, e: Event)
    requires Enabled(s, e) && !s.section.Free? && !e.SectionStep? && !e.DrainOne?
    requires !Theorems.IsUsers(e) && !Theorems.IsChannels(e)
    ensures Stays(s, Next(s, e))
  {
  }

  lemma SectionStays(s: State, e: Event)
    requires Enabled(s, e) && !s.section.Free? && !e.SectionStep? && !e.DrainOne?
    ensures Stays(s, Next(s, e))
  {
    hide Enabled, Next, Stays;
    if Theorems.IsUsers(e) || Theorems.IsChannels(e) {
      UsersStay(s, e);
    } else {
      LoopStays(s, e);
    }
  }

  class Client {
    var streams: Streams
    var issued: map<Id, nat>
    var handles: seq<Handle>
    var loop: LoopPc
    var section: Section

    ghost var trace: seq<Event>

    function View(): State
      reads this
    {
      State(streams, issued, handles, loop, section)
    }

    /** The fields are the state reached by the run recorded in `trace`. */
    ghost predicate Valid()
      reads this
    {
      Legal(trace) && View() == After(trace)
    }

    constructor ()
      ensures Valid() && trace == []
    {
      streams, issued, handles, loop, section := map[], map[], [], Serving, Free;
      trace := [];
    }

    /** The scheduler performs one event. */
    method Perform(e: Event)
      requires Valid() && Enabled(View(), e)
      modifies this
      ensures Valid() && trace == old(trace) + [e] && View() == Next(old(View()), e)
    {
      hide Legal, After, Next;
      Theorems.Extend(trace, e);
      var s := Next(View(), e);
      streams, issued, handles, loop, section := s.streams, s.issued, s.handles, s.loop, s.section;
      trace := trace + [e];
    }

    /** The user's side of stream `h` waits while other tasks perform any number of events. */
    method Yield(h: nat)
      requires Valid() && h < |handles|
      modifies this
      ensures Valid() && old(trace) <= trace
      ensures h < |handles| && SameSide(old(handles[h]), handles[h])
      ensures forall i :: old(|trace|) <= i < |trace| ==> !IsBy(trace[i], h)
    {
      hide Legal, After, Next, Enabled;
      var script: seq<Event> := *;
      for i := 0 to |script|
        invariant Valid() && old(trace) <= trace
        invariant h < |handles| && SameSide(old(handles[h]), handles[h])
        invariant forall j :: old(|trace|) <= j < |trace| ==> !IsBy(trace[j], h)
      {
        if Enabled(View(), script[i]) && !IsBy(script[i], h) {
          OthersKeepSide(View(), script[i], h);
          Perform(script[i]);
        }
      }
    }

    // ----- atomic operations of the user's side -----

    method StoreStopped(h: nat, runtime: bool)
      requires Valid() && h < |handles| && handles[h].pc.Live?
      modifies this
      ensures Valid() && trace == old(trace) + [if runtime then Stop(h) else DropBare(h)]
      ensures h < |handles| && handles[h].stopped && handles[h].orig == old(handles[h]).orig
      ensures handles[h].pc == (if runtime then FirstLoad else Releasing)
      ensures handles[h].bare == (old(handles[h]).bare || !runtime)
    {
      hide Legal, After;
      ghost var e := if runtime then Stop(h) else DropBare(h);
      Theorems.Extend(trace, e);
      var x := handles[h];
      handles := handles[h := if runtime then x.(stopped := true, pc := FirstLoad)
                              else x.(stopped := true, pc := Releasing, bare := true)];
      trace := trace + [e];
    }

    method LoadFirst(h: nat) returns (id: Id)
      requires Valid() && h < |handles| && handles[h].pc.FirstLoad?
      modifies this
      ensures Valid() && trace == old(trace) + [HandleStep(h)] && id == old(handles[h]).eff
      ensures h < |handles| && handles[h] == old(handles[h]).(pc := SecondLoad(id))
    {
      hide Legal, After;
      Theorems.Extend(trace, HandleStep(h));
      id := handles[h].eff;
      handles := handles[h := handles[h].(pc := SecondLoad(id))];
      trace := trace + [HandleStep(h)];
    }

    method LoadSecond(h: nat) returns (id: Id)
      requires Valid() && h < |handles| && handles[h].pc.SecondLoad?
      modifies this
      ensures Valid() && trace == old(trace) + [HandleStep(h)] && id == old(handles[h]).eff
      ensures h < |handles|
      ensures var x := old(handles[h]); handles[h] == x.(pc := Stopping(StopIds(x.pc.first, id, x.orig)))
    {
      hide Legal, After;
      Theorems.Extend(trace, HandleStep(h));
      id := handles[h].eff;
      handles := handles[h := handles[h].(pc := Stopping(StopIds(handles[h].pc.first, id, handles[h].orig)))];
      trace := trace + [HandleStep(h)];
    }

    /** `unregister_stream`, once the map's lock is free. */
    method UnregisterStream(h: nat)
      requires Valid() && h < |handles| && section.Free?
      requires handles[h].pc.Stopping? && handles[h].pc.ids != []
      modifies this
      ensures Valid() && trace == old(trace) + [HandleStep(h)]
      ensures streams == Without(old(streams), old(handles[h]).pc.ids[0]) && h < |handles|
      ensures var ids := old(handles[h]).pc.ids;
              handles[h] == old(handles[h]).(pc := if |ids| == 1 then Releasing else Stopping(ids[1..]))
    {
      hide Legal, After;
      Theorems.Extend(trace, HandleStep(h));
      var ids := handles[h].pc.ids;
      streams := Without(streams, ids[0]);
      handles := handles[h := handles[h].(pc := if |ids| == 1 then Releasing else Stopping(ids[1..]))];
      trace := trace + [HandleStep(h)];
    }

    /** The run's last event was the release of stream `h`, which was the first to release its slot
        exactly when `won`. */
    ghost predicate Released(h: nat, won: bool)
      reads this
    {
      && trace != [] && trace[|trace| - 1] == HandleStep(h) && Legal(trace[..|trace| - 1])
      && var s := After(trace[..|trace| - 1]);
         h < |s.handles| && s.handles[h].pc.Releasing? && won == !s.handles[h].released
    }

    /** `slot_released.compare_exchange(false, true)`; the winner calls `stream_ended`. */
    method ClaimRelease(h: nat) returns (won: bool)
      requires Valid() && h < |handles| && handles[h].pc.Releasing?
      modifies this
      ensures Valid() && trace == old(trace) + [HandleStep(h)] && won == !old(handles[h]).released
      ensures Released(h, won)
      ensures h < |handles| && handles[h] == old(handles[h]).(pc := Closed, released := true)
    {
      hide Legal, After;
      Theorems.Extend(trace, HandleStep(h));
      won := !handles[h].released;
      handles := handles[h := handles[h].(pc := Closed, released := true)];
      trace := trace + [HandleStep(h)];
      assert trace[..|trace| - 1] == old(trace);
    }

    // ----- the methods of the source -----

    /** The common part of `stop` and of the task spawned by `Drop`: load the ids, stop and
        unregister each, release the slot. It stays behind, not done, while the lock is taken. */
    method StopAndRelease(h: nat) returns (done: bool, ended: bool)
      requires Valid() && h < |handles| && handles[h].pc.FirstLoad? && handles[h].stopped
      modifies this
      ensures Valid() && old(trace) <= trace
      ensures h < |handles| && handles[h].stopped && handles[h].bare == old(handles[h]).bare
      ensures done ==> handles[h].pc.Closed? && handles[h].released
      ensures done ==> Released(h, ended)
      ensures !done ==> !ended && handles[h].pc.Stopping? && !section.Free?
    {
      hide Valid, Next, Enabled, Released;
      var origId := handles[h].orig;
      var firstId := LoadFirst(h);
      var ids := [firstId];
      Yield(h);
      var secondId := LoadSecond(h);
      if secondId != firstId {
        ids := ids + [secondId];
      }
      if origId != firstId && origId != secondId {
        ids := ids + [origId];
      }
      assert ids == StopIds(firstId, secondId, origId);

      var i := 0;
      while i < |ids|
        invariant Valid() && old(trace) <= trace
        invariant i <= |ids| && h < |handles| && handles[h].stopped && handles[h].bare == old(handles[h]).bare
        invariant handles[h].pc == if i < |ids| then Stopping(ids[i..]) else Releasing
      {
        Yield(h);
        if !section.Free? {
          return false, false;
        }
        UnregisterStream(h);
        i := i + 1;
      }
      Yield(h);
      ended := ClaimRelease(h);
      done := true;
    }

    /** `QuoteStream::stop`: a stream already stopped by its handle is left as it is. */
    method StopStream(h: nat) returns (done: bool)
      requires Valid() && h < |handles| && (handles[h].pc.Live? || (handles[h].pc.Closed? && !handles[h].bare))
      modifies this
      ensures Valid() && old(trace) <= trace && h < |handles|
      ensures old(handles[h]).pc.Closed? ==> done && trace == old(trace)
      ensures done ==> handles[h].pc.Closed? && handles[h].released
      ensures done && section.Free? ==>
                (AtHome(View(), h) <==> handles[h].overtaken && !handles[h].takenOut)
      ensures done && section.Free? && old(handles[h]).pc.Live? && !Stops.InWindow(old(View()), h) ==>
                !AtHome(View(), h)
      ensures !done ==> handles[h].stopped && handles[h].pc.Stopping? && !section.Free?
    {
      hide Legal, After, Stops.InWindow;
      if handles[h].pc.Closed? {
        ClosedIsReleased(h);
        done := true;
      } else {
        LiveIsNotBare(h);
        StoreStopped(h, true);
        var ended;
        done, ended := StopAndRelease(h);
        if done && section.Free? {
          StoppedCleanly(old(trace), h);
        }
      }
      if done && section.Free? {
        Theorems.StopLeavesEntryIff(trace, h);
      }
    }

    lemma StoppedCleanly(before: seq<Event>, h: nat)
      requires Valid() && before + [Stop(h)] <= trace && h < |handles|
      requires Legal(before) && !handles[h].bare && handles[h].pc.Closed? && section.Free?
      ensures !Stops.InWindow(After(before), h) ==> !AtHome(View(), h)
    {
      if !Stops.InWindow(After(before), h) {
        assert trace == before + [Stop(h)] + trace[|before| + 1..];
        Stops.WindowIsDecidedAtStop(before, trace[|before| + 1..], h);
        Stops.StopOutsideWindowIsClean(trace, h);
      }
    }

    lemma ClosedIsReleased(h: nat)
      requires Valid() && h < |handles| && handles[h].pc.Closed?
      ensures handles[h].released
    {
      Steps.RunKeepsInv(trace);
      Inv.AboutStream(After(trace), h);
    }

    lemma LiveIsNotBare(h: nat)
      requires Valid() && h < |handles| && handles[h].pc.Live?
      ensures !handles[h].bare
    {
      Steps.RunKeepsInv(trace);
      Inv.AboutStream(After(trace), h);
    }

    /** `Drop`: with a runtime it does what stop does; without one it only releases the slot. */
    method DropStream(h: nat, runtime: bool) returns (done: bool)
      requires Valid() && h < |handles| && (handles[h].pc.Live? || handles[h].pc.Closed?)
      modifies this
      ensures Valid() && old(trace) <= trace && h < |handles|
      ensures old(handles[h]).pc.Closed? ==> done && trace == old(trace)
      ensures done ==> handles[h].pc.Closed?
      ensures done && old(handles[h]).pc.Live? ==> handles[h].stopped && handles[h].released
      ensures !runtime ==> done
      ensures !done ==> handles[h].stopped && handles[h].pc.Stopping? && !section.Free?
      ensures runtime && done && section.Free? && old(handles[h]).pc.Live? ==>
                (AtHome(View(), h) <==> handles[h].overtaken && !handles[h].takenOut)
      ensures runtime && done && section.Free? && old(handles[h]).pc.Live? && !Stops.InWindow(old(View()), h) ==>
                !AtHome(View(), h)
    {
      if handles[h].pc.Closed? {
        return true;
      }
      LiveIsNotBare(h);
      StoreStopped(h, runtime);
      if runtime {
        var ended;
        done, ended := StopAndRelease(h);
        if done && section.Free? {
          StoppedCleanly(old(trace), h);
          Theorems.StopLeavesEntryIff(trace, h);
        }
      } else {
        Yield(h);
        var _ := ClaimRelease(h);
        done := true;
      }
    }

    // ----- the connection's locked sections -----

    /** While a section is in progress other tasks perform events, but nobody changes the map. */
    method YieldInSection()
      requires Valid() && !section.Free?
      modifies this
      ensures Valid() && old(trace) <= trace && section == old(section) && streams == old(streams)
      ensures FlagsGrow(old(handles), handles)
    {
      hide Legal, After, Next, Enabled;
      var script: seq<Event> := *;
      for i := 0 to |script|
        invariant Valid() && old(trace) <= trace && section == old(section) && streams == old(streams)
        invariant FlagsGrow(old(handles), handles)
      {
        if Enabled(View(), script[i]) && !script[i].SectionStep? && !script[i].DrainOne? {
          SectionStays(View(), script[i]);
          Perform(script[i]);
        }
      }
    }

    /** `on_end`: sets the stopped flag, then releases the slot unless somebody has. */
    method OnEnd()
      requires Valid() && section.EndFlag? && section.h < |handles|
      modifies this
      ensures Valid() && old(trace) <= trace && streams == old(streams) && FlagsGrow(old(handles), handles)
      ensures section == if old(section).drain then Draining(old(section).who) else Free
      ensures old(section).h < |handles| && handles[old(section).h].stopped && handles[old(section).h].released
    {
      hide Legal, After, Next, Enabled;
      var h := section.h;
      SetStopped();
      YieldInSection();
      SetReleased();
    }

    method SetStopped()
      requires Valid() && section.EndFlag? && section.h < |handles|
      modifies this
      ensures Valid() && trace == old(trace) + [SectionStep] && streams == old(streams)
      ensures section == EndCas(old(section).h, old(section).who, old(section).drain)
      ensures handles == old(handles)[old(section).h := old(handles)[old(section).h].(stopped := true)]
    {
      hide Legal, After;
      Theorems.Extend(trace, SectionStep);
      handles := handles[section.h := handles[section.h].(stopped := true)];
      section := EndCas(section.h, section.who, section.drain);
      trace := trace + [SectionStep];
    }

    method SetReleased()
      requires Valid() && section.EndCas? && section.h < |handles|
      modifies this
      ensures Valid() && trace == old(trace) + [SectionStep] && streams == old(streams)
      ensures section == if old(section).drain then Draining(old(section).who) else Free
      ensures handles == old(handles)[old(section).h := old(handles)[old(section).h].(released := true)]
    {
      hide Legal, After;
      Theorems.Extend(trace, SectionStep);
      handles := handles[section.h := handles[section.h].(released := true)];
      section := if section.drain then Draining(section.who) else Free;
      trace := trace + [SectionStep];
    }

    /** Takes the entry under `id` out of the map, under the lock. */
    method TakeOut(id: Id, e: Event, who: Who, drain: bool)
      requires Valid() && Enabled(View(), e) && id in streams
      requires (e == EndFrame(id) && who.Loop? && !drain) || (e == DrainOne(id) && section == Draining(who) && drain)
      modifies this
      ensures Valid() && trace == old(trace) + [e] && streams == Without(old(streams), id)
      ensures old(streams)[id] < |handles| && section == EndFlag(old(streams)[id], who, drain)
      ensures handles == old(handles)[old(streams)[id] := old(handles)[old(streams)[id]].(takenOut := true)]
    {
      hide Legal, After;
      Theorems.Extend(trace, e);
      var h := streams[id];
      handles := handles[h := handles[h].(takenOut := true)];
      streams := Without(streams, id);
      section := EndFlag(h, who, drain);
      trace := trace + [e];
    }

    /** `handle_server_message` for the end of a stream: exactly the entry under that id goes, and
        its stream is stopped and released. */
    method HandleStreamEnd(id: Id)
      requires Valid() && Reading(View()) && section.Free?
      modifies this
      ensures Valid() && old(trace) <= trace && section.Free? && streams == Without(old(streams), id)
      ensures FlagsGrow(old(handles), handles)
      ensures id in old(streams) ==>
                var h := old(streams)[id]; h < |handles| && handles[h].stopped && handles[h].released
    {
      hide Legal, After, Next;
      EntriesAreStreams();
      if id in streams {
        TakeOut(id, EndFrame(id), Loop, false);
        OnEnd();
      } else {
        assert Without(streams, id) == streams;
      }
    }

    lemma EntriesAreStreams()
      requires Valid()
      ensures forall k :: k in streams ==> streams[k] < |handles|
    {
      Steps.RunKeepsInv(trace);
      assert Inv.HomeInv(After(trace));
    }

    /** `cleanup_resumable_streams` at the end of the loop, and the drain of `stop_all_streams`:
        every stream registered when the lock is taken is stopped and released. */
    method CleanUpStreams(who: Who)
      requires Valid() && section.Free? && (who.Loop? ==> loop.Down? || loop.Serving?)
      modifies this
      ensures Valid() && old(trace) <= trace && section.Free? && streams == map[]
      ensures forall k :: k in old(streams) ==>
                var h := old(streams)[k]; h < |handles| && handles[h].stopped && handles[h].released
    {
      hide Valid, View;
      TakeLock(who);
      ghost var before := streams;
      while streams != map[]
        invariant Valid() && old(trace) <= trace && section == Draining(who)
        invariant forall k :: k in streams ==> k in before && before[k] == streams[k]
        invariant forall k :: k in before && k !in streams ==>
                    before[k] < |handles| && handles[before[k]].stopped && handles[before[k]].released
        decreases |streams|
      {
        var id :| id in streams;
        assert streams == Without(streams, id)[id := streams[id]];
        EndEntry(id, who);
      }
      DropLock();
    }

    /** One entry of a drain. */
    method EndEntry(id: Id, who: Who)
      requires Valid() && section == Draining(who) && id in streams
      modifies this
      ensures Valid() && old(trace) <= trace && section == Draining(who) && streams == Without(old(streams), id)
      ensures FlagsGrow(old(handles), handles)
      ensures var h := old(streams)[id]; h < |handles| && handles[h].stopped && handles[h].released
    {
      hide Legal, After, Next, Enabled;
      YieldInSection();
      EntriesAreStreams();
      CanDrain(id);
      TakeOut(id, DrainOne(id), who, true);
      OnEnd();
    }

    lemma CanDrain(id: Id)
      requires section.Draining? && id in streams && streams[id] < |handles|
      ensures Enabled(View(), DrainOne(id))
    {
    }

    method TakeLock(who: Who)
      requires Valid() && section.Free? && (who.Loop? ==> loop.Down? || loop.Serving?)
      modifies this
      ensures Valid() && trace == old(trace) + [if who.Loop? then ExitLoop else ShutdownDrain]
      ensures section == Draining(who) && streams == old(streams) && handles == old(handles)
    {
      hide Legal, After;
      ghost var e := if who.Loop? then ExitLoop else ShutdownDrain;
      Theorems.Extend(trace, e);
      section := Draining(who);
      if who.Loop? {
        loop := Exited;
      }
      trace := trace + [e];
    }

    method DropLock()
      requires Valid() && section.Draining? && streams == map[]
      modifies this
      ensures Valid() && trace == old(trace) + [SectionStep]
      ensures section.Free? && streams == old(streams) && handles == old(handles)
    {
      hide Legal, After;
      Theorems.Extend(trace, SectionStep);
      section := Free;
      trace := trace + [SectionStep];
    }
  }
}
