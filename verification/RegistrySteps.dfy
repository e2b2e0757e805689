/** Every event keeps the invariant of the live stream map. */
module RegistrySteps {
  import opened Base
  import opened Delivery
  import opened Registry
  import opened RegistryInv

  // ----- the stream's own tasks -----

  lemma AboutPipe(s: State, h: nat)
    requires Inv(s) && h < |s.handles|
    ensures PipeInv(s.handles[h].pipe)
    ensures s.handles[h].stopped || s.handles[h].pc.Registering? || s.handles[h].pc.Live?
  {
  }

  lemma PumpChangesNoHistory(p: Pipe)
    requires CanPump(p)
    ensures Pump(p).dispatched == p.dispatched && Pump(p).open == p.open && !Pump(p).adapter.Leaving?
  {
  }

  lemma PipeEventKeeps(s: State, e: Event)
    requires Inv(s) && Enabled(s, e)
    requires e.DropReceiver? || e.Receive? || e.PumpStep? || e.LoadForLeaving? || e.InputEnds?
    ensures Inv(Next(s, e))
  {
    hide Inv, PipeInv, Pump, WithPipe;
    AboutPipe(s, e.h);
    var p, eff := s.handles[e.h].pipe, s.handles[e.h].eff;
    match e
    case DropReceiver(h) =>
      DropKeepsPipe(p);
      PipeKeepsInv(s, h, CloseReceiver(p));
    case Receive(h) =>
      RecvKeepsPipe(p);
      PipeKeepsInv(s, h, Recv(p));
    case PumpStep(h) =>
      PumpKeepsPipe(p);
      PumpChangesNoHistory(p);
      PipeKeepsInv(s, h, Pump(p));
    case LoadForLeaving(h) =>
      AdapterEndKeepsPipe(p, Leaving(eff));
      PipeKeepsInv(s, h, p.(adapter := Leaving(eff)));
    case InputEnds(h) =>
      AdapterEndKeepsPipe(p, Gone);
      PipeKeepsInv(s, h, p.(adapter := Gone));
  }

  lemma DispatchIsSound(issued: map<Id, nat>, h: nat, x: Handle, d: Data)
    requires Sound(issued, h, x) && Owned(issued, d.id, h) && CanDispatch(x.pipe)
    ensures Sound(issued, h, x.(pipe := Dispatch(x.pipe, d)))
  {
    hide PipeInv;
    DispatchKeepsPipe(x.pipe, d);
    assert KnownIds(x.(pipe := Dispatch(x.pipe, d))) == KnownIds(x);
  }

  lemma DataKeeps(s: State, d: Data)
    requires Inv(s) && Enabled(s, DataFrame(d))
    ensures Inv(Next(s, DataFrame(d)))
  {
    if d.id in s.streams {
      var h := s.streams[d.id];
      var x := s.handles[h];
      AboutStream(s, h);
      hide HandlesInv, HomeInv, Inv, Sound;
      DispatchIsSound(s.issued, h, x, d);
      UpdateKeepsInv(s, h, x.(pipe := Dispatch(x.pipe, d)));
    }
  }

  lemma FlagKeeps(s: State, e: Event)
    requires Inv(s) && Enabled(s, e) && (e.Stop? || e.DropBare?)
    ensures Inv(Next(s, e))
  {
    UpdateKeepsInv(s, e.h, Next(s, e).handles[e.h]);
  }

  lemma StopIdsKnown(first: Id, second: Id, orig: Id)
    ensures forall id :: id in StopIds(first, second, orig) <==> id in {first, second, orig}
  {
  }

  lemma LoadKeeps(s: State, h: nat)
    requires Inv(s) && h < |s.handles| && (s.handles[h].pc.FirstLoad? || s.handles[h].pc.SecondLoad?)
    ensures Inv(StepHandle(s, h))
  {
    var x := s.handles[h];
    AboutStream(s, h);
    hide Inv;
    if x.pc.SecondLoad? { StopIdsKnown(x.pc.first, x.eff, x.orig); }
    UpdateKeepsInv(s, h, StepHandle(s, h).handles[h]);
  }

  lemma ReleasingKeeps(s: State, h: nat)
    requires Inv(s) && h < |s.handles| && s.handles[h].pc.Releasing?
    ensures Inv(StepHandle(s, h))
  {
    var x := s.handles[h];
    AboutStream(s, h);
    hide Inv;
    UpdateKeepsInv(s, h, StepHandle(s, h).handles[h]);
  }

  // ----- entries removed by their own stream -----

  /** Removing key `k`, an id of stream `h`, with the lock free. */
  lemma UnregisterKeeps(s: State, h: nat, k: Id, x: Handle)
    requires Inv(s) && h < |s.handles| && s.section.Free? && Owned(s.issued, k, h)
    requires x.eff == s.handles[h].eff && KnownIds(x) <= KnownIds(s.handles[h])
    requires Sound(s.issued, h, x) && Placed(AtHome(s, h) && k != x.eff, Free, h, x)
    ensures Inv(SetHandle(s, h, x).(streams := Without(s.streams, k)))
  {
    var s' := SetHandle(s, h, x).(streams := Without(s.streams, k));
    assert AtHome(s', h) == (AtHome(s, h) && k != x.eff);
    LoopKept(s, s', h);
    hide Sound, Placed, HandlesInv, LoopInv;
    assert k in s.streams ==> s.streams[k] == h;
    LocalChange(s, s', h);
  }

  lemma StoppingKeeps(s: State, h: nat)
    requires Inv(s) && h < |s.handles| && s.handles[h].pc.Stopping? && HandleReady(s, h)
    ensures Inv(StepHandle(s, h))
  {
    var x := s.handles[h];
    var k := x.pc.ids[0];
    assert x.pc.ids == [k] + x.pc.ids[1..];
    assert k in KnownIds(x);
    AboutStream(s, h);
    UnregisterKeeps(s, h, k, StepHandle(s, h).handles[h]);
  }

  lemma LeaveKeeps(s: State, h: nat)
    requires Inv(s) && Enabled(s, LeaveMap(h))
    ensures Inv(Next(s, LeaveMap(h)))
  {
    var x := s.handles[h];
    assert x.pipe.adapter.id in KnownIds(x);
    UnregisterKeeps(s, h, x.pipe.adapter.id, Next(s, LeaveMap(h)).handles[h]);
  }

  // ----- entries removed by the connection, and their on_end -----

  lemma TakenOutIsSound(issued: map<Id, nat>, h: nat, x: Handle)
    requires Sound(issued, h, x) && !x.pc.Registering?
    ensures Sound(issued, h, x.(takenOut := true)) && KnownIds(x.(takenOut := true)) == KnownIds(x)
  {
  }

  lemma TakenOutIsPlaced(sec: Section, h: nat, x: Handle, who: Who, drain: bool)
    requires Placed(true, sec, h, x) && (sec.Free? || sec.Draining?)
    ensures Placed(false, EndFlag(h, who, drain), h, x.(takenOut := true))
  {
  }

  lemma RemovalTouches(s: State, s': State, k: Id)
    requires k in s.streams && s'.streams == Without(s.streams, k) && s'.issued == s.issued
    requires s.streams[k] < |s.handles| == |s'.handles|
    requires forall g: nat :: g < |s.handles| && g != s.streams[k] ==> s'.handles[g] == s.handles[g]
    requires OnlyAbout(s.section, s.streams[k]) && OnlyAbout(s'.section, s.streams[k])
    ensures Touches(s, s', s.streams[k])
  {
  }

  lemma EntryGone(s: State, s': State, k: Id)
    requires HomeInv(s) && k in s.streams && s'.streams == Without(s.streams, k)
    requires |s'.handles| == |s.handles| && s'.handles[s.streams[k]].eff == s.handles[s.streams[k]].eff
    ensures AtHome(s, s.streams[k]) && !AtHome(s', s.streams[k])
    ensures forall j :: j in s'.streams ==> s'.streams[j] != s.streams[k]
  {
  }

  /** The connection or shutdown takes out the entry under `k`, if there is one. */
  lemma RemoveAndEndKeeps(s: State, k: Id, who: Who, drain: bool)
    requires Inv(s) && (s.section.Free? || s.section.Draining?)
    requires k in s.streams ==> s.streams[k] < |s.handles|
    ensures Inv(RemoveAndEnd(s, k, who, drain))
  {
    if k in s.streams {
      var h := s.streams[k];
      var s' := RemoveAndEnd(s, k, who, drain);
      AboutStream(s, h);
      EntryGone(s, s', k);
      RemovalTouches(s, s', k);
      assert !s.handles[h].pc.Registering?;
      hide Placed, Sound, KnownIds, HandlesInv, HomeInv;
      TakenOutIsSound(s.issued, h, s.handles[h]);
      TakenOutIsPlaced(s.section, h, s.handles[h], who, drain);
      LoopKept(s, s', h);
      hide LoopInv, Inv, Touches, Without;
      LocalChange(s, s', h);
    }
  }

  lemma EndFlagKeeps(s: State)
    requires Inv(s) && SectionReady(s) && s.section.EndFlag?
    ensures Inv(StepSection(s))
  {
    var h := s.section.h;
    var s' := StepSection(s);
    AboutStream(s, h);
    assert AtHome(s', h) == AtHome(s, h);
    LoopKept(s, s', h);
    hide LoopInv, HandlesInv, HomeInv, Inv;
    LocalChange(s, s', h);
  }

  lemma EndCasKeeps(s: State)
    requires Inv(s) && SectionReady(s) && s.section.EndCas?
    ensures Inv(StepSection(s))
  {
    var h := s.section.h;
    var s' := StepSection(s);
    AboutStream(s, h);
    assert AtHome(s', h) == AtHome(s, h);
    LoopKept(s, s', h);
    hide LoopInv, HandlesInv, HomeInv, Inv;
    LocalChange(s, s', h);
  }

  // ----- the remap -----

  lemma TakenForRemapIsPlaced(newId: Id, h: nat, x: Handle)
    requires Placed(true, Free, h, x) && newId !in KnownIds(x)
    ensures Placed(false, RemapCheck(newId, h), h, x)
  {
  }

  /** The loop moves on, and possibly a drain begins or ends; no stream changes. */
  lemma MoveKeeps(s: State, s': State)
    requires Inv(s) && LoopInv(s')
    requires s'.streams == s.streams && s'.issued == s.issued && s'.handles == s.handles
    requires s'.section == s.section
          || ((s.section.Free? || s.section.Draining?) && (s'.section.Free? || s'.section.Draining?))
    requires IsRemap(s.section) ==> s'.loop.Turn?
    ensures Inv(s')
  {
    hide Sound, LoopInv;
    forall h: nat | h < |s'.handles|
      ensures Sound(s'.issued, h, s'.handles[h]) && Placed(AtHome(s', h), s'.section, h, s'.handles[h])
    {
      AboutStream(s, h);
      assert AtHome(s', h) == AtHome(s, h);
    }
  }

  lemma LoopTurns(s: State, s': State)
    requires LoopInv(s) && s'.issued == s.issued && |s'.handles| == |s.handles|
    requires (s.loop.Await? || s.loop.Granted? || s.loop.Removing?) && s'.loop == Turn(s.loop.todo)
    ensures LoopInv(s')
  {
  }

  lemma TakeForRemapKeeps(s: State)
    requires Inv(s) && s.loop.Granted? && s.section.Free?
    ensures Inv(TakeForRemap(s))
  {
    var Granted(newId, oldId, g, todo) := s.loop;
    var s' := TakeForRemap(s);
    LoopTurns(s, s');
    if oldId !in s.streams {
      MoveKeeps(s, s');
    } else {
      var h := s.streams[oldId];
      AboutStream(s, h);
      EntryGone(s, s', oldId);
      RemovalTouches(s, s', oldId);
      assert h == g && SectionInv(s');
      hide Placed, Sound, KnownIds, LoopInv, HandlesInv, HomeInv, SectionInv, Inv, Touches, Without;
      TakenForRemapIsPlaced(newId, h, s.handles[h]);
      LocalChange(s, s', h);
    }
  }

  lemma CheckedIsPlaced(newId: Id, h: nat, x: Handle)
    requires Placed(false, RemapCheck(newId, h), h, x) && (!x.stopped ==> x.lateRemaps == 0)
    ensures if x.stopped || x.pipe.adapter.Gone? then Placed(false, EndFlag(h, Loop, false), h, x.(takenOut := true))
            else Placed(false, RemapStore(newId, h), h, x)
  {
  }

  lemma RemapCheckKeeps(s: State)
    requires Inv(s) && SectionReady(s) && s.section.RemapCheck?
    ensures Inv(StepSection(s))
  {
    var h := s.section.h;
    var x := s.handles[h];
    var s' := StepSection(s);
    AboutStream(s, h);
    assert AtHome(s', h) == AtHome(s, h);
    assert !x.pc.Registering? && (!x.stopped ==> x.lateRemaps == 0);
    hide HandlesInv, HomeInv, Inv, Placed, Sound, KnownIds;
    CheckedIsPlaced(s.section.newId, h, x);
    TakenOutIsSound(s.issued, h, x);
    LoopKept(s, s', h);
    hide LoopInv;
    LocalChange(s, s', h);
  }

  lemma RemapInsertKeeps(s: State)
    requires Inv(s) && SectionReady(s) && s.section.RemapInsert?
    ensures Inv(StepSection(s))
  {
    var h := s.section.h;
    var s' := StepSection(s);
    AboutStream(s, h);
    assert AtHome(s', h);
    assert s.section.newId !in s.streams;
    LoopKept(s, s', h);
    hide LoopInv, HandlesInv, HomeInv, Inv;
    LocalChange(s, s', h);
  }

  lemma RemapStoreKeeps(s: State)
    requires Inv(s) && SectionReady(s) && s.section.RemapStore?
    ensures Inv(StepSection(s))
  {
    var h := s.section.h;
    var s' := StepSection(s);
    AboutStream(s, h);
    assert !AtHome(s', h) && LoopInv(s');
    hide LoopInv, HandlesInv, HomeInv, Inv;
    LocalChange(s, s', h);
  }

  // ----- new streams and new ids -----

  lemma AcceptKeeps(s: State, id: Id)
    requires Inv(s) && id !in s.issued
    ensures Inv(Next(s, Accept(id)))
  {
    hide Sound, Placed;
    var s', n := Next(s, Accept(id)), |s.handles|;
    assert SectionInv(s') && HomeInv(s') && LoopInv(s');
    assert !AtHome(s', n);
    NewIsPlaced(s.section, n, id);
    forall h: nat | h < |s'.handles|
      ensures Sound(s'.issued, h, s'.handles[h]) && Placed(AtHome(s', h), s'.section, h, s'.handles[h])
    {
      if h < n {
        AboutStream(s, h);
        SoundGrows(s.issued, s'.issued, h, s.handles[h]);
        assert AtHome(s', h) == AtHome(s, h);
      } else {
        NewIsSound(s'.issued, n, id);
      }
    }
  }

  lemma NewIsPlaced(sec: Section, n: nat, id: Id)
    requires IsRemap(sec) || IsEnd(sec) ==> sec.h < n
    ensures Placed(false, sec, n, NewHandle(id))
  {
  }

  lemma NewIsSound(issued: map<Id, nat>, n: nat, id: Id)
    requires Owned(issued, id, n)
    ensures Sound(issued, n, NewHandle(id))
  {
  }

  /** An id issued for a stream can only be the key of that stream's own entry. */
  lemma OwnedKeyIsHome(s: State, k: Id, h: nat)
    requires Inv(s) && h < |s.handles| && Owned(s.issued, k, h)
    ensures k in s.streams ==> AtHome(s, h) && k == s.handles[h].eff
  {
  }

  lemma RegisterKeeps(s: State, h: nat)
    requires Inv(s) && h < |s.handles| && s.handles[h].pc.Registering? && s.section.Free?
    ensures Inv(Next(s, Register(h)))
  {
    var s' := Next(s, Register(h));
    AboutStream(s, h);
    assert AtHome(s', h);
    OwnedKeyIsHome(s, s.handles[h].orig, h);
    LoopKept(s, s', h);
    hide LoopInv, HandlesInv, HomeInv, Inv;
    LocalChange(s, s', h);
  }

  lemma GrantKeeps(s: State, id: Id)
    requires Inv(s) && s.loop.Await? && LoopReady(s) && id !in s.issued
    ensures Inv(Next(s, ResumeGranted(id)))
  {
    hide Placed;
    var s', g := Next(s, ResumeGranted(id)), s.loop.h;
    assert SectionInv(s') && HomeInv(s');
    AboutStream(s, g);
    assert LoopInv(s');
    forall h: nat | h < |s'.handles|
      ensures Sound(s'.issued, h, s'.handles[h]) && Placed(AtHome(s', h), s'.section, h, s'.handles[h])
    {
      AboutStream(s, h);
      SoundGrows(s.issued, s'.issued, h, s.handles[h]);
      assert AtHome(s', h) == AtHome(s, h);
    }
  }

  // ----- the loop and shutdown -----

  lemma SnapshotIsOwned(s: State, order: seq<Id>)
    requires Inv(s) && forall k :: k in order ==> k in s.streams
    ensures LoopInv(s.(loop := Turn(Snapshot(s.streams, order))))
  {
  }

  lemma TurnKeeps(s: State)
    requires Inv(s) && s.loop.Turn? && LoopReady(s) && (s.loop.todo != [] ==> s.loop.todo[0].1 < |s.handles|)
    ensures Inv(StepTurn(s))
  {
    MoveKeeps(s, StepTurn(s));
  }

  lemma LoopEventKeeps(s: State, e: Event)
    requires Inv(s) && Enabled(s, e)
    requires e.Disconnect? || e.RetryOld? || e.Reconnect? || e.ResumeFailed? || e.ResumeAbandoned?
          || e.ExitLoop? || e.ShutdownDrain?
    ensures Inv(Next(s, e))
  {
    if e.Reconnect? { SnapshotIsOwned(s, e.order); }
    if e.ResumeAbandoned? { LoopTurns(s, Next(s, e)); }
    MoveKeeps(s, Next(s, e));
  }

  lemma SectionKeeps(s: State)
    requires Inv(s) && SectionReady(s)
    ensures Inv(StepSection(s))
  {
    hide Inv, Next;
    match s.section
    case Draining(_) => DrainEndKeeps(s);
    case EndFlag(_, _, _) => EndFlagKeeps(s);
    case EndCas(_, _, _) => EndCasKeeps(s);
    case RemapCheck(_, _) => RemapCheckKeeps(s);
    case RemapStore(_, _) => RemapStoreKeeps(s);
    case RemapInsert(_, _) => RemapInsertKeeps(s);
  }

  lemma DrainEndKeeps(s: State)
    requires Inv(s) && SectionReady(s) && s.section.Draining?
    ensures Inv(StepSection(s))
  {
    MoveKeeps(s, StepSection(s));
  }

  lemma HandleStepKeeps(s: State, h: nat)
    requires Inv(s) && h < |s.handles| && HandleReady(s, h)
    ensures Inv(StepHandle(s, h))
  {
    hide Inv, StepHandle;
    if s.handles[h].pc.Stopping? {
      StoppingKeeps(s, h);
    } else if s.handles[h].pc.Releasing? {
      ReleasingKeeps(s, h);
    } else {
      LoadKeeps(s, h);
    }
  }

  lemma LockRemoveKeeps(s: State)
    requires Inv(s) && Enabled(s, LockRemove)
    ensures Inv(Next(s, LockRemove))
  {
    var moved := s.(loop := Turn(s.loop.todo));
    LoopTurns(s, moved);
    MoveKeeps(s, moved);
    RemoveAndEndKeeps(moved, s.loop.oldId, Loop, false);
  }

  lemma KeepsInv(s: State, e: Event)
    requires Inv(s) && Enabled(s, e)
    ensures Inv(Next(s, e))
  {
    hide Inv, RemoveAndEnd, StepHandle, StepSection, StepTurn, TakeForRemap, SetHandle, WithPipe;
    match e
    case Accept(id) => AcceptKeeps(s, id);
    case Register(h) => RegisterKeeps(s, h);
    case Stop(_) => FlagKeeps(s, e);
    case DropBare(_) => FlagKeeps(s, e);
    case HandleStep(h) => HandleStepKeeps(s, h);
    case LeaveMap(h) => LeaveKeeps(s, h);
    case DataFrame(d) => DataKeeps(s, d);
    case EndFrame(id) => RemoveAndEndKeeps(s, id, Loop, false);
    case SectionStep => SectionKeeps(s);
    case DrainOne(id) => RemoveAndEndKeeps(s, id, s.section.who, true);
    case TurnStep => TurnKeeps(s);
    case ResumeGranted(id) => GrantKeeps(s, id);
    case LockRemove => LockRemoveKeeps(s);
    case LockRemap => TakeForRemapKeeps(s);
    case DropReceiver(_) => PipeEventKeeps(s, e);
    case Receive(_) => PipeEventKeeps(s, e);
    case PumpStep(_) => PipeEventKeeps(s, e);
    case LoadForLeaving(_) => PipeEventKeeps(s, e);
    case InputEnds(_) => PipeEventKeeps(s, e);
    case _ => LoopEventKeeps(s, e);
  }

  lemma {:induction false} RunKeepsInv(es: seq<Event>)
    requires Legal(es)
    ensures Inv(After(es))
    decreases |es|
  {
    if es != [] {
      RunKeepsInv(es[..|es| - 1]);
      KeepsInv(After(es[..|es| - 1]), es[|es| - 1]);
    }
  }
}
