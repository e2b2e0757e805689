/** The invariant of the live stream map, and its parts. */
module RegistryInv {
  import opened Base
  import opened Delivery
  import opened Registry

  predicate Owned(issued: map<Id, nat>, id: Id, h: nat) {
    id in issued && issued[id] == h
  }

  /** The ids still to be unregistered by stop. */
  function Rest(x: Handle): seq<Id> {
    if x.pc.Stopping? then x.pc.ids else []
  }

  /** Every id that the stream's own tasks remember. */
  function KnownIds(x: Handle): set<Id> {
    {x.eff, x.orig}
    + (if x.pc.SecondLoad? then {x.pc.first} else {})
    + (set id | id in Rest(x))
    + (if x.pipe.adapter.Leaving? then {x.pipe.adapter.id} else {})
  }

  /** Stop or Drop is under way and will release the slot. */
  predicate Closing(pc: HandlePc) {
    pc.FirstLoad? || pc.SecondLoad? || pc.Stopping? || pc.Releasing?
  }

  /** A stream considered alone: its ids were issued for it, its data too, and its flags agree. */
  ghost predicate Sound(issued: map<Id, nat>, h: nat, x: Handle) {
    && (forall id :: id in KnownIds(x) ==> Owned(issued, id, h))
    && (forall i :: 0 <= i < |x.pipe.dispatched| ==> Owned(issued, x.pipe.dispatched[i].id, h))
    && PipeInv(x.pipe)
    && (x.pc.Registering? ==> x.eff == x.orig && !x.takenOut && !x.stopped)
    && (!x.stopped ==> (x.pc.Registering? || x.pc.Live?) && x.lateRemaps == 0 && x.pipe.open)
    && (x.bare ==> x.pc.Releasing? || x.pc.Closed?)
    && x.lateRemaps <= 1
    && (x.pipe.adapter.Leaving? || x.pipe.adapter.Rejected? ==> x.stopped)
    && (x.overtaken ==> x.lateRemaps == 1 && Computed(x) && x.eff !in Rest(x))
    && (x.pc.Closed? ==> x.released)
  }

  predicate IsRemap(sec: Section) {
    sec.RemapCheck? || sec.RemapStore? || sec.RemapInsert?
  }

  predicate IsEnd(sec: Section) {
    sec.EndFlag? || sec.EndCas?
  }

  /** A stream against the map and the section in progress. */
  predicate Placed(home: bool, sec: Section, h: nat, x: Handle) {
    var here := (IsRemap(sec) || IsEnd(sec)) && sec.h == h;
    && (x.pc.Registering? ==> !home && !here)
    && (here ==> !home)
    && (!x.stopped && !x.pc.Registering? ==> home || (here && !sec.EndCas?))
    && (x.stopped && !x.released ==> Closing(x.pc) || (here && sec.EndCas?))
    && (Computed(x) && (home || (here && sec.RemapInsert?)) ==> x.overtaken || x.eff in Rest(x))
    && (x.overtaken ==> home || (here && IsRemap(sec)) || x.takenOut)
    && (x.takenOut ==> !home && !(here && IsRemap(sec)))
    && (here && sec.RemapStore? ==> x.lateRemaps == 0)
    && (here && (sec.RemapCheck? || sec.RemapStore?) ==> sec.newId !in KnownIds(x))
    && (here && sec.RemapInsert? ==> x.eff == sec.newId)
  }

  ghost predicate HomeInv(s: State) {
    forall k :: k in s.streams ==>
      s.streams[k] < |s.handles| && Owned(s.issued, k, s.streams[k]) && s.handles[s.streams[k]].eff == k
  }

  ghost predicate HandlesInv(s: State) {
    forall h: nat :: h < |s.handles| ==>
      Sound(s.issued, h, s.handles[h]) && Placed(AtHome(s, h), s.section, h, s.handles[h])
  }

  ghost predicate SectionInv(s: State) {
    && (IsRemap(s.section) || IsEnd(s.section) ==> s.section.h < |s.handles|)
    && (IsRemap(s.section) ==> s.loop.Turn? && Owned(s.issued, s.section.newId, s.section.h))
  }

  ghost predicate LoopInv(s: State) {
    var l := s.loop;
    && (forall k :: k in s.issued ==> s.issued[k] < |s.handles|)
    && (l.Turn? || l.Await? || l.Granted? || l.Removing? ==>
          forall i :: 0 <= i < |l.todo| ==> l.todo[i].1 < |s.handles| && Owned(s.issued, l.todo[i].0, l.todo[i].1))
    && (l.Await? || l.Granted? ==> l.h < |s.handles| && Owned(s.issued, l.oldId, l.h))
    && (l.Granted? ==> Owned(s.issued, l.newId, l.h) && l.newId !in KnownIds(s.handles[l.h]))
  }

  ghost predicate Inv(s: State) {
    HomeInv(s) && HandlesInv(s) && SectionInv(s) && LoopInv(s)
  }

  // ----- one stream changes, the others do not notice -----

  /** The section in progress, if it is about a stream, is about `h`. */
  predicate OnlyAbout(sec: Section, h: nat) {
    IsRemap(sec) || IsEnd(sec) ==> sec.h == h
  }

  /** From `s` to `s'` only stream `h`, its map entries and a section about it change. */
  ghost predicate Touches(s: State, s': State, h: nat) {
    && h < |s.handles| == |s'.handles|
    && (forall g: nat :: g < |s.handles| && g != h ==> s'.handles[g] == s.handles[g])
    && (forall id :: id in s.issued ==> Owned(s'.issued, id, s.issued[id]))
    && (forall k :: k in s.streams && s.streams[k] != h ==> k in s'.streams && s'.streams[k] == s.streams[k])
    && (forall k :: k in s'.streams && s'.streams[k] != h ==> k in s.streams && s.streams[k] == s'.streams[k])
    && (s'.section == s.section || (OnlyAbout(s.section, h) && OnlyAbout(s'.section, h)))
  }

  lemma OthersKept(s: State, s': State, h: nat, g: nat)
    requires Touches(s, s', h) && g < |s.handles| && g != h
    requires Sound(s.issued, g, s.handles[g]) && Placed(AtHome(s, g), s.section, g, s.handles[g])
    ensures Sound(s'.issued, g, s'.handles[g]) && Placed(AtHome(s', g), s'.section, g, s'.handles[g])
  {
    assert AtHome(s, g) == AtHome(s', g);
  }

  lemma SoundGrows(issued: map<Id, nat>, more: map<Id, nat>, h: nat, x: Handle)
    requires Sound(issued, h, x) && forall id :: id in issued ==> Owned(more, id, issued[id])
    ensures Sound(more, h, x)
  {
  }

  lemma LocalChange(s: State, s': State, h: nat)
    requires Inv(s) && Touches(s, s', h)
    requires Sound(s'.issued, h, s'.handles[h]) && Placed(AtHome(s', h), s'.section, h, s'.handles[h])
    requires forall k :: k in s'.streams && s'.streams[k] == h ==> Owned(s'.issued, k, h) && s'.handles[h].eff == k
    requires SectionInv(s') && LoopInv(s')
    ensures Inv(s')
  {
    hide Sound, Placed, SectionInv, LoopInv;
    forall g: nat | g < |s'.handles|
      ensures Sound(s'.issued, g, s'.handles[g]) && Placed(AtHome(s', g), s'.section, g, s'.handles[g])
    {
      if g != h { OthersKept(s, s', h, g); }
    }
  }

  /** A stream that learns no new id does not concern the loop. */
  lemma LoopKept(s: State, s': State, h: nat)
    requires LoopInv(s) && h < |s.handles| == |s'.handles| && s'.loop == s.loop && s'.issued == s.issued
    requires forall g: nat :: g < |s.handles| && g != h ==> s'.handles[g] == s.handles[g]
    requires KnownIds(s'.handles[h]) <= KnownIds(s.handles[h])
    ensures LoopInv(s')
  {
  }

  /** What the invariant says about one stream. */
  lemma AboutStream(s: State, h: nat)
    requires Inv(s) && h < |s.handles|
    ensures Sound(s.issued, h, s.handles[h]) && Placed(AtHome(s, h), s.section, h, s.handles[h])
    ensures forall k :: k in s.streams && s.streams[k] == h ==> k == s.handles[h].eff && Owned(s.issued, k, h)
    ensures AtHome(s, h) <==> exists k :: k in s.streams && s.streams[k] == h
  {
  }

  // ----- updates of one stream's own state -----

  lemma UpdateKeepsInv(s: State, h: nat, x: Handle)
    requires Inv(s) && h < |s.handles|
    requires Sound(s.issued, h, x) && Placed(AtHome(s, h), s.section, h, x)
    requires x.eff == s.handles[h].eff && KnownIds(x) <= KnownIds(s.handles[h])
    ensures Inv(SetHandle(s, h, x))
  {
    var s' := SetHandle(s, h, x);
    assert AtHome(s', h) == AtHome(s, h);
    LoopKept(s, s', h);
    hide LoopInv, Sound, Placed, HandlesInv;
    LocalChange(s, s', h);
  }

  lemma PipeKeepsInv(s: State, h: nat, p: Pipe)
    requires Inv(s) && h < |s.handles| && PipeInv(p)
    requires p.dispatched == s.handles[h].pipe.dispatched
    requires p.open == s.handles[h].pipe.open || s.handles[h].stopped
    requires p.adapter.Leaving? ==> p.adapter == s.handles[h].pipe.adapter || p.adapter.id == s.handles[h].eff
    ensures Inv(WithPipe(s, h, p))
  {
    UpdateKeepsInv(s, h, s.handles[h].(pipe := p));
  }
}
