/** The live stream map of `Connection` together with everything that races for it: handles being
    stopped or dropped, adapter tasks, the connection loop handling frames and resuming streams,
    and shutdown. One event is one atomic load or store, or one section under the map's lock that
    touches only the map; the locked sections that also touch a stream's shared flags, `on_end`
    and the remap, are split into their atomic operations. */
module Registry {
  import opened Base
  import opened Delivery

  /** What the user's side of a stream does next. */
  datatype HandlePc =
    | Registering               // the stream is started but not yet in the map
    | Live
    | FirstLoad                 // stop or Drop has set the flag; loads effective_stream_id
    | SecondLoad(first: Id)     // loads it again
    | Stopping(ids: seq<Id>)    // sends StopStream for the first id, then unregisters it
    | Releasing                 // compare-and-swap of slot_released
    | Closed

  /** A stream: its ids, its shared flags, its user's side and its channels. History: `bare`, a
      drop outside a runtime; `lateRemaps`, how often the stream was re-keyed after its flag was
      set; `overtaken`, whether that happened after stop had loaded the ids; `takenOut`, whether the
      connection or the adapter removed its map entry. */
  datatype Handle = Handle(
    orig: Id,
    eff: Id,
    stopped: bool,
    released: bool,
    pc: HandlePc,
    pipe: Pipe,
    bare: bool,
    lateRemaps: nat,
    overtaken: bool,
    takenOut: bool)

  /** Streams are numbered in the order in which they are started. */
  type Streams = map<Id, nat>

  datatype Who = Loop | Shutdown

  /** The section in progress under the map's write lock. */
  datatype Section =
    | Free
    | Draining(who: Who)
    | EndFlag(h: nat, who: Who, drain: bool)   // on_end is about to set the stopped flag
    | EndCas(h: nat, who: Who, drain: bool)    // on_end is about to release the slot
    | RemapCheck(newId: Id, h: nat)           // the remap removed the entry and reads the flag
    | RemapStore(newId: Id, h: nat)           // it found the flag clear and stores the new id
    | RemapInsert(newId: Id, h: nat)          // it inserts the entry under the new id

  /** The connection loop: serving a connection, between connections, or in a resume pass. */
  datatype LoopPc =
    | Serving
    | Down
    | Turn(todo: seq<(Id, nat)>)
    | Await(oldId: Id, h: nat, todo: seq<(Id, nat)>)
    | Granted(newId: Id, oldId: Id, h: nat, todo: seq<(Id, nat)>)
    | Removing(oldId: Id, todo: seq<(Id, nat)>)
    | Exited

  /** `issued` is history: for which stream the server issued an id. */
  datatype State = State(
    streams: Streams,
    issued: map<Id, nat>,
    handles: seq<Handle>,
    loop: LoopPc,
    section: Section)

  datatype Event =
    // start_stream_internal and the handle
    | Accept(id: Id)              // the server grants a new stream
    | Register(h: nat)
    | Stop(h: nat)                // stop, or Drop inside a runtime
    | DropBare(h: nat)            // Drop outside a runtime
    | HandleStep(h: nat)
    | DropReceiver(h: nat)
    | Receive(h: nat)
    // the adapter task
    | PumpStep(h: nat)
    | LoadForLeaving(h: nat)
    | LeaveMap(h: nat)
    | InputEnds(h: nat)
    // frames and locked sections
    | DataFrame(data: Data)
    | EndFrame(id: Id)
    | SectionStep
    | DrainOne(id: Id)
    // the connection loop and shutdown
    | Disconnect
    | RetryOld
    | Reconnect(order: seq<Id>)
    | TurnStep
    | ResumeFailed
    | ResumeAbandoned
    | ResumeGranted(id: Id)
    | LockRemove
    | LockRemap
    | ExitLoop
    | ShutdownDrain

  function Init(): State {
    State(map[], map[], [], Serving, Free)
  }

  /** The loop is not inside a locked section of its own. */
  predicate LoopReady(s: State) {
    !(s.section.RemapCheck? || s.section.RemapStore? || s.section.RemapInsert?)
    && !((s.section.Draining? || s.section.EndFlag? || s.section.EndCas?) && s.section.who.Loop?)
  }

  /** The loop is reading frames: on a served connection, or awaiting the reply of a resume. */
  predicate Reading(s: State) {
    LoopReady(s) && (s.loop.Serving? || s.loop.Await?)
  }

  predicate AtHome(s: State, h: nat) {
    h < |s.handles| && s.handles[h].eff in s.streams && s.streams[s.handles[h].eff] == h
  }

  /** The loop's snapshot keeps a clone of the stream's sender. */
  predicate InSnapshot(l: LoopPc, h: nat) {
    || ((l.Turn? || l.Await? || l.Granted? || l.Removing?) && exists i :: 0 <= i < |l.todo| && l.todo[i].1 == h)
    || ((l.Await? || l.Granted?) && l.h == h)
  }

  predicate HandleReady(s: State, h: nat)
    requires h < |s.handles|
  {
    match s.handles[h].pc
    case Registering => false
    case Live => false
    case Stopping(ids) => ids != [] && s.section.Free?
    case Closed => false
    case _ => true
  }

  predicate SectionReady(s: State) {
    match s.section
    case Free => false
    case Draining(_) => s.streams == map[]
    case sec => sec.h < |s.handles|
  }

  predicate Enabled(s: State, e: Event) {
    match e
    case Accept(id) => id !in s.issued
    case Register(h) => h < |s.handles| && s.handles[h].pc.Registering? && s.section.Free?
    case Stop(h) => h < |s.handles| && s.handles[h].pc.Live?
    case DropBare(h) => h < |s.handles| && s.handles[h].pc.Live?
    case HandleStep(h) => h < |s.handles| && HandleReady(s, h)
    case DropReceiver(h) => h < |s.handles| && !s.handles[h].pc.Registering? && !s.handles[h].pc.Live?
    case Receive(h) => h < |s.handles| && s.handles[h].pipe.open && s.handles[h].pipe.quotes != []
    case PumpStep(h) => h < |s.handles| && CanPump(s.handles[h].pipe)
    case LoadForLeaving(h) => h < |s.handles| && s.handles[h].pipe.adapter.Rejected?
    case LeaveMap(h) => h < |s.handles| && s.handles[h].pipe.adapter.Leaving? && s.section.Free?
    case InputEnds(h) =>
      && h < |s.handles| && s.handles[h].pipe.adapter.Receiving? && s.handles[h].pipe.raw == []
      && !s.handles[h].pc.Registering? && !AtHome(s, h) && !InSnapshot(s.loop, h)
      && !(s.section.RemapCheck? || s.section.RemapStore? || s.section.RemapInsert?)
    case DataFrame(d) =>
      && Reading(s) && s.section.Free?
      && (d.id in s.streams ==> s.streams[d.id] < |s.handles| && CanDispatch(s.handles[s.streams[d.id]].pipe))
    case EndFrame(id) => Reading(s) && s.section.Free? && (id in s.streams ==> s.streams[id] < |s.handles|)
    case SectionStep => SectionReady(s)
    case DrainOne(id) => s.section.Draining? && id in s.streams && s.streams[id] < |s.handles|
    case Disconnect => s.loop.Serving? && LoopReady(s)
    case RetryOld => s.loop.Down? && LoopReady(s)
    case Reconnect(order) =>
      && s.loop.Down? && s.section.Free? && (forall i, j :: 0 <= i < j < |order| ==> order[i] != order[j])
      && (forall k :: k in order ==> k in s.streams) && (forall k :: k in s.streams ==> k in order)
    case TurnStep => s.loop.Turn? && LoopReady(s) && (s.loop.todo != [] ==> s.loop.todo[0].1 < |s.handles|)
    case ResumeFailed => s.loop.Await? && LoopReady(s)
    case ResumeAbandoned => s.loop.Await? && LoopReady(s)
    case ResumeGranted(id) => s.loop.Await? && LoopReady(s) && id !in s.issued
    case LockRemove =>
      && s.loop.Removing? && s.section.Free?
      && (s.loop.oldId in s.streams ==> s.streams[s.loop.oldId] < |s.handles|)
    case LockRemap =>
      && s.loop.Granted? && s.section.Free?
      && (s.loop.oldId in s.streams ==> s.streams[s.loop.oldId] < |s.handles|)
    case ExitLoop => (s.loop.Down? || s.loop.Serving?) && s.section.Free?
    case ShutdownDrain => s.section.Free?
  }

  function SetHandle(s: State, h: nat, x: Handle): State
    requires h < |s.handles|
  {
    s.(handles := s.handles[h := x])
  }

  /** The ids that stop sends and unregisters: the two loads and the original id, without repeats. */
  function StopIds(first: Id, second: Id, orig: Id): seq<Id> {
    [first]
    + (if second != first then [second] else [])
    + (if orig != first && orig != second then [orig] else [])
  }

  function StepHandle(s: State, h: nat): State
    requires h < |s.handles| && HandleReady(s, h)
  {
    var x := s.handles[h];
    match x.pc
    case FirstLoad => SetHandle(s, h, x.(pc := SecondLoad(x.eff)))
    case SecondLoad(first) => SetHandle(s, h, x.(pc := Stopping(StopIds(first, x.eff, x.orig))))
    case Stopping(ids) =>
      SetHandle(s, h, x.(pc := if |ids| == 1 then Releasing else Stopping(ids[1..])))
      .(streams := Without(s.streams, ids[0]))
    case Releasing => SetHandle(s, h, x.(pc := Closed, released := true))
    case _ => s
  }

  /** The stop path has loaded the ids it will unregister. */
  predicate Computed(x: Handle) {
    !x.bare && (x.pc.Stopping? || x.pc.Releasing? || x.pc.Closed?)
  }

  /** Removes the entry under `k` and, when there was one, goes on to its `on_end`. */
  function RemoveAndEnd(s: State, k: Id, who: Who, drain: bool): State
    requires k in s.streams ==> s.streams[k] < |s.handles|
  {
    if k in s.streams then
      var h := s.streams[k];
      SetHandle(s, h, s.handles[h].(takenOut := true))
      .(streams := Without(s.streams, k), section := EndFlag(h, who, drain))
    else s
  }

  function StepSection(s: State): State
    requires SectionReady(s)
  {
    match s.section
    case Draining(_) => s.(section := Free)
    case EndFlag(h, who, drain) =>
      SetHandle(s, h, s.handles[h].(stopped := true)).(section := EndCas(h, who, drain))
    case EndCas(h, who, drain) =>
      SetHandle(s, h, s.handles[h].(released := true)).(section := if drain then Draining(who) else Free)
    case RemapCheck(newId, h) =>
      if s.handles[h].stopped || s.handles[h].pipe.adapter.Gone? then
        SetHandle(s, h, s.handles[h].(takenOut := true)).(section := EndFlag(h, Loop, false))
      else s.(section := RemapStore(newId, h))
    case RemapStore(newId, h) =>
      var x := s.handles[h];
      SetHandle(s, h, x.(eff := newId,
                         lateRemaps := x.lateRemaps + if x.stopped then 1 else 0,
                         overtaken := x.overtaken || Computed(x)))
      .(section := RemapInsert(newId, h))
    case RemapInsert(newId, h) => s.(streams := s.streams[newId := h], section := Free)
    case _ => s
  }

  function StepTurn(s: State): State
    requires s.loop.Turn? && (s.loop.todo != [] ==> s.loop.todo[0].1 < |s.handles|)
  {
    if s.loop.todo == [] then s.(loop := Serving)
    else
      var (oldId, h) := s.loop.todo[0];
      var rest := s.loop.todo[1..];
      if s.handles[h].stopped || s.handles[h].pipe.adapter.Gone? then s.(loop := Removing(oldId, rest))
      else s.(loop := Await(oldId, h, rest))
  }

  function TakeForRemap(s: State): State
    requires s.loop.Granted?
  {
    var Granted(newId, oldId, _, todo) := s.loop;
    if oldId in s.streams then
      State(Without(s.streams, oldId), s.issued, s.handles, Turn(todo), RemapCheck(newId, s.streams[oldId]))
    else s.(loop := Turn(todo))
  }

  function Snapshot(m: Streams, order: seq<Id>): seq<(Id, nat)>
    requires forall k :: k in order ==> k in m
  {
    seq(|order|, i requires 0 <= i < |order| => (order[i], m[order[i]]))
  }

  function NewHandle(id: Id): Handle {
    Handle(id, id, false, false, Registering, NewPipe(), false, 0, false, false)
  }

  function WithPipe(s: State, h: nat, p: Pipe): State
    requires h < |s.handles|
  {
    SetHandle(s, h, s.handles[h].(pipe := p))
  }

  function Next(s: State, e: Event): State
    requires Enabled(s, e)
  {
    match e
    case Accept(id) => s.(issued := s.issued[id := |s.handles|], handles := s.handles + [NewHandle(id)])
    case Register(h) =>
      SetHandle(s, h, s.handles[h].(pc := Live)).(streams := s.streams[s.handles[h].orig := h])
    case Stop(h) => SetHandle(s, h, s.handles[h].(stopped := true, pc := FirstLoad))
    case DropBare(h) => SetHandle(s, h, s.handles[h].(stopped := true, pc := Releasing, bare := true))
    case HandleStep(h) => StepHandle(s, h)
    case DropReceiver(h) => WithPipe(s, h, CloseReceiver(s.handles[h].pipe))
    case Receive(h) => WithPipe(s, h, Recv(s.handles[h].pipe))
    case PumpStep(h) => WithPipe(s, h, Pump(s.handles[h].pipe))
    case LoadForLeaving(h) => WithPipe(s, h, s.handles[h].pipe.(adapter := Leaving(s.handles[h].eff)))
    case LeaveMap(h) =>
      var x := s.handles[h];
      SetHandle(s, h, x.(pipe := x.pipe.(adapter := Gone), takenOut := x.takenOut || x.eff == x.pipe.adapter.id))
      .(streams := Without(s.streams, x.pipe.adapter.id))
    case InputEnds(h) => WithPipe(s, h, s.handles[h].pipe.(adapter := Gone))
    case DataFrame(d) =>
      if d.id in s.streams then WithPipe(s, s.streams[d.id], Dispatch(s.handles[s.streams[d.id]].pipe, d)) else s
    case EndFrame(id) => RemoveAndEnd(s, id, Loop, false)
    case SectionStep => StepSection(s)
    case DrainOne(id) => RemoveAndEnd(s, id, s.section.who, true)
    case Disconnect => s.(loop := Down)
    case RetryOld => s.(loop := Serving)
    case Reconnect(order) => s.(loop := Turn(Snapshot(s.streams, order)))
    case TurnStep => StepTurn(s)
    case ResumeFailed => s.(loop := Removing(s.loop.oldId, s.loop.todo))
    case ResumeAbandoned => s.(loop := Turn(s.loop.todo))
    case ResumeGranted(id) =>
      s.(issued := s.issued[id := s.loop.h], loop := Granted(id, s.loop.oldId, s.loop.h, s.loop.todo))
    case LockRemove => RemoveAndEnd(s.(loop := Turn(s.loop.todo)), s.loop.oldId, Loop, false)
    case LockRemap => TakeForRemap(s)
    case ExitLoop => s.(loop := Exited, section := Draining(Loop))
    case ShutdownDrain => s.(section := Draining(Shutdown))
  }

  predicate Legal(es: seq<Event>)
    decreases |es|, 0
  {
    es == [] || (Legal(es[..|es| - 1]) && Enabled(After(es[..|es| - 1]), es[|es| - 1]))
  }

  function After(es: seq<Event>): State
    requires Legal(es)
    decreases |es|, 1
  {
    if es == [] then Init() else Next(After(es[..|es| - 1]), es[|es| - 1])
  }
}
