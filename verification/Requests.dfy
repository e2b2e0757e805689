/** The request side of `Connection` as a machine: callers of `send_request`, the bounded channel,
    the map of pending requests, the connection loop, and the requests outstanding at the server on
    the present connection, among them those of resume passes. One event is one atomic operation;
    the scheduler and the server are arbitrary, except that the server answers a request at most
    once, with the id of that request. */
module Requests {
  import opened Base

  const CAPACITY: nat := 32

  /** Who sent a request: the call of `send_request` with this number, or the resume pass. */
  datatype Origin = Client(call: nat) | Resume(id: Id)

  /** How a caller was answered: by a response or server error, sent for the request of `origin`,
      or with one of the errors of the loop. */
  datatype Outcome = Replied(origin: Origin) | EncodeFailed | SendFailed | Drained | ChannelDropped

  datatype Answer = Answer(call: nat, outcome: Outcome)

  /** A call of `send_request`: before its request is accepted by the channel, after, or refused. */
  datatype CallPc = Sending | Accepted | Refused
  datatype Call = Call(id: Id, pc: CallPc)

  /** The program counter of the connection loop. */
  datatype Phase =
    | Serving                       // in the `select!` of `run_single_connection`
    | Inserting                     // holds a received request
    | Writing(call: nat)            // the request is in the map, being encoded and sent
    | Down                          // `run_single_connection` has returned
    | Idle                          // pending requests have been failed
    | Resuming(waits: Option<Id>)   // in `resume_streams`, perhaps awaiting a reply
    | Exiting                       // left the loop
    | Cleaned                       // final clean-up done
    | Gone                          // the task has returned, its receiver is dropped

  /** The callers' requests, and where each is: in the channel, held by the loop, pending, answered. */
  datatype Books = Books(
    next: Id,
    calls: seq<Call>,
    channel: seq<nat>,
    hand: Option<nat>,
    pending: map<Id, nat>,
    answers: seq<Answer>)

  /** The loop's own counter, and the requests outstanding at the server. */
  datatype State = State(books: Books, counter: nat, wire: set<Origin>, phase: Phase)

  datatype Event =
    | Start                         // `fetch_add` on the request counter
    | Accept(call: nat)             // the channel takes the request
    | Refuse(call: nat)             // the channel is closed
    | Receive
    | Insert
    | EncodeFails
    | Send
    | SendFails(reached: bool)      // the server may have got it nevertheless
    | Reply(origin: Origin)         // a response or a server error
    | Disconnect                    // any of the returns of `run_single_connection`
    | FailPending(order: seq<Id>)
    | ConnectFails                  // the loop runs on over the old socket
    | Connect                       // a new socket
    | ResumeSend
    | ResumeFails(reached: bool)
    | Abandon                       // the wait for a reply is broken off
    | ResumeDone
    | Exit
    | CleanUp(order: seq<Id>)
    | DropReceiver

  function Init(): State {
    State(Books(1, [], [], None, map[], []), 1, {}, Serving)
  }

  function IdOf(b: Books, o: Origin): Id {
    match o
    case Client(c) => if c < |b.calls| then b.calls[c].id else 0
    case Resume(id) => id
  }

  // ----- the books -----

  function StartCall(b: Books): Books {
    b.(next := b.next + 1, calls := b.calls + [Call(b.next, Sending)])
  }

  predicate IsSending(b: Books, c: nat) {
    c < |b.calls| && b.calls[c].pc.Sending?
  }

  function AcceptCall(b: Books, c: nat): Books
    requires IsSending(b, c)
  {
    b.(calls := b.calls[c := b.calls[c].(pc := Accepted)], channel := b.channel + [c])
  }

  function RefuseCall(b: Books, c: nat): Books
    requires IsSending(b, c)
  {
    b.(calls := b.calls[c := b.calls[c].(pc := Refused)])
  }

  function TakeFromChannel(b: Books): Books
    requires b.channel != []
  {
    b.(hand := Some(b.channel[0]), channel := b.channel[1..])
  }

  predicate Holds(b: Books, c: nat) {
    b.hand == Some(c) && c < |b.calls|
  }

  function InsertHeld(b: Books, c: nat): Books
    requires Holds(b, c)
  {
    b.(hand := None, pending := b.pending[b.calls[c].id := c])
  }

  /** Removes the pending request under `id`, if there is one, and answers it. */
  function AnswerPending(b: Books, id: Id, outcome: Outcome): Books {
    if id in b.pending then
      b.(pending := Without(b.pending, id), answers := b.answers + [Answer(b.pending[id], outcome)])
    else b
  }

  /** The order in which a drain visits the map. */
  predicate Lists(order: seq<Id>, pending: map<Id, nat>) {
    NoDup(order) && (forall k :: k in order ==> k in pending) && (forall k :: k in pending ==> k in order)
  }

  /** Answers the pending requests listed in `order`. */
  function Drain(b: Books, order: seq<Id>): Books
    decreases |order|
  {
    if order == [] then b else AnswerPending(Drain(b, order[..|order| - 1]), order[|order| - 1], Drained)
  }

  /** Drops the requests left in the channel, and with each its response sender. */
  function DropChannel(b: Books): Books
    decreases |b.channel|
  {
    if b.channel == [] then b
    else DropChannel(b.(channel := b.channel[1..], answers := b.answers + [Answer(b.channel[0], ChannelDropped)]))
  }

  // ----- the machine -----

  /** Which events can happen. The first assumes that the client's 32-bit request counter does not
      wrap. */
  predicate Enabled(s: State, e: Event) {
    match e
    case Start => s.books.next + 1 < U32
    case Accept(c) => IsSending(s.books, c) && !s.phase.Gone? && |s.books.channel| < CAPACITY
    case Refuse(c) => IsSending(s.books, c) && s.phase.Gone?
    case Receive => s.phase.Serving? && s.books.channel != [] && s.books.channel[0] < |s.books.calls|
    case Insert => s.phase.Inserting? && s.books.hand.Some? && Holds(s.books, s.books.hand.value)
    case EncodeFails => s.phase.Writing?
    case Send => s.phase.Writing?
    case SendFails(_) => s.phase.Writing?
    case Reply(o) => o in s.wire && (s.phase.Serving? || (s.phase.Resuming? && s.phase.waits.Some?))
    case Disconnect => s.phase.Serving?
    case FailPending(order) => s.phase.Down? && Lists(order, s.books.pending)
    case ConnectFails => s.phase.Idle?
    case Connect => s.phase.Idle?
    case ResumeSend => s.phase.Resuming? && s.phase.waits.None?
    case ResumeFails(_) => s.phase.Resuming? && s.phase.waits.None?
    case Abandon => s.phase.Resuming? && s.phase.waits.Some?
    case ResumeDone => s.phase.Resuming? && s.phase.waits.None?
    case Exit => s.phase.Idle?
    case CleanUp(order) => s.phase.Exiting? && Lists(order, s.books.pending)
    case DropReceiver => s.phase.Cleaned?
  }

  function Next(s: State, e: Event): State
    requires Enabled(s, e)
  {
    match e
    case Start => s.(books := StartCall(s.books))
    case Accept(c) => s.(books := AcceptCall(s.books, c))
    case Refuse(c) => s.(books := RefuseCall(s.books, c))
    case Receive =>
      s.(phase := Inserting, books := TakeFromChannel(s.books),
         counter := Max(s.books.calls[s.books.channel[0]].id, s.counter) + 1)
    case Insert => s.(phase := Writing(s.books.hand.value), books := InsertHeld(s.books, s.books.hand.value))
    case EncodeFails => s.(phase := Serving, books := AnswerWritten(s, EncodeFailed))
    case Send => s.(phase := Serving, wire := s.wire + {Client(s.phase.call)})
    case SendFails(reached) =>
      s.(phase := Serving, books := AnswerWritten(s, SendFailed),
         wire := if reached then s.wire + {Client(s.phase.call)} else s.wire)
    case Reply(o) => HandleReply(s, o)
    case Disconnect => s.(phase := Down)
    case FailPending(order) => s.(phase := Idle, books := Drain(s.books, order))
    case ConnectFails => s.(phase := Serving)
    case Connect => s.(phase := Resuming(None), wire := {})
    case ResumeSend =>
      s.(phase := Resuming(Some(s.counter)), wire := s.wire + {Resume(s.counter)}, counter := s.counter + 1)
    case ResumeFails(reached) =>
      s.(wire := if reached then s.wire + {Resume(s.counter)} else s.wire, counter := s.counter + 1)
    case Abandon => s.(phase := Resuming(None))
    case ResumeDone => s.(phase := Serving)
    case Exit => s.(phase := Exiting)
    case CleanUp(order) => s.(phase := Cleaned, books := Drain(s.books, order))
    case DropReceiver => s.(phase := Gone, books := DropChannel(s.books))
  }

  function AnswerWritten(s: State, outcome: Outcome): Books
    requires s.phase.Writing?
  {
    AnswerPending(s.books, IdOf(s.books, Client(s.phase.call)), outcome)
  }

  /** The reply that a resume turn waits for ends its wait; any other reply goes to
      `handle_server_message`. */
  function HandleReply(s: State, o: Origin): State {
    var id := IdOf(s.books, o);
    if s.phase == Resuming(Some(id)) then s.(phase := Resuming(None), wire := s.wire - {o})
    else s.(books := AnswerPending(s.books, id, Replied(o)), wire := s.wire - {o})
  }

  /** The runs of the machine and the states they lead to. */
  predicate Legal(trace: seq<Event>)
    decreases |trace|, 0
  {
    trace == [] || (Legal(trace[..|trace| - 1]) && Enabled(After(trace[..|trace| - 1]), trace[|trace| - 1]))
  }

  function After(trace: seq<Event>): State
    requires Legal(trace)
    decreases |trace|, 1
  {
    if trace == [] then Init() else Next(After(trace[..|trace| - 1]), trace[|trace| - 1])
  }

  // ----- where a request is -----

  predicate InChannel(b: Books, c: nat) { c in b.channel }

  predicate InHand(b: Books, c: nat) { b.hand == Some(c) }

  predicate IsPending(b: Books, c: nat) {
    c < |b.calls| && b.calls[c].id in b.pending && b.pending[b.calls[c].id] == c
  }

  predicate IsAnswered(b: Books, c: nat) {
    exists i :: 0 <= i < |b.answers| && b.answers[i].call == c
  }

  predicate InOnePlace(b: Books, c: nat) {
    var w, x, y, z := InChannel(b, c), InHand(b, c), IsPending(b, c), IsAnswered(b, c);
    (w || x || y || z) && !(w && x) && !(w && y) && !(w && z) && !(x && y) && !(x && z) && !(y && z)
  }

  predicate InNoPlace(b: Books, c: nat) {
    !InChannel(b, c) && !InHand(b, c) && !IsPending(b, c) && !IsAnswered(b, c)
  }

  // ----- the invariant -----

  /** Ids are handed out in order. */
  ghost predicate IdsInv(b: Books) {
    b.next == |b.calls| + 1 && forall c :: 0 <= c < |b.calls| ==> b.calls[c].id == c + 1
  }

  /** An accepted request is in exactly one place, any other in none. */
  predicate IsPlaced(b: Books, c: nat) {
    if c < |b.calls| && b.calls[c].pc.Accepted? then InOnePlace(b, c) else InNoPlace(b, c)
  }

  ghost predicate PlaceInv(b: Books) {
    forall c: nat :: IsPlaced(b, c)
  }

  /** Channel and answers hold a call at most once, and the map's keys are the ids of its calls. */
  ghost predicate HoldsInv(b: Books) {
    && NoDup(b.channel)
    && (forall k :: k in b.pending ==> k > 0 && b.pending[k] == k - 1 && k - 1 < |b.calls|)
    && (forall i, j :: 0 <= i < j < |b.answers| ==> b.answers[i].call != b.answers[j].call)
  }

  /** A reply has the id of the request that it answers. */
  predicate Fits(a: Answer) {
    a.outcome.Replied? ==>
      match a.outcome.origin
      case Client(c) => c == a.call
      case Resume(id) => id == a.call + 1
  }

  ghost predicate BooksInv(b: Books) {
    IdsInv(b) && HoldsInv(b) && PlaceInv(b) && forall i :: 0 <= i < |b.answers| ==> Fits(b.answers[i])
  }

  ghost predicate PhaseInv(b: Books, wire: set<Origin>, phase: Phase) {
    && (b.hand.Some? <==> phase.Inserting?)
    && (phase.Writing? ==> IsPending(b, phase.call) && Client(phase.call) !in wire)
    && (phase.Idle? || phase.Resuming? || phase.Exiting? || phase.Cleaned? || phase.Gone? ==> b.pending == map[])
    && (phase.Gone? ==> b.channel == [])
  }

  /** The request has been taken out of the channel and into the map. */
  predicate IsTaken(b: Books, c: nat) {
    IsPending(b, c) || IsAnswered(b, c)
  }

  /** What is outstanding was taken from the channel, or sent by the resume pass of this connection. */
  ghost predicate WireInv(b: Books, counter: nat, wire: set<Origin>, phase: Phase) {
    && (forall c: nat :: Client(c) in wire ==> IsTaken(b, c))
    && (forall n: nat :: Resume(n) in wire ==> n < counter)
    && (phase.Resuming? ==> forall c: nat :: Client(c) !in wire)
    && (phase.Resuming? && phase.waits.Some? ==> Resume(phase.waits.value) in wire)
  }

  ghost predicate Inv(s: State) {
    BooksInv(s.books) && PhaseInv(s.books, s.wire, s.phase) && WireInv(s.books, s.counter, s.wire, s.phase)
  }
}
