/** The request side of `Connection` in the form of its source, with arbitrary events of the
    callers in between. Every object is at all times in a state of the machine of module
    `Requests`. */
module ConnectionClass {
  import opened Base
  import opened Requests
  import Theorems = RequestsTheorems
  import Flow = RequestsFlow

  /** What `send_request` returns to its caller, unless it still waits. */
  datatype Sent = Answered(outcome: Outcome) | ChannelClosed | ClientShutdown | Waiting

  /** One pass of the `select!` loop: a request from the channel, and whether it is encoded and
      sent; a reply; something that concerns no request; a return of the loop. */
  datatype Pass = Request(encodes: bool, sends: bool, reached: bool) | Frame(origin: Origin) | OtherFrame | Return

  /** A resume turn: whether the request is sent, the replies read, and whether the wait is broken
      off if none of them is the awaited one. */
  datatype Turn = Turn(sends: bool, reached: bool, replies: seq<Origin>)

  datatype Decision = Leave | Fails | Reconnects(turns: seq<Turn>)
  datatype Round = Round(passes: seq<Pass>, decision: Decision)

  predicate IsCallers(e: Event) {
    e.Start? || e.Accept? || e.Refuse?
  }

  // ----- what the loop does -----

  /** The events of the loop, without those of the callers. */
  function LoopPart(es: seq<Event>): seq<Event>
    decreases |es|
  {
    if es == [] then [] else LoopPart(es[..|es| - 1]) + OfLoop(es[|es| - 1])
  }

  function OfLoop(e: Event): seq<Event> {
    if IsCallers(e) then [] else [e]
  }

  lemma LoopPartGrows(es: seq<Event>, e: Event)
    ensures LoopPart(es + [e]) == LoopPart(es) + OfLoop(e)
  {
    assert (es + [e])[..|es|] == es;
  }

  /** What a pass of the `select!` loop can find to do, and what it does then. */
  predicate CanServe(s: State, p: Pass) {
    match p
    case Request(_, _, _) => s.books.channel != []
    case Frame(o) => o in s.wire
    case _ => true
  }

  function EventsOf(p: Pass): seq<Event> {
    match p
    case Request(encodes, sends, reached) =>
      [Receive, Event.Insert, if !encodes then EncodeFails else if sends then Send else SendFails(reached)]
    case Frame(o) => [Reply(o)]
    case _ => []
  }

  /** Between two moments of a run the loop performs the pass, if it can at the first of them, and
      nothing else. */
  ghost predicate Serves(before: seq<Event>, after: seq<Event>, p: Pass) {
    && Legal(before) && before <= after
    && LoopPart(after) == LoopPart(before) + if CanServe(After(before), p) then EventsOf(p) else []
  }

  /** The passes before the first return. */
  function Until(passes: seq<Pass>): (n: nat)
    ensures n <= |passes|
    ensures forall i :: 0 <= i < n ==> !passes[i].Return?
    ensures n < |passes| ==> passes[n].Return?
  {
    if passes == [] || passes[0].Return? then 0 else 1 + Until(passes[1..])
  }

  /** What a resume turn reads while it awaits the reply to `id`: the outstanding ones of `replies`, up to
      its own, and it breaks off if that is not among them. */
  function Reads(wire: set<Origin>, id: Id, replies: seq<Origin>): seq<Event> {
    if replies == [] then [Abandon]
    else if replies[0] !in wire then Reads(wire, id, replies[1..])
    else if replies[0] == Resume(id) then [Reply(Resume(id))]
    else [Reply(replies[0])] + Reads(wire - {replies[0]}, id, replies[1..])
  }

  function TurnEvents(wire: set<Origin>, counter: Id, turn: Turn): seq<Event> {
    if !turn.sends then [ResumeFails(turn.reached)]
    else [ResumeSend] + Reads(wire + {Resume(counter)}, counter, turn.replies)
  }

  /** A wait ends with its own reply if that comes, and is broken off otherwise; every event before that
      is the reply to another request. */
  lemma {:induction false} ReadsEndWithOwnReplyIff(wire: set<Origin>, id: Id, replies: seq<Origin>)
    requires Resume(id) in wire
    ensures var es := Reads(wire, id, replies);
            && es != []
            && es[|es| - 1] == (if Resume(id) in replies then Reply(Resume(id)) else Abandon)
            && forall i :: 0 <= i < |es| - 1 ==> es[i].Reply? && es[i].origin in wire && es[i].origin != Resume(id)
  {
    if replies != [] {
      var rest := if replies[0] in wire then wire - {replies[0]} else wire;
      if replies[0] != Resume(id) {
        ReadsEndWithOwnReplyIff(rest, id, replies[1..]);
        assert Resume(id) in replies <==> Resume(id) in replies[1..];
      }
    }
  }

  /** The milestones of the connection loop. */
  datatype Mark = Lost | PendingFailed | NotConnected | Connected | Asked | Resumed | Left | CleanedUp | Returned

  function Marks(es: seq<Event>): seq<Mark>
    decreases |es|
  {
    if es == [] then [] else Marks(es[..|es| - 1]) + MarkOf(es[|es| - 1])
  }

  function MarkOf(e: Event): seq<Mark> {
    match e
    case Disconnect => [Lost]
    case FailPending(_) => [PendingFailed]
    case ConnectFails => [NotConnected]
    case Connect => [Connected]
    case ResumeSend => [Asked]
    case ResumeFails(_) => [Asked]
    case ResumeDone => [Resumed]
    case Exit => [Left]
    case CleanUp(_) => [CleanedUp]
    case DropReceiver => [Returned]
    case _ => []
  }

  lemma {:induction false} MarksAppend(es: seq<Event>, more: seq<Event>)
    ensures Marks(es + more) == Marks(es) + Marks(more)
    decreases |more|
  {
    hide MarkOf;
    if more == [] {
      assert es + more == es;
    } else {
      MarksAppend(es, more[..|more| - 1]);
      assert (es + more)[..|es + more| - 1] == es + more[..|more| - 1];
    }
  }

  lemma MarkOne(e: Event)
    ensures Marks([e]) == MarkOf(e)
  {
    assert [e][..0] == [];
  }

  lemma PassLeavesNoMark(p: Pass)
    ensures Marks(EventsOf(p)) == []
  {
    if p.Request? {
      var es := EventsOf(p);
      MarkOne(es[0]);
      MarkOne(es[1]);
      MarkOne(es[2]);
      MarksAppend([es[0]], [es[1]]);
      MarksAppend([es[0], es[1]], [es[2]]);
      assert es == [es[0], es[1]] + [es[2]] && [es[0], es[1]] == [es[0]] + [es[1]];
    } else if p.Frame? {
      MarkOne(Reply(p.origin));
    }
  }

  lemma ServingLeavesNoMark(before: seq<Event>, after: seq<Event>, p: Pass)
    requires Serves(before, after, p)
    ensures Marks(LoopPart(after)) == Marks(LoopPart(before))
  {
    hide Legal, After, LoopPart, EventsOf, CanServe;
    PassLeavesNoMark(p);
    MarksAppend(LoopPart(before), EventsOf(p));
    assert LoopPart(before) + [] == LoopPart(before);
  }

  lemma {:induction false} ReadsLeaveNoMark(wire: set<Origin>, id: Id, replies: seq<Origin>)
    ensures Marks(Reads(wire, id, replies)) == []
  {
    if replies == [] {
      MarkOne(Abandon);
    } else if replies[0] !in wire {
      ReadsLeaveNoMark(wire, id, replies[1..]);
    } else {
      MarkOne(Reply(replies[0]));
      if replies[0] != Resume(id) {
        ReadsLeaveNoMark(wire - {replies[0]}, id, replies[1..]);
        MarksAppend([Reply(replies[0])], Reads(wire - {replies[0]}, id, replies[1..]));
      }
    }
  }

  lemma TurnAsksOnce(wire: set<Origin>, counter: Id, turn: Turn)
    ensures Marks(TurnEvents(wire, counter, turn)) == [Asked]
  {
    MarkOne(ResumeFails(turn.reached));
    MarkOne(ResumeSend);
    ReadsLeaveNoMark(wire + {Resume(counter)}, counter, turn.replies);
    MarksAppend([ResumeSend], Reads(wire + {Resume(counter)}, counter, turn.replies));
  }

  lemma RoundGoesOn(before: seq<Mark>, rounds: seq<Round>)
    ensures before + Plan(rounds)
         == if |rounds| <= 1 || rounds[0].decision.Leave? then
              before + [Lost, PendingFailed] + [Left, CleanedUp, Returned]
            else before + [Lost, PendingFailed] + Attempt(rounds[0].decision) + Plan(rounds[1..])
  {
    hide Attempt;
    var lost := [Lost, PendingFailed];
    if |rounds| <= 1 || rounds[0].decision.Leave? {
      assert before + (lost + [Left, CleanedUp, Returned]) == before + lost + [Left, CleanedUp, Returned];
    } else {
      Regroup(before, lost, Attempt(rounds[0].decision), Plan(rounds[1..]));
    }
  }

  lemma Regroup<T>(a: seq<T>, b: seq<T>, c: seq<T>, d: seq<T>)
    ensures a + (b + (c + d)) == a + b + c + d
  {
  }

  lemma MarksGrow(es: seq<Event>, e: Event)
    requires !IsCallers(e)
    ensures Marks(LoopPart(es) + OfLoop(e)) == Marks(LoopPart(es)) + MarkOf(e)
  {
    MarkOne(e);
    MarksAppend(LoopPart(es), [e]);
  }

  /** What the loop does about its rounds: it loses each connection and fails what is pending; then it
      leaves, or dials, and asks for every stream if it reaches the server. */
  function Plan(rounds: seq<Round>): seq<Mark> {
    [Lost, PendingFailed]
    + if |rounds| <= 1 || rounds[0].decision.Leave? then [Left, CleanedUp, Returned]
      else
        Attempt(rounds[0].decision) + Plan(rounds[1..])
  }

  function Attempt(d: Decision): seq<Mark>
    requires !d.Leave?
  {
    match d
    case Fails => [NotConnected]
    case Reconnects(turns) => [Connected] + seq(|turns|, _ => Asked) + [Resumed]
  }

  predicate IsOf(e: Event, c: nat) {
    e == Event.Accept(c) || e == Refuse(c)
  }

  /** What callers leave alone. */
  predicate SameLoop(s: State, t: State) {
    && t.phase == s.phase && t.wire == s.wire && t.counter == s.counter
    && t.books.hand == s.books.hand && t.books.pending == s.books.pending && t.books.answers == s.books.answers
    && s.books.channel <= t.books.channel
    && |s.books.calls| <= |t.books.calls|
    && forall c :: 0 <= c < |s.books.calls| ==> t.books.calls[c].id == s.books.calls[c].id
  }

  lemma CallersKeepLoop(s: State, e: Event)
    requires Enabled(s, e) && IsCallers(e)
    ensures SameLoop(s, Next(s, e))
  {
  }

  lemma OthersKeepCall(s: State, e: Event, c: nat)
    requires Enabled(s, e) && !IsOf(e, c) && c < |s.books.calls|
    ensures c < |Next(s, e).books.calls| && Next(s, e).books.calls[c] == s.books.calls[c]
  {
    match e
    case FailPending(order) => Flow.DrainKeepsCalls(s.books, order);
    case CleanUp(order) => Flow.DrainKeepsCalls(s.books, order);
    case DropReceiver => Flow.DropKeepsCalls(s.books);
    case _ =>
  }

  class Connection {
    var requestId: Id
    var calls: seq<Call>
    var channel: seq<nat>
    var pendingReq: Option<nat>
    var pendingRequests: map<Id, nat>
    var answers: seq<Answer>
    var requestIdCounter: nat
    var phase: Phase

    // The server's side of the connection.
    var wire: set<Origin>

    ghost var trace: seq<Event>

    function Recorded(): Books
      reads this
    {
      Books(requestId, calls, channel, pendingReq, pendingRequests, answers)
    }

    function View(): State
      reads this
    {
      State(Recorded(), requestIdCounter, wire, phase)
    }

    /** The fields are the state reached by the run recorded in `trace`. */
    ghost predicate Valid()
      reads this
    {
      Legal(trace) && View() == After(trace)
    }

    constructor ()
      ensures Valid() && trace == [] && phase.Serving?
    {
      requestId, calls, channel, pendingReq, pendingRequests := 1, [], [], None, map[];
      answers, requestIdCounter, wire, phase := [], 1, {}, Serving;
      trace := [];
    }

    /** The object is valid and performed exactly the event `e`. */
    twostate predicate Did(e: Event)
      reads this
    {
      Valid() && trace == old(trace) + [e] && LoopPart(trace) == LoopPart(old(trace)) + OfLoop(e)
    }

    /** The scheduler performs one event. */
    method Perform(e: Event)
      requires Valid() && Enabled(View(), e)
      modifies this
      ensures Did(e) && View() == Next(old(View()), e)
    {
      hide Legal, After, Next, Enabled;
      Theorems.Extend(trace, e);
      LoopPartGrows(trace, e);
      var s := Next(View(), e);
      var b := s.books;
      requestId, calls, channel := b.next, b.calls, b.channel;
      pendingReq, pendingRequests, answers := b.hand, b.pending, b.answers;
      requestIdCounter, wire, phase := s.counter, s.wire, s.phase;
      trace := trace + [e];
    }

    /** The loop waits while callers perform any number of events. */
    method YieldToCallers()
      requires Valid()
      modifies this
      ensures Valid() && old(trace) <= trace && SameLoop(old(View()), View())
      ensures LoopPart(trace) == LoopPart(old(trace))
    {
      hide Legal, After, Next, Enabled;
      var script: seq<Event> := *;
      for i := 0 to |script|
        invariant Valid() && old(trace) <= trace && SameLoop(old(View()), View())
        invariant LoopPart(trace) == LoopPart(old(trace))
      {
        if IsCallers(script[i]) && Enabled(View(), script[i]) {
          CallersKeepLoop(View(), script[i]);
          Perform(script[i]);
        }
      }
    }

    /** Call `c` waits while the loop and other callers perform any number of events. */
    method YieldToOthers(c: nat)
      requires Valid() && c < |calls|
      modifies this
      ensures Valid() && old(trace) <= trace && c < |calls| && calls[c] == old(calls[c])
    {
      hide Legal, After, Next, Enabled;
      var script: seq<Event> := *;
      for i := 0 to |script|
        invariant Valid() && old(trace) <= trace && c < |calls| && calls[c] == old(calls[c])
      {
        if !IsOf(script[i], c) && Enabled(View(), script[i]) {
          OthersKeepCall(View(), script[i], c);
          Perform(script[i]);
        }
      }
    }

    // ----- send_request -----

    /** `request_id.fetch_add(1)`, which numbers the call. */
    method FetchAdd() returns (id: Id)
      requires Valid() && requestId + 1 < U32
      modifies this
      ensures Valid() && trace == old(trace) + [Start] && id == old(requestId)
      ensures calls == old(calls) + [Call(id, Sending)]
    {
      hide Legal, After;
      Theorems.Extend(trace, Start);
      id := requestId;
      requestId := requestId + 1;
      calls := calls + [Call(id, Sending)];
      trace := trace + [Start];
    }

    /** The channel's `send`, which is refused once the receiver is dropped, and waits while the
        channel is full. */
    method ChannelSend(c: nat) returns (sent: bool)
      requires Valid() && c < |calls| && calls[c].pc.Sending?
      modifies this
      ensures Valid() && old(trace) <= trace && c < |calls| && calls[c].id == old(calls[c]).id
      ensures sent ==> !phase.Gone? && calls[c].pc.Accepted? && c in channel
      ensures !sent ==> calls[c].pc == if phase.Gone? then Refused else Sending
      ensures !sent && !phase.Gone? ==> |channel| >= CAPACITY
    {
      hide Legal, After;
      if phase.Gone? {
        Theorems.Extend(trace, Refuse(c));
        calls := calls[c := calls[c].(pc := Refused)];
        trace := trace + [Refuse(c)];
        sent := false;
      } else if |channel| < CAPACITY {
        Theorems.Extend(trace, Event.Accept(c));
        calls := calls[c := calls[c].(pc := Accepted)];
        channel := channel + [c];
        trace := trace + [Event.Accept(c)];
        sent := true;
      } else {
        sent := false;
      }
    }

    /** `send_request`, looked at after any number of events. After a shutdown it does nothing. Otherwise the
        call is numbered and offered to the channel once: it has returned the one answer to its call, or the
        error of a closed channel, or it waits, for room in the channel or for its answer, which it does not
        once the loop is gone. */
    method SendRequest(shutdown: bool) returns (c: nat, result: Sent)
      requires Valid() && requestId + 1 < U32
      modifies this
      ensures Valid() && c == |old(calls)| && (shutdown <==> result.ClientShutdown?)
      ensures if shutdown then trace == old(trace) else old(trace) + [Start] <= trace && c < |calls|
      ensures !shutdown ==> Flow.Offers(trace[|old(trace)|..], c) == Flow.OffersOf(calls[c].pc, c)
      ensures result.Answered? ==> calls[c].pc.Accepted?
      ensures result.ChannelClosed? ==> calls[c].pc.Refused?
      ensures result.Waiting? ==> calls[c].pc.Accepted? || (calls[c].pc.Sending? && |channel| == CAPACITY)
      ensures result.Answered? ==> IsAnswered(Recorded(), c) && Answer(c, result.outcome) in answers
      ensures result.Answered? && result.outcome.Replied? ==>
                IdOf(Recorded(), result.outcome.origin) == calls[c].id
                && (result.outcome.origin.Client? ==> result.outcome.origin == Client(c))
      ensures result.Answered? ==> (Theorems.IsOwn(Answer(c, result.outcome)) <==> !Theorems.MisdeliveredTo(trace, c))
      ensures result.Answered? && !Theorems.ReadsOn(trace) ==> Theorems.IsOwn(Answer(c, result.outcome))
      ensures result.ChannelClosed? ==> phase.Gone? && !IsAnswered(Recorded(), c)
      ensures result.Waiting? ==> !phase.Gone? && !IsAnswered(Recorded(), c)
    {
      hide Valid, Legal, After, BooksInv;
      c := |calls|;
      if shutdown {
        return c, ClientShutdown;
      }
      var _ := FetchAdd();
      YieldToOthers(c);
      var sent := ChannelSend(c);
      if sent {
        YieldToOthers(c);
      }
      Reached(c);
      if !sent {
        result := if phase.Gone? then ChannelClosed else Waiting;
      } else if i :| 0 <= i < |answers| && answers[i].call == c {
        result := Answered(answers[i].outcome);
        OwnIff(i);
      } else {
        result := Waiting;
      }
      OffersAdded(c);
    }

    twostate lemma OffersAdded(c: nat)
      requires old(Valid()) && Valid() && old(trace) <= trace && c == |old(calls)| < |calls|
      ensures Flow.Offers(trace[|old(trace)|..], c) == Flow.OffersOf(calls[c].pc, c)
    {
      hide Legal, After, Flow.Offers;
      Flow.OfferedOnce(old(trace), c);
      Flow.OfferedOnce(trace, c);
      Flow.OffersAppend(old(trace), trace[|old(trace)|..], c);
      assert trace == old(trace) + trace[|old(trace)|..];
    }

    lemma Reached(c: nat)
      requires Valid() && c < |calls|
      ensures |channel| <= CAPACITY
      ensures IsPlaced(Recorded(), c)
      ensures phase.Gone? && calls[c].pc.Accepted? ==> IsAnswered(Recorded(), c)
      ensures calls[c].id == c + 1 && forall i :: 0 <= i < |answers| ==> Fits(answers[i])
    {
      Theorems.RunKeepsInv(trace);
      Flow.ChannelIsBounded(trace);
      if phase.Gone? {
        Theorems.NoneIsLeftUnanswered(trace, c);
      }
      assert IsPlaced(After(trace).books, c);
    }

    lemma OwnIff(i: nat)
      requires Valid() && i < |answers|
      ensures Theorems.IsOwn(answers[i]) <==> !Theorems.MisdeliveredTo(trace, answers[i].call)
      ensures !Theorems.ReadsOn(trace) ==> Theorems.IsOwn(answers[i])
    {
      Theorems.AnswerIsOwnIff(trace, answers[i]);
      if !Theorems.ReadsOn(trace) {
        Theorems.AnswersAreOwn(trace);
      }
    }

    // ----- the loop -----

    /** A pending request is taken out of the map and answered. */
    method RemoveAndAnswer(id: Id, outcome: Outcome)
      modifies `pendingRequests, `answers
      ensures Recorded() == AnswerPending(old(Recorded()), id, outcome)
    {
      if id in pendingRequests {
        answers := answers + [Answer(pendingRequests[id], outcome)];
        pendingRequests := Without(pendingRequests, id);
      }
    }

    /** The branch of the `select!` that receives a request: into the map first, then to the server;
        a failure to encode or to send answers it at once. */
    method ForwardRequest(encodes: bool, sends: bool, reached: bool)
      requires Valid() && phase.Serving? && channel != []
      modifies this
      ensures Valid() && old(trace) <= trace && phase.Serving?
      ensures LoopPart(trace) == LoopPart(old(trace)) + EventsOf(Request(encodes, sends, reached))
      ensures old(channel)[0] < |calls|
      ensures requestIdCounter == Max(old(requestIdCounter), calls[old(channel)[0]].id) + 1
      ensures encodes && sends ==> IsPending(Recorded(), old(channel)[0]) && Client(old(channel)[0]) in wire
      ensures !(encodes && sends) ==> IsAnswered(Recorded(), old(channel)[0]) && pendingRequests == old(pendingRequests)
    {
      hide Valid, Legal, After, AnswerPending, BooksInv, Next, Enabled, LoopPart, IsAnswered, IsPending;
      var c := channel[0];
      TakeFirst();
      YieldToCallers();
      Insert();
      YieldToCallers();
      Written(c);
      if !encodes {
        FailWrite(c, EncodeFailed, false);
      } else if sends {
        WriteOut(c);
      } else {
        FailWrite(c, SendFailed, reached);
      }
    }

    method TakeFirst()
      requires Valid() && phase.Serving? && channel != []
      modifies this
      ensures Did(Receive) && phase.Inserting?
      ensures pendingReq == Some(old(channel)[0]) && old(channel)[0] < |calls|
      ensures calls == old(calls) && pendingRequests == old(pendingRequests)
      ensures requestIdCounter == Max(old(requestIdCounter), calls[old(channel)[0]].id) + 1
    {
      hide Legal, After;
      Theorems.RequestIsInOnePlace(trace, channel[0]);
      assert InChannel(Recorded(), channel[0]);
      Theorems.Extend(trace, Receive);
      pendingReq := Some(channel[0]);
      requestIdCounter := Max(calls[channel[0]].id, requestIdCounter) + 1;
      channel := channel[1..];
      phase := Inserting;
      LoopPartGrows(trace, Receive);
      trace := trace + [Receive];
    }

    /** Nothing is overwritten in the map. */
    method Insert()
      requires Valid() && phase.Inserting?
      modifies this
      ensures Did(Event.Insert) && calls == old(calls)
      ensures requestIdCounter == old(requestIdCounter)
      ensures old(pendingReq).Some? && old(pendingReq).value < |calls| && phase == Writing(old(pendingReq).value)
      ensures var id := calls[old(pendingReq).value].id;
              id !in old(pendingRequests) && pendingRequests == old(pendingRequests)[id := old(pendingReq).value]
    {
      hide Legal, After;
      Theorems.InsertNeverOverwrites(trace);
      Theorems.Extend(trace, Event.Insert);
      var c := pendingReq.value;
      pendingRequests := pendingRequests[calls[c].id := c];
      pendingReq := None;
      phase := Writing(c);
      LoopPartGrows(trace, Event.Insert);
      trace := trace + [Event.Insert];
    }

    lemma Written(c: nat)
      requires Valid() && phase == Writing(c)
      ensures IsPending(Recorded(), c)
    {
      Theorems.RunKeepsInv(trace);
    }

    method WriteOut(c: nat)
      requires Valid() && phase == Writing(c)
      modifies this
      ensures Did(Send) && phase.Serving? && wire == old(wire) + {Client(c)}
      ensures Recorded() == old(Recorded()) && requestIdCounter == old(requestIdCounter)
    {
      hide Legal, After;
      Theorems.Extend(trace, Send);
      phase := Serving;
      wire := wire + {Client(c)};
      LoopPartGrows(trace, Send);
      trace := trace + [Send];
    }

    method FailWrite(c: nat, outcome: Outcome, reached: bool)
      requires Valid() && phase == Writing(c) && IsPending(Recorded(), c)
      requires outcome == EncodeFailed || outcome == SendFailed
      requires reached ==> outcome == SendFailed
      modifies this
      ensures Did(if outcome == EncodeFailed then EncodeFails else SendFails(reached))
      ensures phase.Serving? && calls == old(calls)
      ensures IsAnswered(Recorded(), c) && requestIdCounter == old(requestIdCounter)
      ensures pendingRequests == Without(old(pendingRequests), calls[c].id)
    {
      hide Legal, After, LoopPart;
      ghost var e := if outcome == EncodeFailed then EncodeFails else SendFails(reached);
      Theorems.Extend(trace, e);
      RemoveAndAnswer(calls[c].id, outcome);
      assert answers[|answers| - 1].call == c;
      phase := Serving;
      if reached {
        wire := wire + {Client(c)};
      }
      LoopPartGrows(trace, e);
      trace := trace + [e];
    }

    /** `handle_server_message` for a response or a server error: the reply answers the pending
        request with its id, if there is one, and no other. */
    method HandleServerMessage(o: Origin)
      requires Valid() && phase.Serving? && o in wire
      modifies this
      ensures Did(Reply(o)) && phase.Serving?
      ensures var id := IdOf(old(Recorded()), o);
              && pendingRequests == Without(old(pendingRequests), id)
              && answers == old(answers)
                 + (if id in old(pendingRequests) then [Answer(old(pendingRequests)[id], Replied(o))] else [])
              && (id in old(pendingRequests) && o.Client? ==> o == Client(old(pendingRequests)[id]))
    {
      hide Legal, After;
      Theorems.RunKeepsInv(trace);
      Theorems.Extend(trace, Reply(o));
      var id := IdOf(Recorded(), o);
      if id in pendingRequests {
        Theorems.ReplyFits(After(trace), o);
      }
      RemoveAndAnswer(id, Replied(o));
      wire := wire - {o};
      LoopPartGrows(trace, Reply(o));
      trace := trace + [Reply(o)];
    }

    /** Takes the requests out of the map one by one, in some order, and answers each. */
    method DrainPending() returns (ghost order: seq<Id>)
      modifies `pendingRequests, `answers
      ensures Recorded() == Drain(old(Recorded()), order) && pendingRequests == map[]
      ensures Lists(order, old(pendingRequests))
    {
      order := [];
      while pendingRequests != map[]
        invariant Recorded() == Drain(old(Recorded()), order)
        invariant NoDup(order) && forall k :: k in old(pendingRequests) <==> k in order || k in pendingRequests
        invariant forall k :: k in order ==> k !in pendingRequests
        decreases |pendingRequests|
      {
        var id :| id in pendingRequests;
        ghost var next := order + [id];
        assert next[..|next| - 1] == order;
        assert pendingRequests == Without(pendingRequests, id)[id := pendingRequests[id]];
        RemoveAndAnswer(id, Drained);
        order := next;
      }
    }

    /** `fail_pending_requests`: whatever the order of the map, each pending request is answered once. */
    method FailPendingRequests(ghost final: bool)
      requires Valid() && (if final then phase.Exiting? else phase.Down?)
      modifies this
      ensures |trace| > 0 && Did(trace[|trace| - 1]) && phase == (if final then Cleaned else Idle)
      ensures var e := trace[|trace| - 1]; if final then e.CleanUp? else e.FailPending?
      ensures pendingRequests == map[] && calls == old(calls) && channel == old(channel)
      ensures forall c :: IsPending(old(Recorded()), c) ==> IsAnswered(Recorded(), c)
    {
      hide Legal, After;
      ghost var before := Recorded();
      Theorems.RunKeepsInv(trace);
      ghost var order := DrainPending();
      ghost var e := if final then CleanUp(order) else FailPending(order);
      Theorems.DrainEmpties(before, order);
      Flow.DrainKeepsCalls(before, order);
      Theorems.Extend(trace, e);
      phase := if phase.Exiting? then Cleaned else Idle;
      LoopPartGrows(trace, e);
      trace := trace + [e];
      forall c | IsPending(before, c) ensures IsAnswered(Recorded(), c) {
        assert IsTaken(before, c);
      }
    }

    /** A step of the loop's own that leaves the requests alone. */
    method Move(e: Event)
      requires Valid() && Enabled(View(), e)
      requires e.Disconnect? || e.ConnectFails? || e.Connect? || e.Exit?
            || e.ResumeFails? || e.ResumeSend? || e.Abandon? || e.ResumeDone?
      modifies this
      ensures Did(e) && Recorded() == old(Recorded())
      ensures e.ResumeSend? ==> wire == old(wire) + {Resume(old(requestIdCounter))}
      ensures phase == (if e.Disconnect? then Down
                        else if e.ConnectFails? || e.ResumeDone? then Serving
                        else if e.Exit? then Exiting
                        else if e.ResumeSend? then Resuming(Some(old(requestIdCounter)))
                        else Resuming(None))
    {
      Perform(e);
    }

    /** `run_single_connection`: each pass up to the first return does its work if there is some when it
        looks, nothing else is done, and the connection is left. `looks` has the runs up to these moments. */
    method RunSingleConnection(passes: seq<Pass>) returns (ghost looks: seq<seq<Event>>)
      requires Valid() && phase.Serving?
      modifies this
      ensures Valid() && old(trace) <= trace && phase.Down?
      ensures |looks| == Until(passes) + 1 && LoopPart(looks[0]) == LoopPart(old(trace))
      ensures forall i :: 0 <= i < Until(passes) ==> Serves(looks[i], looks[i + 1], passes[i])
      ensures LoopPart(trace) == LoopPart(looks[Until(passes)]) + [Disconnect]
      ensures Marks(LoopPart(trace)) == Marks(LoopPart(old(trace))) + [Lost]
    {
      hide Valid, Legal, After, Next, AnswerPending, LoopPart, EventsOf, CanServe, Marks;
      var i, n := 0, Until(passes);
      YieldToCallers();
      looks := [trace];
      while i < n
        invariant Valid() && old(trace) <= trace && phase.Serving?
        invariant i <= n && |looks| == i + 1 && looks[i] == trace && LoopPart(looks[0]) == LoopPart(old(trace))
        invariant forall j :: 0 <= j < i ==> Serves(looks[j], looks[j + 1], passes[j])
        invariant Marks(LoopPart(trace)) == Marks(LoopPart(old(trace)))
      {
        ghost var before := trace;
        ServePass(passes[i]);
        ServingLeavesNoMark(before, trace, passes[i]);
        looks := looks + [trace];
        i := i + 1;
      }
      Move(Disconnect);
      MarksGrow(looks[n], Disconnect);
    }

    /** One pass of the `select!` loop. */
    method ServePass(p: Pass)
      requires Valid() && phase.Serving? && !p.Return?
      modifies this
      ensures Valid() && phase.Serving? && Serves(old(trace), trace, p)
    {
      hide Legal, After, Next, AnswerPending, LoopPart;
      match p {
        case Request(encodes, sends, reached) =>
          if channel != [] {
            ForwardRequest(encodes, sends, reached);
          }
        case Frame(o) =>
          if o in wire {
            HandleServerMessage(o);
          }
        case OtherFrame =>
      }
      YieldToCallers();
    }

    /** A resume turn as far as requests are concerned: the request is sent, what the server answers is read
        until its own reply comes, and whatever that is, no caller's request is touched. */
    method ResumeTurn(turn: Turn)
      requires Valid() && phase == Resuming(None)
      modifies this
      ensures Valid() && old(trace) <= trace && phase == Resuming(None)
      ensures pendingRequests == map[] && answers == old(answers)
      ensures LoopPart(trace) == LoopPart(old(trace)) + TurnEvents(old(wire), old(requestIdCounter), turn)
    {
      hide Valid, Legal, After, Next, AnswerPending, LoopPart;
      NothingPending();
      if !turn.sends {
        Move(ResumeFails(turn.reached));
        return;
      }
      var id := requestIdCounter;
      Move(ResumeSend);
      var i := 0;
      while i < |turn.replies| && phase.waits.Some?
        invariant Valid() && old(trace) <= trace && phase.Resuming? && i <= |turn.replies|
        invariant phase.waits.Some? ==> phase.waits.value == id
        invariant pendingRequests == map[] && answers == old(answers)
        invariant LoopPart(trace) + (if phase.waits.Some? then Reads(wire, id, turn.replies[i..]) else [])
               == LoopPart(old(trace)) + TurnEvents(old(wire), id, turn)
      {
        YieldToCallers();
        if turn.replies[i] in wire {
          ReadReply(turn.replies[i]);
        }
        i := i + 1;
      }
      if phase.waits.Some? {
        Move(Abandon);
      }
    }

    lemma NothingPending()
      requires Valid() && phase.Resuming?
      ensures pendingRequests == map[]
    {
      Theorems.RunKeepsInv(trace);
    }

    /** A frame read while a resume reply is awaited. */
    method ReadReply(o: Origin)
      requires Valid() && phase.Resuming? && phase.waits.Some? && o in wire
      modifies this
      ensures Did(Reply(o)) && phase.Resuming? && Recorded() == old(Recorded()) && wire == old(wire) - {o}
      ensures phase.waits.Some? ==> phase.waits == old(phase).waits
      ensures phase.waits.None? <==> o == Resume(old(phase).waits.value)
    {
      hide Legal, After, AnswerPending;
      Theorems.ResumePassIsAlone(trace, o);
      Perform(Reply(o));
    }

    /** `run_connection_loop_with_reconnect` as far as requests are concerned: what it does about its rounds,
        and that every request that the channel ever accepted has been answered when it has returned. */
    method RunConnectionLoop(rounds: seq<Round>)
      requires Valid() && phase.Serving?
      modifies this
      ensures Valid() && old(trace) <= trace && phase.Gone?
      ensures Marks(LoopPart(trace)) == Marks(LoopPart(old(trace))) + Plan(rounds)
      ensures forall c :: 0 <= c < |calls| ==> (calls[c].pc.Accepted? <==> IsAnswered(Recorded(), c))
    {
      hide Valid, Legal, After, Next, IsPlaced, AnswerPending, LoopPart, Marks;
      var i := 0;
      while true
        invariant Valid() && old(trace) <= trace && phase.Serving? && i <= |rounds|
        invariant Marks(LoopPart(trace)) + Plan(rounds[i..]) == Marks(LoopPart(old(trace))) + Plan(rounds)
        decreases |rounds| - i
      {
        ghost var before := Marks(LoopPart(trace));
        LoseConnection(if i < |rounds| then rounds[i].passes else []);
        YieldToCallers();
        RoundGoesOn(before, rounds[i..]);
        if |rounds| <= i + 1 || rounds[i].decision.Leave? {
          break;
        }
        Reconnect(rounds[i].decision);
        assert rounds[i..][1..] == rounds[i + 1..];
        i := i + 1;
      }
      LeaveLoop();
    }

    /** The connection is served until it is lost, and the requests pending on it are failed. */
    method LoseConnection(passes: seq<Pass>)
      requires Valid() && phase.Serving?
      modifies this
      ensures Valid() && old(trace) <= trace && phase.Idle?
      ensures Marks(LoopPart(trace)) == Marks(LoopPart(old(trace))) + [Lost, PendingFailed]
    {
      hide Valid, Legal, After, Next, AnswerPending, LoopPart, Marks;
      ghost var _ := RunSingleConnection(passes);
      ghost var before := trace;
      FailPendingRequests(false);
      MarksGrow(before, trace[|trace| - 1]);
    }

    /** Dials, and resumes the streams on a connection. */
    method Reconnect(d: Decision)
      requires Valid() && phase.Idle? && !d.Leave?
      modifies this
      ensures Valid() && old(trace) <= trace && phase.Serving?
      ensures Marks(LoopPart(trace)) == Marks(LoopPart(old(trace))) + Attempt(d)
    {
      hide Valid, Legal, After, Next, AnswerPending, LoopPart, Marks;
      ghost var before := trace;
      if d.Fails? {
        Move(ConnectFails);
        MarksGrow(before, ConnectFails);
      } else {
        Move(Connect);
        MarksGrow(before, Connect);
        ResumeAll(d.turns);
      }
    }

    /** What follows the loop: the clean-up, and the return that drops the receiver. */
    method LeaveLoop()
      requires Valid() && phase.Idle?
      modifies this
      ensures Valid() && old(trace) <= trace && phase.Gone?
      ensures Marks(LoopPart(trace)) == Marks(LoopPart(old(trace))) + [Left, CleanedUp, Returned]
      ensures forall c :: 0 <= c < |calls| ==> (calls[c].pc.Accepted? <==> IsAnswered(Recorded(), c))
    {
      hide Valid, Legal, After, Next, IsPlaced, AnswerPending, LoopPart, Marks;
      ghost var before := trace;
      Move(Exit);
      MarksGrow(before, Exit);
      before := trace;
      FailPendingRequests(true);
      MarksGrow(before, trace[|trace| - 1]);
      YieldToCallers();
      before := trace;
      DropTheReceiver();
      MarksGrow(before, DropReceiver);
    }

    method ResumeAll(turns: seq<Turn>)
      requires Valid() && phase == Resuming(None)
      modifies this
      ensures Valid() && old(trace) <= trace && phase.Serving?
      ensures Marks(LoopPart(trace)) == Marks(LoopPart(old(trace))) + seq(|turns|, _ => Asked) + [Resumed]
    {
      hide Valid, Legal, After, Next, AnswerPending, LoopPart, Marks, TurnEvents;
      var j := 0;
      while j < |turns|
        invariant Valid() && old(trace) <= trace && phase == Resuming(None) && j <= |turns|
        invariant Marks(LoopPart(trace)) == Marks(LoopPart(old(trace))) + seq(j, _ => Asked)
      {
        ghost var before := LoopPart(trace);
        TurnAsksOnce(wire, requestIdCounter, turns[j]);
        MarksAppend(before, TurnEvents(wire, requestIdCounter, turns[j]));
        ResumeTurn(turns[j]);
        j := j + 1;
      }
      ghost var before := trace;
      Move(ResumeDone);
      MarksGrow(before, ResumeDone);
    }

    method DropTheReceiver()
      requires Valid() && phase.Cleaned?
      modifies this
      ensures Did(DropReceiver) && phase.Gone?
      ensures forall c :: 0 <= c < |calls| ==> (calls[c].pc.Accepted? <==> IsAnswered(Recorded(), c))
    {
      hide Legal, After, IsPlaced;
      ghost var before := Recorded();
      while channel != []
        invariant DropChannel(Recorded()) == DropChannel(before)
        invariant phase == old(phase) && trace == old(trace)
        invariant wire == old(wire) && requestIdCounter == old(requestIdCounter)
        decreases |channel|
      {
        answers := answers + [Answer(channel[0], ChannelDropped)];
        channel := channel[1..];
      }
      Theorems.Extend(trace, DropReceiver);
      phase := Gone;
      LoopPartGrows(trace, DropReceiver);
      trace := trace + [DropReceiver];
      forall c | 0 <= c < |calls| ensures calls[c].pc.Accepted? <==> IsAnswered(Recorded(), c) {
        Theorems.NoneIsLeftUnanswered(trace, c);
      }
    }
  }
}
