/** What the request side gets done: the channel is first in, first out, a call is offered to it
    once, and a request that nothing disturbs gets its own reply. */
module RequestsFlow {
  import opened Base
  import opened Requests
  import opened RequestsTheorems

  // ----- the offers of a call -----

  /** The events at which the channel takes or refuses the request of call `c`. */
  function Offers(es: seq<Event>, c: nat): seq<Event>
    decreases |es|
  {
    if es == [] then [] else Offers(es[..|es| - 1], c) + Offer(es[|es| - 1], c)
  }

  function Offer(e: Event, c: nat): seq<Event> {
    if e == Event.Accept(c) || e == Refuse(c) then [e] else []
  }

  lemma {:induction false} OffersAppend(es: seq<Event>, more: seq<Event>, c: nat)
    ensures Offers(es + more, c) == Offers(es, c) + Offers(more, c)
    decreases |more|
  {
    hide Offer;
    if more == [] {
      assert es + more == es;
    } else {
      OffersAppend(es, more[..|more| - 1], c);
      assert (es + more)[..|es + more| - 1] == es + more[..|more| - 1];
    }
  }

  /** The offers that have brought a call where it stands. */
  function OffersOf(pc: CallPc, c: nat): seq<Event> {
    match pc
    case Sending => []
    case Accepted => [Event.Accept(c)]
    case Refused => [Refuse(c)]
  }

  lemma {:induction false} DrainKeepsCalls(b: Books, order: seq<Id>)
    ensures Drain(b, order).calls == b.calls && Drain(b, order).channel == b.channel
    decreases |order|
  {
    if order != [] {
      DrainKeepsCalls(b, order[..|order| - 1]);
    }
  }

  lemma {:induction false} DropKeepsCalls(b: Books)
    ensures DropChannel(b).calls == b.calls && DropChannel(b).channel == []
    decreases |b.channel|
  {
    if b.channel != [] {
      DropKeepsCalls(b.(channel := b.channel[1..], answers := b.answers + [Answer(b.channel[0], ChannelDropped)]));
    }
  }

  /** What an event puts into the channel, and what it takes out of it. */
  function Puts(e: Event): seq<nat> {
    match e case Accept(c) => [c] case _ => []
  }

  function Takes(s: State, e: Event): seq<nat> {
    match e
    case Receive => if s.books.channel == [] then [] else [s.books.channel[0]]
    case DropReceiver => s.books.channel
    case _ => []
  }

  /** What an event does to the calls and to the channel. */
  ghost predicate CallsMove(s: State, e: Event, t: State) {
    var b, b' := s.books, t.books;
    && |b'.calls| == |b.calls| + (if e.Start? then 1 else 0)
    && (e.Start? ==> b'.calls[|b.calls|].pc.Sending?)
    && (forall c :: 0 <= c < |b.calls| ==>
          b'.calls[c].pc == match e
                            case Accept(d) => if d == c then Accepted else b.calls[c].pc
                            case Refuse(d) => if d == c then Refused else b.calls[c].pc
                            case _ => b.calls[c].pc)
    && (e.Accept? || e.Refuse? ==> e.call < |b.calls| && b.calls[e.call].pc.Sending?)
    && b.channel + Puts(e) == Takes(s, e) + b'.channel
  }

  lemma CallersMove(s: State, e: Event)
    requires Enabled(s, e) && (e.Start? || e.Accept? || e.Refuse?)
    ensures CallsMove(s, e, Next(s, e))
  {
  }

  lemma DrainsMove(s: State, e: Event)
    requires Enabled(s, e) && (e.FailPending? || e.CleanUp? || e.DropReceiver?)
    ensures CallsMove(s, e, Next(s, e))
  {
    hide Drain, DropChannel;
    match e
    case FailPending(order) => DrainKeepsCalls(s.books, order);
    case CleanUp(order) => DrainKeepsCalls(s.books, order);
    case DropReceiver => DropKeepsCalls(s.books);
  }

  lemma Moves(s: State, e: Event)
    requires Enabled(s, e)
    ensures CallsMove(s, e, Next(s, e))
  {
    if e.Start? || e.Accept? || e.Refuse? {
      CallersMove(s, e);
    } else if e.FailPending? || e.CleanUp? || e.DropReceiver? {
      DrainsMove(s, e);
    }
  }

  /** The offers of a call in state `s`, none if it has not begun. */
  function Offered(s: State, c: nat): seq<Event> {
    if c < |s.books.calls| then OffersOf(s.books.calls[c].pc, c) else []
  }

  lemma OfferMoves(s: State, e: Event, c: nat)
    requires Enabled(s, e)
    ensures Offered(Next(s, e), c) == Offered(s, c) + Offer(e, c)
  {
    hide Next, Enabled;
    Moves(s, e);
  }

  /** A call is offered to the channel at most once, and stands where that offer has brought it. */
  lemma {:induction false} OfferedOnce(trace: seq<Event>, c: nat)
    requires Legal(trace)
    ensures Offers(trace, c) == Offered(After(trace), c)
    decreases |trace|
  {
    if trace != [] {
      var before, e := trace[..|trace| - 1], trace[|trace| - 1];
      OfferedOnce(before, c);
      hide Next, Enabled, Offered, Offer;
      OfferMoves(After(before), e, c);
    }
  }

  // ----- the order of requests -----

  /** The channel never holds more requests than it has room for. */
  lemma {:induction false} ChannelIsBounded(trace: seq<Event>)
    requires Legal(trace)
    ensures |After(trace).books.channel| <= CAPACITY
    decreases |trace|
  {
    if trace != [] {
      var before, e := trace[..|trace| - 1], trace[|trace| - 1];
      ChannelIsBounded(before);
      hide Next;
      Moves(After(before), e);
      assert |Takes(After(before), e)| + |After(trace).books.channel| == |After(before).books.channel| + |Puts(e)|;
    }
  }

  /** The calls whose requests the channel accepted, and those whose requests left it, in order. */
  function AcceptedCalls(trace: seq<Event>): seq<nat>
    decreases |trace|
  {
    if trace == [] then [] else AcceptedCalls(trace[..|trace| - 1]) + Puts(trace[|trace| - 1])
  }

  function TakenCalls(trace: seq<Event>): seq<nat>
    requires Legal(trace)
    decreases |trace|
  {
    if trace == [] then []
    else TakenCalls(trace[..|trace| - 1]) + Takes(After(trace[..|trace| - 1]), trace[|trace| - 1])
  }

  /** Requests leave the channel in the order in which it accepted them, and none is lost in it. */
  lemma {:induction false} RequestsAreTakenInOrder(trace: seq<Event>)
    requires Legal(trace)
    ensures AcceptedCalls(trace) == TakenCalls(trace) + After(trace).books.channel
    decreases |trace|
  {
    if trace != [] {
      var before, e := trace[..|trace| - 1], trace[|trace| - 1];
      RequestsAreTakenInOrder(before);
      hide Next, Enabled, Puts, Takes;
      var s := After(before);
      ChannelMoves(s, e);
      Carry(TakenCalls(before), s.books.channel, Puts(e), Takes(s, e), After(trace).books.channel);
    }
  }

  lemma ChannelMoves(s: State, e: Event)
    requires Enabled(s, e)
    ensures s.books.channel + Puts(e) == Takes(s, e) + Next(s, e).books.channel
  {
    hide Next, Enabled;
    Moves(s, e);
  }

  lemma Carry<T>(taken: seq<T>, before: seq<T>, puts: seq<T>, takes: seq<T>, after: seq<T>)
    requires before + puts == takes + after
    ensures taken + before + puts == taken + takes + after
  {
    assert taken + (before + puts) == taken + before + puts;
    assert taken + (takes + after) == taken + takes + after;
  }

  /** The accepted calls are those that the channel took, each once. */
  lemma {:induction false} AcceptedCallsAre(trace: seq<Event>)
    requires Legal(trace)
    ensures NoDup(AcceptedCalls(trace))
    ensures forall c: nat :: c in AcceptedCalls(trace) <==>
                               c < |After(trace).books.calls| && After(trace).books.calls[c].pc.Accepted?
    decreases |trace|
  {
    if trace != [] {
      var before, e := trace[..|trace| - 1], trace[|trace| - 1];
      AcceptedCallsAre(before);
      hide Next, Enabled;
      Moves(After(before), e);
    }
  }

  // ----- the ids of resume requests -----

  /** The id that the loop sees or uses at an event, if there is one, and whether it is for a resume. */
  function IdUsed(s: State, e: Event): Option<Id> {
    match e
    case Receive =>
      if s.books.channel != [] && s.books.channel[0] < |s.books.calls| then Some(s.books.calls[s.books.channel[0]].id)
      else None
    case ResumeSend => Some(s.counter)
    case ResumeFails(_) => Some(s.counter)
    case _ => None
  }

  predicate IsResume(e: Event) {
    e.ResumeSend? || e.ResumeFails?
  }

  lemma CounterMoves(s: State, e: Event)
    requires Enabled(s, e)
    ensures Next(s, e).counter >= s.counter
    ensures IdUsed(s, e).Some? ==> IdUsed(s, e).value < Next(s, e).counter
    ensures IsResume(e) ==> IdUsed(s, e) == Some(s.counter)
    ensures e.ResumeSend? ==> Next(s, e).phase == Resuming(IdUsed(s, e)) && Resume(s.counter) in Next(s, e).wire
  {
  }

  /** Every id that the loop has seen or used is below its counter. */
  lemma {:induction false} CounterIsAhead(trace: seq<Event>, i: nat)
    requires Legal(trace) && i < |trace|
    ensures Legal(trace[..i])
    ensures var id := IdUsed(After(trace[..i]), trace[i]); id.Some? ==> id.value < After(trace).counter
    decreases |trace|
  {
    var before, e := trace[..|trace| - 1], trace[|trace| - 1];
    hide Next, Enabled, IdUsed;
    CounterMoves(After(before), e);
    if i < |before| {
      CounterIsAhead(before, i);
      assert before[..i] == trace[..i];
    }
  }

  /** A resume request has an id larger than that of every request that the loop has forwarded, and of
      every resume request before it. */
  lemma ResumeIdsAreNew(trace: seq<Event>, i: nat, j: nat)
    requires Legal(trace) && i < j < |trace| && IsResume(trace[j])
    ensures Legal(trace[..i]) && Legal(trace[..j])
    ensures IdUsed(After(trace[..j]), trace[j]).Some?
    ensures IdUsed(After(trace[..i]), trace[i]).Some? ==>
              IdUsed(After(trace[..i]), trace[i]).value < IdUsed(After(trace[..j]), trace[j]).value
  {
    hide Next, Enabled, IdUsed;
    PrefixIsLegal(trace, j + 1);
    assert trace[..j + 1][..j] == trace[..j];
    CounterMoves(After(trace[..j]), trace[j]);
    CounterIsAhead(trace[..j], i);
    assert trace[..j][..i] == trace[..i];
  }

  lemma {:induction false} PrefixIsLegal(trace: seq<Event>, i: nat)
    requires Legal(trace) && i <= |trace|
    ensures Legal(trace[..i])
    decreases |trace|
  {
    hide Next, Enabled;
    if i < |trace| {
      PrefixIsLegal(trace[..|trace| - 1], i);
      assert trace[..|trace| - 1][..i] == trace[..i];
    } else {
      assert trace[..i] == trace;
    }
  }

  // ----- a request that nothing disturbs -----

  /** Whatever the run so far, when the loop serves a connection and nothing disturbs it, the request at
      the front of the channel is sent to the server and the server's reply is its one answer. */
  lemma UndisturbedRequestIsAnswered(trace: seq<Event>) returns (more: seq<Event>)
    requires Legal(trace) && After(trace).phase.Serving? && After(trace).books.channel != []
    ensures var c := After(trace).books.channel[0];
            && more == [Receive, Event.Insert, Send, Reply(Client(c))] && Legal(trace + more)
            && After(trace + more).phase.Serving?
            && After(trace + more).books.channel == After(trace).books.channel[1..]
            && After(trace + more).books.answers == After(trace).books.answers + [Answer(c, Replied(Client(c)))]
  {
    hide Legal, After, AnswerPending;
    var c := After(trace).books.channel[0];
    more := [Receive, Event.Insert, Send, Reply(Client(c))];
    FrontIsACall(trace);
    Extend(trace, Receive);
    var t := trace + [Receive];
    Extend(t, Event.Insert);
    t := t + [Event.Insert];
    Extend(t, Send);
    t := t + [Send];
    AnswersIt(After(t).books, c);
    Extend(t, Reply(Client(c)));
    assert trace + more == t + [Reply(Client(c))];
  }

  lemma FrontIsACall(trace: seq<Event>)
    requires Legal(trace) && After(trace).books.channel != []
    ensures After(trace).books.channel[0] < |After(trace).books.calls|
  {
    RunKeepsInv(trace);
    var b := After(trace).books;
    assert InChannel(b, b.channel[0]) && IsPlaced(b, b.channel[0]);
  }

  lemma AnswersIt(b: Books, c: nat)
    requires c < |b.calls| && b.calls[c].id in b.pending && b.pending[b.calls[c].id] == c
    ensures AnswerPending(b, b.calls[c].id, Replied(Client(c))).answers == b.answers + [Answer(c, Replied(Client(c)))]
    ensures AnswerPending(b, b.calls[c].id, Replied(Client(c))).channel == b.channel
  {
  }
}
