/** What every run of the request side guarantees. */
module RequestsTheorems {
  import opened Base
  import opened Requests

  // ----- the books stay in order -----

  lemma StartKeeps(b: Books)
    requires BooksInv(b)
    ensures BooksInv(StartCall(b)) && forall c: nat :: IsTaken(b, c) ==> IsTaken(StartCall(b), c)
    ensures forall c: nat :: IsPending(b, c) ==> IsPending(StartCall(b), c)
  {
    var b' := StartCall(b);
    forall d: nat
      ensures IsPlaced(b', d) && (IsTaken(b', d) <==> IsTaken(b, d)) && (IsPending(b, d) <==> IsPending(b', d))
    {
      assert IsPlaced(b, d) && (IsAnswered(b', d) <==> IsAnswered(b, d));
    }
  }

  lemma AcceptKeeps(b: Books, c: nat)
    requires BooksInv(b) && IsSending(b, c)
    ensures BooksInv(AcceptCall(b, c)) && forall d: nat :: IsTaken(b, d) ==> IsTaken(AcceptCall(b, c), d)
    ensures forall d: nat :: IsPending(b, d) ==> IsPending(AcceptCall(b, c), d)
  {
    var b' := AcceptCall(b, c);
    assert IsPlaced(b, c);
    forall d: nat
      ensures IsPlaced(b', d) && (IsTaken(b', d) <==> IsTaken(b, d)) && (IsPending(b, d) <==> IsPending(b', d))
    {
      assert IsPlaced(b, d) && (IsAnswered(b', d) <==> IsAnswered(b, d));
      assert InChannel(b', d) <==> InChannel(b, d) || d == c;
    }
  }

  lemma RefuseKeeps(b: Books, c: nat)
    requires BooksInv(b) && IsSending(b, c)
    ensures BooksInv(RefuseCall(b, c)) && forall d: nat :: IsTaken(b, d) ==> IsTaken(RefuseCall(b, c), d)
  {
    var b' := RefuseCall(b, c);
    forall d: nat ensures IsPlaced(b', d) && (IsTaken(b', d) <==> IsTaken(b, d)) {
      assert IsPlaced(b, d) && (IsAnswered(b', d) <==> IsAnswered(b, d));
    }
  }

  lemma TakeKeeps(b: Books)
    requires BooksInv(b) && b.channel != [] && b.hand.None?
    ensures BooksInv(TakeFromChannel(b)) && forall d: nat :: IsTaken(b, d) ==> IsTaken(TakeFromChannel(b), d)
  {
    var b' := TakeFromChannel(b);
    assert InChannel(b, b.channel[0]);
    forall d: nat ensures IsPlaced(b', d) && (IsTaken(b', d) <==> IsTaken(b, d)) {
      assert IsPlaced(b, d) && (IsAnswered(b', d) <==> IsAnswered(b, d));
      assert InChannel(b, d) <==> InChannel(b', d) || d == b.channel[0];
    }
  }

  lemma InsertKeeps(b: Books, c: nat)
    requires BooksInv(b) && Holds(b, c)
    ensures BooksInv(InsertHeld(b, c)) && forall d: nat :: IsTaken(b, d) ==> IsTaken(InsertHeld(b, c), d)
    ensures b.calls[c].id !in b.pending && IsPending(InsertHeld(b, c), c) && !IsTaken(b, c)
  {
    var b' := InsertHeld(b, c);
    assert InHand(b, c) && IsPlaced(b, c);
    forall d: nat ensures IsPlaced(b', d) && (IsTaken(b', d) <==> IsTaken(b, d) || d == c) {
      assert IsPlaced(b, d) && (IsAnswered(b', d) <==> IsAnswered(b, d));
    }
  }

  /** Answering a pending request moves it from the map to the answers. */
  lemma AnsweringMoves(b: Books, id: Id, outcome: Outcome)
    requires BooksInv(b) && id in b.pending
    ensures var b' := AnswerPending(b, id, outcome);
            forall d: nat ::
              && (IsPending(b', d) <==> IsPending(b, d) && d != id - 1)
              && (IsAnswered(b', d) <==> IsAnswered(b, d) || d == id - 1)
  {
    var b' := AnswerPending(b, id, outcome);
    forall d: nat ensures IsAnswered(b', d) <==> IsAnswered(b, d) || d == id - 1 {
      if d == id - 1 {
        assert b'.answers[|b.answers|].call == d;
      } else if IsAnswered(b, d) {
        var i :| 0 <= i < |b.answers| && b.answers[i].call == d;
        assert b'.answers[i].call == d;
      }
    }
  }

  lemma AnswerKeeps(b: Books, id: Id, outcome: Outcome)
    requires BooksInv(b) && (id in b.pending ==> Fits(Answer(b.pending[id], outcome)))
    ensures var b' := AnswerPending(b, id, outcome);
            BooksInv(b') && forall d: nat :: IsTaken(b, d) ==> IsTaken(b', d)
  {
    if id in b.pending {
      var b' := AnswerPending(b, id, outcome);
      AnsweringMoves(b, id, outcome);
      assert IsPending(b, id - 1) && IsPlaced(b, id - 1);
      forall d: nat ensures IsPlaced(b', d) && (IsTaken(b', d) <==> IsTaken(b, d)) {
        assert IsPlaced(b, d);
      }
    }
  }

  /** A drain answers exactly the requests that were pending. */
  lemma {:induction false} DrainKeeps(b: Books, order: seq<Id>)
    requires BooksInv(b) && NoDup(order)
    ensures var b' := Drain(b, order);
            && BooksInv(b') && b'.calls == b.calls && b'.channel == b.channel && b'.hand == b.hand
            && (forall k :: k in b'.pending <==> k in b.pending && k !in order)
            && (forall d: nat :: IsTaken(b, d) ==> IsTaken(b', d))
    decreases |order|
  {
    if order != [] {
      var rest, last := order[..|order| - 1], order[|order| - 1];
      DrainKeeps(b, rest);
      AnswerKeeps(Drain(b, rest), last, Drained);
      assert order == rest + [last];
    }
  }

  /** Dropping the receiver answers exactly the requests left in the channel. */
  lemma {:induction false} DropKeeps(b: Books)
    requires BooksInv(b)
    ensures var b' := DropChannel(b);
            && BooksInv(b') && b'.calls == b.calls && b'.pending == b.pending && b'.hand == b.hand && b'.channel == []
            && (forall d: nat :: IsTaken(b, d) ==> IsTaken(b', d))
    decreases |b.channel|
  {
    if b.channel != [] {
      var c := b.channel[0];
      var b' := b.(channel := b.channel[1..], answers := b.answers + [Answer(c, ChannelDropped)]);
      assert InChannel(b, c) && IsPlaced(b, c);
      forall d: nat ensures IsAnswered(b', d) <==> IsAnswered(b, d) || d == c {
        if d == c {
          assert b'.answers[|b.answers|].call == d;
        } else if IsAnswered(b, d) {
          var i :| 0 <= i < |b.answers| && b.answers[i].call == d;
          assert b'.answers[i].call == d;
        }
      }
      forall d: nat ensures IsPlaced(b', d) && (IsTaken(b, d) ==> IsTaken(b', d)) {
        assert IsPlaced(b, d) && (InChannel(b, d) <==> InChannel(b', d) || d == c);
      }
      DropKeeps(b');
    }
  }

  // ----- every event keeps the invariant -----

  lemma KeepsInv(s: State, e: Event)
    requires Inv(s) && Enabled(s, e)
    ensures Inv(Next(s, e))
  {
    hide BooksInv, AnswerPending, Drain, DropChannel, IsTaken, IsPending;
    hide StartCall, AcceptCall, RefuseCall, TakeFromChannel, InsertHeld;
    match e
    case Start => CallerKeeps(s, e);
    case Accept(_) => CallerKeeps(s, e);
    case Refuse(_) => CallerKeeps(s, e);
    case Receive => TakeKeeps(s.books); TakenFrame(s.books);
    case Insert => InsertKeeps(s.books, s.books.hand.value); InsertedIsNotSent(s);
    case EncodeFails => WriteKeeps(s, e);
    case Send => WriteKeeps(s, e);
    case SendFails(_) => WriteKeeps(s, e);
    case Reply(o) => ReplyKeeps(s, o);
    case FailPending(order) => DrainEmpties(s.books, order);
    case CleanUp(order) => DrainEmpties(s.books, order);
    case DropReceiver => DropKeeps(s.books);
    case _ =>
  }

  lemma TakenFrame(b: Books)
    requires b.channel != []
    ensures TakeFromChannel(b).pending == b.pending && TakeFromChannel(b).hand.Some?
  {
  }

  lemma CallerKeeps(s: State, e: Event)
    requires Inv(s) && Enabled(s, e) && (e.Start? || e.Accept? || e.Refuse?)
    ensures Inv(Next(s, e))
  {
    hide BooksInv, IsTaken, IsPending;
    match e
    case Start => StartKeeps(s.books);
    case Accept(c) => AcceptKeeps(s.books, c);
    case Refuse(c) => RefuseKeeps(s.books, c);
  }

  lemma InsertedIsNotSent(s: State)
    requires Inv(s) && Enabled(s, Insert)
    ensures Client(s.books.hand.value) !in s.wire && InsertHeld(s.books, s.books.hand.value).hand.None?
  {
    InsertKeeps(s.books, s.books.hand.value);
  }

  lemma AnswerFrame(b: Books, id: Id, outcome: Outcome)
    ensures var b' := AnswerPending(b, id, outcome);
            b'.hand == b.hand && b'.channel == b.channel && (b.pending == map[] ==> b' == b)
  {
  }

  /** The end of a write answers its own request, or leaves it pending and outstanding. */
  lemma WriteKeeps(s: State, e: Event)
    requires Inv(s) && Enabled(s, e) && (e.EncodeFails? || e.Send? || e.SendFails?)
    ensures Inv(Next(s, e))
  {
    hide BooksInv, AnswerPending, IsPending;
    var outcome := if e.EncodeFails? then EncodeFailed else SendFailed;
    AnswerKeeps(s.books, IdOf(s.books, Client(s.phase.call)), outcome);
    AnswerFrame(s.books, IdOf(s.books, Client(s.phase.call)), outcome);
  }

  /** The id of an outstanding request finds that request, or none, unless it is a resume's. */
  lemma ReplyFits(s: State, o: Origin)
    requires Inv(s) && o in s.wire && IdOf(s.books, o) in s.books.pending
    ensures Fits(Answer(s.books.pending[IdOf(s.books, o)], Replied(o)))
  {
  }

  lemma ReplyKeeps(s: State, o: Origin)
    requires Inv(s) && Enabled(s, Reply(o))
    ensures Inv(Next(s, Reply(o)))
  {
    hide BooksInv, AnswerPending, Fits, IsTaken, IsPending;
    var id := IdOf(s.books, o);
    if id in s.books.pending {
      ReplyFits(s, o);
    }
    AnswerKeeps(s.books, id, Replied(o));
    AnswerFrame(s.books, id, Replied(o));
  }

  lemma DrainEmpties(b: Books, order: seq<Id>)
    requires BooksInv(b) && Lists(order, b.pending)
    ensures BooksInv(Drain(b, order)) && Drain(b, order).pending == map[] && Drain(b, order).channel == b.channel
    ensures Drain(b, order).hand == b.hand && forall d: nat :: IsTaken(b, d) ==> IsTaken(Drain(b, order), d)
  {
    DrainKeeps(b, order);
    assert Drain(b, order).pending.Keys == {};
  }

  lemma {:induction false} RunKeepsInv(trace: seq<Event>)
    requires Legal(trace)
    ensures Inv(After(trace))
    decreases |trace|
  {
    if trace != [] {
      RunKeepsInv(trace[..|trace| - 1]);
      KeepsInv(After(trace[..|trace| - 1]), trace[|trace| - 1]);
    }
  }

  lemma Extend(trace: seq<Event>, e: Event)
    requires Legal(trace) && Enabled(After(trace), e)
    ensures Legal(trace + [e]) && After(trace + [e]) == Next(After(trace), e)
  {
    hide Next, Enabled;
    assert (trace + [e])[..|trace|] == trace;
  }

  // ----- one outcome per request -----

  /** A request that the channel accepted is at all times in exactly one of: the channel, the loop's
      hand, the map of pending requests, the answers; a request not accepted is in none. */
  lemma RequestIsInOnePlace(trace: seq<Event>, c: nat)
    requires Legal(trace)
    ensures var b := After(trace).books;
            if c < |b.calls| && b.calls[c].pc.Accepted? then InOnePlace(b, c) else InNoPlace(b, c)
  {
    RunKeepsInv(trace);
    assert IsPlaced(After(trace).books, c);
  }

  /** No call is answered twice. */
  lemma AnsweredOnce(trace: seq<Event>, i: nat, j: nat)
    requires Legal(trace) && i < |After(trace).books.answers| && j < |After(trace).books.answers|
    requires After(trace).books.answers[i].call == After(trace).books.answers[j].call
    ensures i == j
  {
    RunKeepsInv(trace);
  }

  lemma {:induction false} DrainAppends(b: Books, order: seq<Id>)
    ensures b.answers <= Drain(b, order).answers
    decreases |order|
  {
    if order != [] {
      DrainAppends(b, order[..|order| - 1]);
    }
  }

  lemma {:induction false} DropAppends(b: Books)
    ensures b.answers <= DropChannel(b).answers
    decreases |b.channel|
  {
    if b.channel != [] {
      DropAppends(b.(channel := b.channel[1..], answers := b.answers + [Answer(b.channel[0], ChannelDropped)]));
    }
  }

  /** An answer once given stands. */
  lemma AnswersStand(s: State, e: Event)
    requires Enabled(s, e)
    ensures s.books.answers <= Next(s, e).books.answers
  {
    match e
    case FailPending(order) => DrainAppends(s.books, order);
    case CleanUp(order) => DrainAppends(s.books, order);
    case DropReceiver => DropAppends(s.books);
    case _ =>
  }

  /** Failing the pending requests answers each of them, and nothing stays pending. */
  lemma DisconnectAnswersPending(trace: seq<Event>, order: seq<Id>, c: nat)
    requires Legal(trace) && Enabled(After(trace), FailPending(order)) && IsPending(After(trace).books, c)
    ensures var s' := Next(After(trace), FailPending(order));
            IsAnswered(s'.books, c) && s'.books.pending == map[]
  {
    RunKeepsInv(trace);
    DrainEmpties(After(trace).books, order);
    assert IsTaken(After(trace).books, c);
  }

  /** Once the loop has returned, every accepted request has been answered and none is accepted any
      more. */
  lemma NoneIsLeftUnanswered(trace: seq<Event>, c: nat)
    requires Legal(trace) && After(trace).phase.Gone? && c < |After(trace).books.calls|
    ensures After(trace).books.calls[c].pc.Accepted? <==> IsAnswered(After(trace).books, c)
    ensures !Enabled(After(trace), Accept(c))
  {
    RunKeepsInv(trace);
    assert IsPlaced(After(trace).books, c);
  }

  // ----- ids -----

  /** The id of a request about to be inserted is not in the map: no insert overwrites another. */
  lemma InsertNeverOverwrites(trace: seq<Event>)
    requires Legal(trace) && After(trace).phase.Inserting?
    ensures var b := After(trace).books;
            b.hand.Some? && b.hand.value < |b.calls| && b.calls[b.hand.value].id !in b.pending
  {
    RunKeepsInv(trace);
    var b := After(trace).books;
    assert InHand(b, b.hand.value) && IsPlaced(b, b.hand.value);
  }

  /** Throughout a resume pass nothing is pending and no client's request is outstanding, so no
      reply of that time answers a client; and the reply that ends a wait is the awaited one. */
  lemma ResumePassIsAlone(trace: seq<Event>, o: Origin)
    requires Legal(trace) && After(trace).phase.Resuming? && o in After(trace).wire
    ensures var s := After(trace);
            && s.books.pending == map[] && o.Resume?
            && (Enabled(s, Reply(o)) ==> Next(s, Reply(o)).books == s.books)
            && (Enabled(s, Reply(o)) && Next(s, Reply(o)).phase.waits.None? ==> o == Resume(s.phase.waits.value))
  {
    RunKeepsInv(trace);
  }

  /** The request of an abandoned wait: outstanding, and nobody's. */
  predicate IsAbandoned(s: State, id: Id) {
    Resume(id) in s.wire && s.phase != Resuming(Some(id))
  }

  /** Two requests with one id are outstanding together only if one of them is the request of an
      abandoned wait, and the other a client's. */
  lemma SameIdNeedsAbandonedWait(trace: seq<Event>, o: Origin, p: Origin)
    requires Legal(trace) && o in After(trace).wire && p in After(trace).wire && o != p
    requires var b := After(trace).books; IdOf(b, o) == IdOf(b, p)
    ensures o.Client? != p.Client?
    ensures IsAbandoned(After(trace), IdOf(After(trace).books, o))
  {
    RunKeepsInv(trace);
    var b := After(trace).books;
    if o.Client? {
      assert IsTaken(b, o.call) && IsPlaced(b, o.call);
    }
    if p.Client? {
      assert IsTaken(b, p.call) && IsPlaced(b, p.call);
    }
  }

  /** A pending request can only be answered by its own reply, if and only if no request of an
      abandoned wait with its id is outstanding on the connection. */
  lemma RepliesAreOwnIff(trace: seq<Event>, c: nat)
    requires Legal(trace) && After(trace).phase.Serving? && IsPending(After(trace).books, c)
    ensures var s := After(trace);
            var id := s.books.calls[c].id;
            (forall o :: Enabled(s, Reply(o)) && IdOf(s.books, o) == id ==> o == Client(c)) <==> !IsAbandoned(s, id)
  {
    RunKeepsInv(trace);
    var s := After(trace);
    if IsAbandoned(s, c + 1) {
      assert Enabled(s, Reply(Resume(c + 1)));
    }
  }

  // ----- whose answer a call receives -----

  /** The event hands a caller the reply to a resume request: nobody awaits that request any more,
      and its id is that of a pending one. */
  predicate Misdelivers(s: State, e: Event) {
    e.Reply? && e.origin.Resume? && s.phase != Resuming(Some(e.origin.id)) && e.origin.id in s.books.pending
  }

  /** Some event of the run handed call `c` such a reply. */
  predicate MisdeliveredTo(trace: seq<Event>, c: nat)
    requires Legal(trace)
    decreases |trace|
  {
    trace != []
    && var before, e := trace[..|trace| - 1], trace[|trace| - 1];
       || MisdeliveredTo(before, c)
       || (Misdelivers(After(before), e) && After(before).books.pending[e.origin.id] == c)
  }

  predicate NoMisdelivery(trace: seq<Event>)
    requires Legal(trace)
    decreases |trace|
  {
    trace == []
    || (NoMisdelivery(trace[..|trace| - 1]) && !Misdelivers(After(trace[..|trace| - 1]), trace[|trace| - 1]))
  }

  /** The reply was sent for the call's own request; the loop's errors concern nobody else. */
  predicate IsOwn(a: Answer) {
    a.outcome.Replied? ==> a.outcome.origin == Client(a.call)
  }

  ghost predicate AllOwn(b: Books) {
    forall a :: a in b.answers ==> IsOwn(a)
  }

  lemma {:induction false} DrainAnswersOwn(b: Books, order: seq<Id>, a: Answer)
    requires a in Drain(b, order).answers && a !in b.answers
    ensures IsOwn(a)
    decreases |order|
  {
    if order != [] && a in Drain(b, order[..|order| - 1]).answers {
      DrainAnswersOwn(b, order[..|order| - 1], a);
    }
  }

  lemma {:induction false} DropAnswersOwn(b: Books, a: Answer)
    requires a in DropChannel(b).answers && a !in b.answers
    ensures IsOwn(a)
    decreases |b.channel|
  {
    if b.channel != [] {
      var dropped := Answer(b.channel[0], ChannelDropped);
      if a != dropped {
        DropAnswersOwn(b.(channel := b.channel[1..], answers := b.answers + [dropped]), a);
      }
    }
  }

  /** A new answer is own unless the event that gives it misdelivers. */
  lemma NewAnswer(s: State, e: Event, a: Answer)
    requires Inv(s) && Enabled(s, e) && a in Next(s, e).books.answers && a !in s.books.answers
    ensures IsOwn(a) <==> !(Misdelivers(s, e) && s.books.pending[e.origin.id] == a.call)
  {
    match e
    case FailPending(order) => DrainAnswersOwn(s.books, order, a);
    case CleanUp(order) => DrainAnswersOwn(s.books, order, a);
    case DropReceiver => DropAnswersOwn(s.books, a);
    case Reply(o) =>
      if IdOf(s.books, o) in s.books.pending {
        ReplyFits(s, o);
      }
    case _ =>
  }

  lemma MisdeliveryAnswers(s: State, e: Event)
    requires Inv(s) && Enabled(s, e) && Misdelivers(s, e)
    ensures var c := s.books.pending[e.origin.id];
            !IsAnswered(s.books, c) && IsAnswered(Next(s, e).books, c)
  {
    var id := e.origin.id;
    AnsweringMoves(s.books, id, Replied(e.origin));
    assert IsPending(s.books, id - 1) && IsPlaced(s.books, id - 1);
  }

  lemma {:induction false} MisdeliveredIsAnswered(trace: seq<Event>, c: nat)
    requires Legal(trace) && MisdeliveredTo(trace, c)
    ensures IsAnswered(After(trace).books, c)
    decreases |trace|
  {
    var before, e := trace[..|trace| - 1], trace[|trace| - 1];
    RunKeepsInv(before);
    if MisdeliveredTo(before, c) {
      MisdeliveredIsAnswered(before, c);
      AnswersStand(After(before), e);
      var b := After(before).books;
      var i :| 0 <= i < |b.answers| && b.answers[i].call == c;
      assert After(trace).books.answers[i].call == c;
    } else {
      MisdeliveryAnswers(After(before), e);
    }
  }

  /** Two answers of one state to the same call are the same. */
  lemma OneAnswer(b: Books, a: Answer, c: Answer)
    requires HoldsInv(b) && a in b.answers && c in b.answers && a.call == c.call
    ensures a == c
  {
  }

  lemma BooksHold(s: State)
    requires Inv(s)
    ensures HoldsInv(s.books)
  {
  }

  /** A call that was handed such a reply gets no answer after it. */
  lemma NoSecondAnswer(trace: seq<Event>, a: Answer)
    requires Legal(trace) && trace != [] && a in After(trace).books.answers
    requires MisdeliveredTo(trace[..|trace| - 1], a.call)
    ensures a in After(trace[..|trace| - 1]).books.answers
  {
    var before, e := trace[..|trace| - 1], trace[|trace| - 1];
    var answers := After(before).books.answers;
    MisdeliveredIsAnswered(before, a.call);
    var i :| 0 <= i < |answers| && answers[i].call == a.call;
    AnswersStand(After(before), e);
    RunKeepsInv(trace);
    BooksHold(After(trace));
    assert After(trace).books.answers[i] == answers[i];
    OneAnswer(After(trace).books, a, answers[i]);
  }

  /** Over any number of reconnects, the answer that a call has received was sent for its own request
      if and only if no event handed it the reply to an abandoned resume request. */
  lemma {:induction false} AnswerIsOwnIff(trace: seq<Event>, a: Answer)
    requires Legal(trace) && a in After(trace).books.answers
    ensures IsOwn(a) <==> !MisdeliveredTo(trace, a.call)
    decreases |trace|
  {
    var before, e := trace[..|trace| - 1], trace[|trace| - 1];
    var s := After(before);
    RunKeepsInv(before);
    hide Inv, Next, Enabled;
    if a in s.books.answers {
      AnswerIsOwnIff(before, a);
      if Misdelivers(s, e) {
        MisdeliveryAnswers(s, e);
        var i :| 0 <= i < |s.books.answers| && s.books.answers[i] == a;
        assert IsAnswered(s.books, a.call);
      }
    } else {
      NewAnswer(s, e, a);
      if MisdeliveredTo(before, a.call) {
        NoSecondAnswer(trace, a);
      }
    }
  }

  lemma {:induction false} NobodyMisdelivered(trace: seq<Event>, c: nat)
    requires Legal(trace) && NoMisdelivery(trace)
    ensures !MisdeliveredTo(trace, c)
    decreases |trace|
  {
    if trace != [] {
      NobodyMisdelivered(trace[..|trace| - 1], c);
    }
  }

  lemma {:induction false} SomebodyMisdelivered(trace: seq<Event>) returns (c: nat)
    requires Legal(trace) && !NoMisdelivery(trace)
    ensures MisdeliveredTo(trace, c)
    decreases |trace|
  {
    var before, e := trace[..|trace| - 1], trace[|trace| - 1];
    if NoMisdelivery(before) {
      c := After(before).books.pending[e.origin.id];
    } else {
      c := SomebodyMisdelivered(before);
    }
  }

  /** All answers of a run are own exactly when none of its events misdelivers. */
  lemma AnswersAreOwnIff(trace: seq<Event>)
    requires Legal(trace)
    ensures AllOwn(After(trace).books) <==> NoMisdelivery(trace)
  {
    var b := After(trace).books;
    if NoMisdelivery(trace) {
      forall a | a in b.answers ensures IsOwn(a) {
        AnswerIsOwnIff(trace, a);
        NobodyMisdelivered(trace, a.call);
      }
    } else {
      var c := SomebodyMisdelivered(trace);
      MisdeliveredIsAnswered(trace, c);
      var i :| 0 <= i < |b.answers| && b.answers[i].call == c;
      AnswerIsOwnIff(trace, b.answers[i]);
      assert b.answers[i] in b.answers;
    }
  }

  /** On the present connection a wait for a resume reply was broken off, or a failed resume request
      reached the server. */
  predicate BrokenOff(trace: seq<Event>)
    decreases |trace|
  {
    trace != []
    && var e := trace[|trace| - 1];
       e.Abandon? || e == ResumeFails(true) || (!e.Connect? && BrokenOff(trace[..|trace| - 1]))
  }

  /** The loop, serving a connection, read a reply from it after a wait was broken off on it. */
  predicate ReadsOn(trace: seq<Event>)
    requires Legal(trace)
    decreases |trace|
  {
    trace != []
    && var before, e := trace[..|trace| - 1], trace[|trace| - 1];
       ReadsOn(before) || (e.Reply? && After(before).phase.Serving? && BrokenOff(before))
  }

  lemma ResumeStaysAwaited(s: State, e: Event)
    requires Inv(s) && Enabled(s, e) && !e.Abandon? && e != ResumeFails(true)
    requires e.Connect? || forall n: nat :: Resume(n) in s.wire ==> s.phase == Resuming(Some(n))
    ensures forall n: nat :: Resume(n) in Next(s, e).wire ==> Next(s, e).phase == Resuming(Some(n))
  {
  }

  lemma {:induction false} UnbrokenIsAwaited(trace: seq<Event>)
    requires Legal(trace) && !BrokenOff(trace)
    ensures var s := After(trace); forall n: nat :: Resume(n) in s.wire ==> s.phase == Resuming(Some(n))
    decreases |trace|
  {
    if trace != [] {
      var before, e := trace[..|trace| - 1], trace[|trace| - 1];
      if !e.Connect? {
        UnbrokenIsAwaited(before);
      }
      RunKeepsInv(before);
      ResumeStaysAwaited(After(before), e);
    }
  }

  /** If the loop reads no more replies from a connection on which a wait was broken off, every
      response or server error that a caller receives was sent for its own request, whatever waits
      are broken off and however often the connection is replaced. */
  lemma {:induction false} AnswersAreOwn(trace: seq<Event>)
    requires Legal(trace) && !ReadsOn(trace)
    ensures NoMisdelivery(trace) && AllOwn(After(trace).books)
    decreases |trace|
  {
    if trace != [] {
      var before, e := trace[..|trace| - 1], trace[|trace| - 1];
      AnswersAreOwn(before);
      RunKeepsInv(before);
      if Misdelivers(After(before), e) && !BrokenOff(before) {
        UnbrokenIsAwaited(before);
      }
    }
    AnswersAreOwnIff(trace);
  }

  // ----- a late reply -----

  /** The events can happen one after the other from `s`, and lead to the result. */
  ghost function Run(s: State, es: seq<Event>): Option<State>
    decreases |es|
  {
    if es == [] then Some(s)
    else if Enabled(s, es[0]) then Run(Next(s, es[0]), es[1..])
    else None
  }

  lemma {:induction false} RunIsLegal(trace: seq<Event>, es: seq<Event>)
    requires Legal(trace) && Run(After(trace), es).Some?
    ensures Legal(trace + es) && After(trace + es) == Run(After(trace), es).value
    decreases |es|
  {
    hide Next, Enabled;
    if es == [] {
      assert trace + es == trace;
    } else {
      Extend(trace, es[0]);
      RunIsLegal(trace + [es[0]], es[1..]);
      assert trace + [es[0]] + es[1..] == trace + es;
    }
  }

  lemma RunThree(s: State, e: Event, f: Event, g: Event, s1: State, s2: State, s3: State)
    requires Enabled(s, e) && Next(s, e) == s1
    requires Enabled(s1, f) && Next(s1, f) == s2
    requires Enabled(s2, g) && Next(s2, g) == s3
    ensures Run(s, [e, f, g]) == Some(s3)
  {
    hide Next, Enabled;
    assert [e, f, g][1..] == [f, g] && [f, g][1..] == [g] && [g][1..] == [];
    assert Run(s2, [g]) == Run(s3, []);
    assert Run(s1, [f, g]) == Run(s2, [g]);
  }

  predicate IsQuiet(b: Books) {
    b.channel == [] && b.hand.None? && b.pending == map[] && b.next + 1 < U32
  }

  /** The next call, sent and taken from the channel while nothing else is going on. */
  function Taken(b: Books): Books {
    b.(next := b.next + 1, calls := b.calls + [Call(b.next, Accepted)], hand := Some(|b.calls|))
  }

  lemma CallIsTaken(b: Books, counter: nat, wire: set<Origin>)
    requires IsQuiet(b)
    ensures Run(State(b, counter, wire, Serving), [Start, Event.Accept(|b.calls|), Receive])
         == Some(State(Taken(b), Max(b.next, counter) + 1, wire, Inserting))
  {
    hide Run;
    var c, b1 := |b.calls|, StartCall(b);
    var b2 := AcceptCall(b1, c);
    assert b2.calls == b.calls + [Call(b.next, Accepted)] && b2.channel == [c];
    assert TakeFromChannel(b2) == Taken(b);
    RunThree(State(b, counter, wire, Serving), Start, Event.Accept(c), Receive,
             State(b1, counter, wire, Serving), State(b2, counter, wire, Serving),
             State(Taken(b), Max(b.next, counter) + 1, wire, Inserting));
  }

  /** The request in the loop's hand is sent, and the reply to `o`, which has its id, answers it. */
  lemma CallIsReplied(b: Books, c: nat, counter: nat, wire: set<Origin>, o: Origin)
    requires Holds(b, c) && b.pending == map[] && o in wire + {Client(c)} && IdOf(b, o) == b.calls[c].id
    ensures Run(State(b, counter, wire, Inserting), [Insert, Send, Reply(o)])
         == Some(State(b.(hand := None, answers := b.answers + [Answer(c, Replied(o))]), counter,
                       wire + {Client(c)} - {o}, Serving))
  {
    hide Run;
    var b1 := InsertHeld(b, c);
    var b2 := b.(hand := None, answers := b.answers + [Answer(c, Replied(o))]);
    assert Without(b1.pending, b.calls[c].id) == map[];
    assert AnswerPending(b1, IdOf(b1, o), Replied(o)) == b2;
    RunThree(State(b, counter, wire, Inserting), Insert, Send, Reply(o),
             State(b1, counter, wire, Writing(c)), State(b1, counter, wire + {Client(c)}, Serving),
             State(b2, counter, wire + {Client(c)} - {o}, Serving));
  }

  /** The connection is lost; after the reconnect the wait of a resume turn is broken off. */
  lemma ConnectionIsReplaced(b: Books, counter: nat, wire: set<Origin>)
    requires b.pending == map[]
    ensures Run(State(b, counter, wire, Serving), [Disconnect, FailPending([]), Connect])
         == Some(State(b, counter, {}, Resuming(None)))
  {
    hide Run;
    RunThree(State(b, counter, wire, Serving), Disconnect, FailPending([]), Connect,
             State(b, counter, wire, Down), State(b, counter, wire, Idle), State(b, counter, {}, Resuming(None)));
  }

  lemma WaitIsBrokenOff(b: Books, counter: nat)
    ensures Run(State(b, counter, {}, Resuming(None)), [ResumeSend, Abandon, ResumeDone])
         == Some(State(b, counter + 1, {Resume(counter)}, Serving))
  {
    hide Run;
    RunThree(State(b, counter, {}, Resuming(None)), ResumeSend, Abandon, ResumeDone,
             State(b, counter + 1, {Resume(counter)}, Resuming(Some(counter))),
             State(b, counter + 1, {Resume(counter)}, Resuming(None)),
             State(b, counter + 1, {Resume(counter)}, Serving));
  }

  /** One call and its reply, a reconnect whose resume turn breaks off its wait, the next call, and
      the late reply to the resume request. */
  function LateReply(): seq<Event> {
    [Start, Event.Accept(0), Receive] + [Insert, Send, Reply(Client(0))]
    + [Disconnect, FailPending([]), Connect] + [ResumeSend, Abandon, ResumeDone]
    + [Start, Event.Accept(1), Receive] + [Insert, Send, Reply(Resume(2))]
  }

  /** A wait broken off by a socket error, over which frames still arrive, lets a call receive the
      reply to another request: the loop's counter and the client's hand out the same id. */
  lemma LateReplyAnswersAnother()
    ensures Legal(LateReply()) && Answer(1, Replied(Resume(2))) in After(LateReply()).books.answers
  {
    hide Next, Enabled, Run;
    var b0 := Init().books;
    CallIsTaken(b0, 1, {});
    RunIsLegal([], [Start, Event.Accept(0), Receive]);
    var t := [] + [Start, Event.Accept(0), Receive];
    CallIsReplied(Taken(b0), 0, 2, {}, Client(0));
    RunIsLegal(t, [Insert, Send, Reply(Client(0))]);
    t := t + [Insert, Send, Reply(Client(0))];
    var b1 := Taken(b0).(hand := None, answers := [Answer(0, Replied(Client(0)))]);
    assert {} + {Client(0)} - {Client(0)} == {};
    assert After(t) == State(b1, 2, {}, Serving);
    ConnectionIsReplaced(b1, 2, {});
    RunIsLegal(t, [Disconnect, FailPending([]), Connect]);
    t := t + [Disconnect, FailPending([]), Connect];
    WaitIsBrokenOff(b1, 2);
    RunIsLegal(t, [ResumeSend, Abandon, ResumeDone]);
    t := t + [ResumeSend, Abandon, ResumeDone];
    CallIsTaken(b1, 3, {Resume(2)});
    RunIsLegal(t, [Start, Event.Accept(1), Receive]);
    t := t + [Start, Event.Accept(1), Receive];
    CallIsReplied(Taken(b1), 1, 4, {Resume(2)}, Resume(2));
    RunIsLegal(t, [Insert, Send, Reply(Resume(2))]);
    t := t + [Insert, Send, Reply(Resume(2))];
    assert t == LateReply();
    var answers := After(t).books.answers;
    assert answers == b1.answers + [Answer(1, Replied(Resume(2)))] && answers[1] in answers;
  }
}
