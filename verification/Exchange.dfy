/** Requests and streams together: for whose request the server issued the id under which a stream
    is registered. A run is a run of the request side and a run of the live stream map that agree: the
    connection loop is one, a start takes the id in the response that its call received, and a resume
    turn takes the id in the reply that ends its wait. */
module Exchange {
  import opened Base
  import Q = Requests
  import RequestTheorems = RequestsTheorems
  import R = Registry
  import StreamTheorems = RegistryTheorems

  /** The call that started each stream, the stream that each resume request was sent for, the
      request in answer to which the server issued each stream id, and the id in the response that
      each call received. */
  datatype Links = Links(callOf: seq<nat>, resumeFor: map<Id, nat>, grant: map<Id, Q.Origin>, got: map<nat, Id>)

  datatype State = State(requestRun: seq<Q.Event>, streamRun: seq<R.Event>, links: Links)

  datatype Event =
    | OfRequests(q: Q.Event)
    | OfStreams(r: R.Event)
    | Started(call: nat)                             // a start goes on with the response it received
    | Replied(origin: Q.Origin, id: Option<Id>)      // the server replies, with a new stream id or without
    | TurnSends                                      // a resume turn sends its request
    | TurnFails(reached: bool)                       // it fails to
    | TurnAbandoned
    | PassDone
    | Lost
    | DialFails
    | Dialed(order: seq<Id>)
    | Leaves                                         // the loop takes the lock for its final drain

  predicate IsLegal(s: State) {
    Q.Legal(s.requestRun) && R.Legal(s.streamRun)
  }

  function Requests(s: State): Q.State
    requires IsLegal(s)
  {
    Q.After(s.requestRun)
  }

  function Streams(s: State): R.State
    requires IsLegal(s)
  {
    R.After(s.streamRun)
  }

  /** Events of the request side that the stream map takes part in. */
  predicate ConcernsStreams(e: Q.Event) {
    || e.Reply? || e.ResumeSend? || e.ResumeFails? || e.Abandon? || e.ResumeDone?
    || e.Disconnect? || e.ConnectFails? || e.Connect?
  }

  /** Events of the stream map that the request side takes part in. */
  predicate ConcernsRequests(r: R.State, e: R.Event) {
    || e.Accept? || e.Disconnect? || e.RetryOld? || e.Reconnect? || e.ResumeFailed? || e.ResumeAbandoned?
    || e.ResumeGranted? || e.ExitLoop?
    || (e.TurnStep? && R.Enabled(r, e) && !R.StepTurn(r).loop.Removing?)
  }

  /** The reply ends the wait of a resume turn. */
  predicate IsAwaited(q: Q.State, o: Q.Origin) {
    q.phase == Q.Resuming(Some(Q.IdOf(q.books, o)))
  }

  function Grant(id: Option<Id>): R.Event {
    match id case Some(k) => R.ResumeGranted(k) case None => R.ResumeFailed
  }

  predicate Enabled(s: State, e: Event)
    requires IsLegal(s)
  {
    var q, r := Requests(s), Streams(s);
    match e
    case OfRequests(x) =>
      Q.Enabled(q, x) && !ConcernsStreams(x) && (x.DropReceiver? ==> r.loop.Exited? && R.LoopReady(r))
    case OfStreams(x) => R.Enabled(r, x) && !ConcernsRequests(r, x)
    case Started(c) => c in s.links.got && c !in s.links.callOf && R.Enabled(r, R.Accept(s.links.got[c]))
    case Replied(o, id) =>
      && Q.Enabled(q, Q.Reply(o)) && (id.Some? ==> id.value !in s.links.grant)
      && (IsAwaited(q, o) ==> R.Enabled(r, Grant(id)))
    case TurnSends => Q.Enabled(q, Q.ResumeSend) && R.Enabled(r, R.TurnStep) && R.StepTurn(r).loop.Await?
    case TurnFails(reached) =>
      Q.Enabled(q, Q.ResumeFails(reached)) && R.Enabled(r, R.TurnStep) && R.StepTurn(r).loop.Await?
    case TurnAbandoned => Q.Enabled(q, Q.Abandon) && R.Enabled(r, R.ResumeAbandoned)
    case PassDone => Q.Enabled(q, Q.ResumeDone) && R.Enabled(r, R.TurnStep) && R.StepTurn(r).loop.Serving?
    case Lost => Q.Enabled(q, Q.Disconnect) && R.Enabled(r, R.Disconnect)
    case DialFails => Q.Enabled(q, Q.ConnectFails) && R.Enabled(r, R.RetryOld)
    case Dialed(order) => Q.Enabled(q, Q.Connect) && R.Enabled(r, R.Reconnect(order))
    case Leaves => q.phase.Cleaned? && r.loop.Down? && R.Enabled(r, R.ExitLoop)
  }

  /** What a reply adds to the links: the id was issued for its request, and the pending call with the
      request's id, if there is one, receives it. */
  function Issue(l: Links, q: Q.State, o: Q.Origin, id: Option<Id>): Links {
    if id.None? then l
    else
      var n := Q.IdOf(q.books, o);
      l.(grant := l.grant[id.value := o],
         got := if !IsAwaited(q, o) && n in q.books.pending then l.got[q.books.pending[n] := id.value] else l.got)
  }

  /** The stream whose turn it is. */
  function Turning(r: R.State): nat {
    if r.loop.Turn? && r.loop.todo != [] then r.loop.todo[0].1 else 0
  }

  function Next(s: State, e: Event): State
    requires IsLegal(s) && Enabled(s, e)
  {
    var q, r, l := Requests(s), Streams(s), s.links;
    match e
    case OfRequests(x) => s.(requestRun := s.requestRun + [x])
    case OfStreams(x) => s.(streamRun := s.streamRun + [x])
    case Started(c) => s.(streamRun := s.streamRun + [R.Accept(l.got[c])], links := l.(callOf := l.callOf + [c]))
    case Replied(o, id) =>
      State(s.requestRun + [Q.Reply(o)], s.streamRun + if IsAwaited(q, o) then [Grant(id)] else [], Issue(l, q, o, id))
    case TurnSends =>
      State(s.requestRun + [Q.ResumeSend], s.streamRun + [R.TurnStep],
            l.(resumeFor := l.resumeFor[q.counter := Turning(r)]))
    case TurnFails(reached) =>
      State(s.requestRun + [Q.ResumeFails(reached)], s.streamRun + [R.TurnStep] + [R.ResumeFailed],
            l.(resumeFor := l.resumeFor[q.counter := Turning(r)]))
    case TurnAbandoned => s.(requestRun := s.requestRun + [Q.Abandon], streamRun := s.streamRun + [R.ResumeAbandoned])
    case PassDone => s.(requestRun := s.requestRun + [Q.ResumeDone], streamRun := s.streamRun + [R.TurnStep])
    case Lost => s.(requestRun := s.requestRun + [Q.Disconnect], streamRun := s.streamRun + [R.Disconnect])
    case DialFails => s.(requestRun := s.requestRun + [Q.ConnectFails], streamRun := s.streamRun + [R.RetryOld])
    case Dialed(order) => s.(requestRun := s.requestRun + [Q.Connect], streamRun := s.streamRun + [R.Reconnect(order)])
    case Leaves => s.(streamRun := s.streamRun + [R.ExitLoop])
  }

  function Init(): State {
    State([], [], Links([], map[], map[], map[]))
  }

  /** The state that a run reaches, if each of its events is enabled in turn. */
  function Run(es: seq<Event>): Option<State>
    decreases |es|
  {
    if es == [] then Some(Init())
    else
      match Run(es[..|es| - 1])
      case None => None
      case Some(s) =>
        var e := es[|es| - 1];
        if IsLegal(s) && Enabled(s, e) then Some(Next(s, e)) else None
  }

  // ----- the links -----

  /** Both views of the loop agree. */
  predicate InStep(p: Q.Phase, l: R.LoopPc) {
    match p
    case Serving => l.Serving?
    case Inserting => l.Serving?
    case Writing(_) => l.Serving?
    case Down => l.Down?
    case Idle => l.Down?
    case Resuming(waits) => if waits.Some? then l.Await? else l.Turn? || l.Granted? || l.Removing?
    case Exiting => l.Down?
    case Cleaned => l.Down? || l.Exited?
    case Gone => l.Exited?
  }

  /** The resume request that is awaited was sent for the stream whose turn it is, and those
      outstanding for streams that exist. */
  ghost predicate ResumeInv(q: Q.State, r: R.State, l: Links) {
    && InStep(q.phase, r.loop)
    && (q.phase.Resuming? && q.phase.waits.Some? ==>
          q.phase.waits.value in l.resumeFor && l.resumeFor[q.phase.waits.value] == r.loop.h)
    && (forall n :: n in l.resumeFor ==> n < q.counter && l.resumeFor[n] < |r.handles|)
    && (forall n: nat :: Q.Resume(n) in q.wire ==> n in l.resumeFor)
  }

  /** What a call received was issued for the request whose reply answered it. */
  ghost predicate GotInv(b: Q.Books, l: Links) {
    && (forall c :: c in l.got ==> l.got[c] in l.grant && Q.Answer(c, Q.Replied(l.grant[l.got[c]])) in b.answers)
    && (forall c, d :: c in l.got && d in l.got && l.got[c] == l.got[d] ==> c == d)
    && (forall id :: id in l.grant && l.grant[id].Resume? ==> l.grant[id].id in l.resumeFor)
  }

  /** A request that was made for stream `h`: its start, or one of its resumes. */
  predicate MadeFor(l: Links, o: Q.Origin, h: nat)
    requires h < |l.callOf|
  {
    match o
    case Client(c) => c == l.callOf[h]
    case Resume(n) => n in l.resumeFor && l.resumeFor[n] == h
  }

  /** A stream's ids: that of its start, which was not issued for a resume of it, and those issued
      for its own resumes. */
  ghost predicate StreamInv(r: R.State, l: Links, h: nat)
    requires h < |l.callOf|
  {
    && l.callOf[h] in l.got
    && l.got[l.callOf[h]] in r.issued && r.issued[l.got[l.callOf[h]]] == h
    && l.got[l.callOf[h]] in l.grant
    && (l.grant[l.got[l.callOf[h]]].Resume? ==> !MadeFor(l, l.grant[l.got[l.callOf[h]]], h))
    && (forall k :: k in r.issued && r.issued[k] == h ==>
          k in l.grant && (k == l.got[l.callOf[h]] || (l.grant[k].Resume? && MadeFor(l, l.grant[k], h))))
  }

  ghost predicate StreamsInv(r: R.State, l: Links) {
    && |l.callOf| == |r.handles| && NoDup(l.callOf)
    && (forall h: nat :: h < |l.callOf| ==> StreamInv(r, l, h))
    && (forall k :: k in r.issued ==> k in l.grant && r.issued[k] < |r.handles|)
    && (forall c :: c in l.got && c !in l.callOf ==> l.got[c] !in r.issued)
  }

  ghost predicate Linked(q: Q.State, r: R.State, l: Links) {
    ResumeInv(q, r, l) && GotInv(q.books, l) && StreamsInv(r, l)
  }

  // ----- what the events of the two sides change -----

  lemma OtherRequests(q: Q.State, e: Q.Event)
    requires Q.Enabled(q, e) && !ConcernsStreams(e)
    ensures var t := Q.Next(q, e);
            && q.counter <= t.counter
            && (forall n: nat :: Q.Resume(n) in t.wire ==> Q.Resume(n) in q.wire)
            && (q.phase.Resuming? || t.phase.Resuming? ==> t.phase == q.phase)
            && (forall l :: InStep(q.phase, l) && (e.DropReceiver? ==> l.Exited?) ==> InStep(t.phase, l))
  {
  }

  /** The loop stays where it is, as far as the request side can tell. */
  predicate SameLoop(l: R.LoopPc, m: R.LoopPc) {
    && (l.Serving? ==> m.Serving?) && (l.Down? ==> m.Down?) && (l.Exited? ==> m.Exited?) && (l.Await? ==> m == l)
    && (l.Turn? || l.Granted? || l.Removing? ==> m.Turn? || m.Granted? || m.Removing?)
  }

  ghost predicate SameStreams(r: R.State, t: R.State) {
    t.issued == r.issued && |t.handles| == |r.handles|
  }

  lemma UsersLeaveLoop(r: R.State, e: R.Event)
    requires R.Enabled(r, e) && (StreamTheorems.IsUsers(e) || StreamTheorems.IsChannels(e)) && !e.HandleStep?
    ensures SameStreams(r, R.Next(r, e)) && SameLoop(r.loop, R.Next(r, e).loop)
  {
  }

  lemma HandleLeavesLoop(r: R.State, h: nat)
    requires h < |r.handles| && R.HandleReady(r, h)
    ensures SameStreams(r, R.StepHandle(r, h)) && SameLoop(r.loop, R.StepHandle(r, h).loop)
  {
  }

  lemma SectionLeavesLoop(r: R.State)
    requires R.SectionReady(r)
    ensures SameStreams(r, R.StepSection(r)) && SameLoop(r.loop, R.StepSection(r).loop)
  {
  }

  lemma LoopMoves(r: R.State, e: R.Event)
    requires R.Enabled(r, e) && !StreamTheorems.IsUsers(e) && !StreamTheorems.IsChannels(e) && !e.SectionStep?
    requires !e.Accept? && !e.ResumeGranted?
    ensures SameStreams(r, R.Next(r, e))
    ensures !ConcernsRequests(r, e) ==> SameLoop(r.loop, R.Next(r, e).loop)
  {
  }

  lemma OtherStreams(r: R.State, e: R.Event)
    requires R.Enabled(r, e) && !ConcernsRequests(r, e)
    ensures SameStreams(r, R.Next(r, e)) && SameLoop(r.loop, R.Next(r, e).loop)
  {
    hide R.Next, R.StepSection, R.StepHandle, SameStreams, SameLoop;
    if e.SectionStep? {
      StreamTheorems.SectionStepIs(r);
      SectionLeavesLoop(r);
    } else if e.HandleStep? {
      StreamTheorems.HandleStepIs(r, e.h);
      HandleLeavesLoop(r, e.h);
    } else if StreamTheorems.IsUsers(e) || StreamTheorems.IsChannels(e) {
      UsersLeaveLoop(r, e);
    } else {
      LoopMoves(r, e);
    }
  }

  /** A turn that requests its stream again. */
  lemma TurnAwaits(r: R.State)
    requires R.Enabled(r, R.TurnStep) && R.StepTurn(r).loop.Await?
    ensures var t := R.Next(r, R.TurnStep);
            && SameStreams(r, t) && t.loop.Await? && t.loop.h == Turning(r) < |r.handles|
            && t.section == r.section
  {
  }

  // ----- the links are kept -----

  /** Links only grow: requests, grants and received ids are added, and a received id is a new one. */
  ghost predicate Grow(l: Links, m: Links) {
    && m.callOf == l.callOf
    && (forall n :: n in l.resumeFor ==> n in m.resumeFor && m.resumeFor[n] == l.resumeFor[n])
    && (forall k :: k in l.grant ==> k in m.grant && m.grant[k] == l.grant[k])
    && (forall c :: c in l.got ==> c in m.got && m.got[c] == l.got[c])
    && (forall c :: c in m.got && c !in l.got ==> m.got[c] !in l.grant)
  }

  lemma StreamsGrow(r: R.State, t: R.State, l: Links, m: Links)
    requires StreamsInv(r, l) && SameStreams(r, t) && Grow(l, m)
    requires forall k :: k in l.grant && l.grant[k].Resume? ==> l.grant[k].id in l.resumeFor
    ensures StreamsInv(t, m)
  {
    forall h: nat | h < |m.callOf| ensures StreamInv(t, m, h) {
      assert StreamInv(r, l, h);
    }
  }

  lemma AnswersPersist(b: Q.Books, t: Q.Books, l: Links)
    requires GotInv(b, l) && b.answers <= t.answers
    ensures GotInv(t, l)
  {
  }

  /** A start takes the id that its call received. */
  lemma StartKeeps(r: R.State, l: Links, b: Q.Books, c: nat)
    requires StreamsInv(r, l) && GotInv(b, l) && c in l.got && c !in l.callOf
    requires forall n :: n in l.resumeFor ==> l.resumeFor[n] < |r.handles|
    requires R.Enabled(r, R.Accept(l.got[c]))
    ensures StreamsInv(R.Next(r, R.Accept(l.got[c])), l.(callOf := l.callOf + [c]))
  {
    var t, m := R.Next(r, R.Accept(l.got[c])), l.(callOf := l.callOf + [c]);
    forall h: nat | h < |m.callOf| ensures StreamInv(t, m, h) {
      if h < |l.callOf| {
        assert StreamInv(r, l, h) && m.callOf[h] == l.callOf[h];
      }
    }
    forall d | d in m.got && d !in m.callOf ensures m.got[d] !in t.issued {
      assert d !in l.callOf && d != c;
    }
  }

  /** A resume turn takes the id in the reply to its own request. */
  lemma GrantKeeps(r: R.State, l: Links, id: Id, n: Id)
    requires StreamsInv(r, l) && id !in r.issued && R.Enabled(r, R.ResumeGranted(id))
    requires id in l.grant && l.grant[id] == Q.Resume(n) && n in l.resumeFor && l.resumeFor[n] == r.loop.h < |r.handles|
    requires forall c :: c in l.got ==> l.got[c] != id
    ensures StreamsInv(R.Next(r, R.ResumeGranted(id)), l)
  {
    var t := R.Next(r, R.ResumeGranted(id));
    forall h: nat | h < |l.callOf| ensures StreamInv(t, l, h) {
      assert StreamInv(r, l, h);
    }
  }

  // ----- replies -----

  lemma ReceivedIsAnswered(b: Q.Books, l: Links, c: nat)
    requires GotInv(b, l) && c in l.got
    ensures Q.IsAnswered(b, c)
  {
    var i :| 0 <= i < |b.answers| && b.answers[i] == Q.Answer(c, Q.Replied(l.grant[l.got[c]]));
  }

  lemma PendingHasNotReceived(b: Q.Books, l: Links, n: Id)
    requires Q.BooksInv(b) && GotInv(b, l) && n in b.pending
    ensures b.pending[n] !in l.got
  {
    var c := b.pending[n];
    assert Q.IsPending(b, c) && Q.IsPlaced(b, c);
    if c in l.got {
      ReceivedIsAnswered(b, l, c);
    }
  }

  lemma IssueGrows(q: Q.State, l: Links, o: Q.Origin, id: Option<Id>)
    requires Q.BooksInv(q.books) && GotInv(q.books, l) && (id.Some? ==> id.value !in l.grant)
    ensures Grow(l, Issue(l, q, o, id))
  {
    var n := Q.IdOf(q.books, o);
    if n in q.books.pending {
      PendingHasNotReceived(q.books, l, n);
    }
  }

  /** A call that receives an id is answered by the reply for which the id was issued. */
  lemma IssueKeeps(q: Q.State, l: Links, o: Q.Origin, id: Option<Id>)
    requires Q.BooksInv(q.books) && GotInv(q.books, l) && (id.Some? ==> id.value !in l.grant)
    requires o.Resume? ==> o.id in l.resumeFor
    ensures GotInv(Q.HandleReply(q, o).books, Issue(l, q, o, id))
  {
    var n, b := Q.IdOf(q.books, o), Q.HandleReply(q, o).books;
    if !IsAwaited(q, o) && n in q.books.pending {
      PendingHasNotReceived(q.books, l, n);
      assert b.answers[|q.books.answers|] == Q.Answer(q.books.pending[n], Q.Replied(o));
    }
    assert q.books.answers <= b.answers;
    AnswersPersist(q.books, b, l);
  }

  lemma ReplyIs(q: Q.State, o: Q.Origin)
    requires Q.Inv(q) && Q.Enabled(q, Q.Reply(o))
    ensures Q.Next(q, Q.Reply(o)) == Q.HandleReply(q, o) && o in q.wire && Q.BooksInv(q.books)
    ensures IsAwaited(q, o) ==> q.phase.Resuming? && q.phase.waits.Some? && o == Q.Resume(q.phase.waits.value)
    ensures var t := Q.HandleReply(q, o);
            t.counter == q.counter && t.wire == q.wire - {o}
            && t.phase == if IsAwaited(q, o) then Q.Resuming(None) else q.phase
  {
  }

  lemma GrantMoves(r: R.State, id: Option<Id>)
    requires R.Enabled(r, Grant(id))
    ensures var t := R.Next(r, Grant(id));
            && r.loop.Await? && (t.loop.Granted? || t.loop.Removing?) && |t.handles| == |r.handles|
            && (id.None? ==> SameStreams(r, t)) && (id.Some? ==> id.value !in r.issued)
  {
  }

  lemma AwaitedIssue(q: Q.State, l: Links, o: Q.Origin, id: Option<Id>)
    requires IsAwaited(q, o) && GotInv(q.books, l) && (id.Some? ==> id.value !in l.grant)
    ensures var m := Issue(l, q, o, id);
            && m.resumeFor == l.resumeFor && m.callOf == l.callOf
            && (id.Some? ==> id.value in m.grant && m.grant[id.value] == o)
            && (id.Some? ==> forall c :: c in m.got ==> m.got[c] != id.value)
  {
  }

  lemma AwaitedReplyKeeps(q: Q.State, r: R.State, l: Links, o: Q.Origin, id: Option<Id>)
    requires Q.Inv(q) && Linked(q, r, l) && Q.Enabled(q, Q.Reply(o)) && (id.Some? ==> id.value !in l.grant)
    requires IsAwaited(q, o) && R.Enabled(r, Grant(id))
    ensures Linked(Q.Next(q, Q.Reply(o)), R.Next(r, Grant(id)), Issue(l, q, o, id))
  {
    hide Q.Inv, Q.Enabled, Q.Next, R.Enabled, R.Next, Q.HandleReply, Issue;
    ReplyIs(q, o);
    GrantMoves(r, id);
    IssueGrows(q, l, o, id);
    IssueKeeps(q, l, o, id);
    AwaitedIssue(q, l, o, id);
    var m := Issue(l, q, o, id);
    StreamsGrow(r, r, l, m);
    if id.Some? {
      GrantKeeps(r, m, id.value, q.phase.waits.value);
    } else {
      StreamsGrow(r, R.Next(r, Grant(id)), l, m);
    }
  }

  lemma OtherReplyKeeps(q: Q.State, r: R.State, l: Links, o: Q.Origin, id: Option<Id>)
    requires Q.Inv(q) && Linked(q, r, l) && Q.Enabled(q, Q.Reply(o)) && (id.Some? ==> id.value !in l.grant)
    requires !IsAwaited(q, o)
    ensures Linked(Q.Next(q, Q.Reply(o)), r, Issue(l, q, o, id))
  {
    ReplyIs(q, o);
    IssueGrows(q, l, o, id);
    IssueKeeps(q, l, o, id);
    hide Q.Inv, Q.Enabled, Q.Next, Q.HandleReply;
    StreamsGrow(r, r, l, Issue(l, q, o, id));
  }

  // ----- turns -----

  lemma TurnLinks(q: Q.State, l: Links, h: nat)
    requires forall n :: n in l.resumeFor ==> n < q.counter
    ensures Grow(l, l.(resumeFor := l.resumeFor[q.counter := h]))
  {
  }

  lemma TurnRequests(q: Q.State, e: Q.Event)
    requires Q.Enabled(q, e) && (e.ResumeSend? || e.ResumeFails?)
    ensures var t := Q.Next(q, e);
            && t.books == q.books && t.counter == q.counter + 1 && t.wire <= q.wire + {Q.Resume(q.counter)}
            && t.phase == Q.Resuming(if e.ResumeSend? then Some(q.counter) else None)
  {
  }

  lemma FailedTurnEnds(r: R.State)
    requires R.Enabled(r, R.TurnStep) && R.StepTurn(r).loop.Await?
    ensures var t := R.Next(r, R.TurnStep);
            R.Enabled(t, R.ResumeFailed) && SameStreams(r, R.Next(t, R.ResumeFailed))
            && R.Next(t, R.ResumeFailed).loop.Removing?
  {
    assert R.Enabled(R.Next(r, R.TurnStep), R.ResumeFailed);
  }

  lemma TurnSendsKeeps(q: Q.State, r: R.State, l: Links)
    requires Linked(q, r, l) && Q.Enabled(q, Q.ResumeSend) && R.Enabled(r, R.TurnStep) && R.StepTurn(r).loop.Await?
    ensures Linked(Q.Next(q, Q.ResumeSend), R.Next(r, R.TurnStep),
                   l.(resumeFor := l.resumeFor[q.counter := Turning(r)]))
  {
    hide Q.Next, Q.Enabled, R.Next, R.Enabled, R.StepTurn, Turning;
    TurnRequests(q, Q.ResumeSend);
    TurnAwaits(r);
    TurnLinks(q, l, Turning(r));
    StreamsGrow(r, R.Next(r, R.TurnStep), l, l.(resumeFor := l.resumeFor[q.counter := Turning(r)]));
  }

  lemma TurnFailsKeeps(q: Q.State, r: R.State, l: Links, reached: bool)
    requires Linked(q, r, l) && Q.Enabled(q, Q.ResumeFails(reached))
    requires R.Enabled(r, R.TurnStep) && R.StepTurn(r).loop.Await?
    ensures R.Enabled(R.Next(r, R.TurnStep), R.ResumeFailed)
    ensures Linked(Q.Next(q, Q.ResumeFails(reached)), R.Next(R.Next(r, R.TurnStep), R.ResumeFailed),
                   l.(resumeFor := l.resumeFor[q.counter := Turning(r)]))
  {
    hide Q.Next, Q.Enabled, R.Next, R.Enabled, R.StepTurn, Turning;
    TurnRequests(q, Q.ResumeFails(reached));
    TurnAwaits(r);
    FailedTurnEnds(r);
    TurnLinks(q, l, Turning(r));
    StreamsGrow(r, R.Next(R.Next(r, R.TurnStep), R.ResumeFailed), l,
                l.(resumeFor := l.resumeFor[q.counter := Turning(r)]));
  }

  /** Moves of the loop on both sides that touch neither requests nor streams. */
  predicate MoveTogether(r: R.State, x: Q.Event, y: R.Event) {
    || (x.Abandon? && y.ResumeAbandoned?)
    || (x.ResumeDone? && y.TurnStep? && R.Enabled(r, y) && R.StepTurn(r).loop.Serving?)
    || (x.Disconnect? && y.Disconnect?) || (x.ConnectFails? && y.RetryOld?) || (x.Connect? && y.Reconnect?)
  }

  lemma LoopRequests(q: Q.State, r: R.State, x: Q.Event, y: R.Event)
    requires Q.Enabled(q, x) && R.Enabled(r, y) && MoveTogether(r, x, y)
    ensures var t, u := Q.Next(q, x), R.Next(r, y);
            && t.books == q.books && t.counter == q.counter && t.wire <= q.wire
            && InStep(t.phase, u.loop) && !(t.phase.Resuming? && t.phase.waits.Some?)
  {
  }

  lemma LoopStepKeeps(q: Q.State, r: R.State, l: Links, x: Q.Event, y: R.Event)
    requires Linked(q, r, l) && Q.Enabled(q, x) && R.Enabled(r, y) && MoveTogether(r, x, y)
    ensures Linked(Q.Next(q, x), R.Next(r, y), l)
  {
    hide Q.Next, Q.Enabled, R.Next, R.Enabled;
    LoopRequests(q, r, x, y);
    LoopMoves(r, y);
    StreamsGrow(r, R.Next(r, y), l, l);
  }

  lemma OtherRequestKeeps(q: Q.State, r: R.State, l: Links, e: Q.Event)
    requires Linked(q, r, l) && Q.Enabled(q, e) && !ConcernsStreams(e) && (e.DropReceiver? ==> r.loop.Exited?)
    ensures Linked(Q.Next(q, e), r, l)
  {
    hide Q.Next, Q.Enabled;
    OtherRequests(q, e);
    RequestTheorems.AnswersStand(q, e);
    AnswersPersist(q.books, Q.Next(q, e).books, l);
  }

  lemma OtherStreamKeeps(q: Q.State, r: R.State, l: Links, e: R.Event)
    requires Linked(q, r, l) && R.Enabled(r, e) && !ConcernsRequests(r, e)
    ensures Linked(q, R.Next(r, e), l)
  {
    hide R.Next, R.Enabled, ConcernsRequests;
    OtherStreams(r, e);
    StreamsGrow(r, R.Next(r, e), l, l);
  }

  lemma StartedKeeps(q: Q.State, r: R.State, l: Links, c: nat)
    requires Linked(q, r, l) && c in l.got && c !in l.callOf && R.Enabled(r, R.Accept(l.got[c]))
    ensures Linked(q, R.Next(r, R.Accept(l.got[c])), l.(callOf := l.callOf + [c]))
  {
    StartKeeps(r, l, q.books, c);
  }

  lemma LeavesKeeps(q: Q.State, r: R.State, l: Links)
    requires Linked(q, r, l) && q.phase.Cleaned? && R.Enabled(r, R.ExitLoop)
    ensures Linked(q, R.Next(r, R.ExitLoop), l)
  {
    StreamsGrow(r, R.Next(r, R.ExitLoop), l, l);
  }

  // ----- runs -----

  ghost predicate Good(s: State) {
    IsLegal(s) && Linked(Requests(s), Streams(s), s.links)
  }

  /** One event on each side. */
  lemma Both(s: State, x: Q.Event, y: R.Event)
    requires IsLegal(s) && Q.Enabled(Requests(s), x) && R.Enabled(Streams(s), y)
    ensures Q.Legal(s.requestRun + [x]) && Q.After(s.requestRun + [x]) == Q.Next(Requests(s), x)
    ensures R.Legal(s.streamRun + [y]) && R.After(s.streamRun + [y]) == R.Next(Streams(s), y)
  {
    RequestTheorems.Extend(s.requestRun, x);
    StreamTheorems.Extend(s.streamRun, y);
  }

  lemma ReplyKeepsGood(s: State, o: Q.Origin, id: Option<Id>)
    requires Good(s) && Enabled(s, Replied(o, id))
    ensures Good(Next(s, Replied(o, id)))
  {
    hide Q.Legal, Q.After, R.Legal, R.After, Q.Next, R.Next, Q.Enabled, R.Enabled;
    hide Linked, Q.Inv, Issue, Grant, IsAwaited;
    RequestTheorems.RunKeepsInv(s.requestRun);
    var q, r := Requests(s), Streams(s);
    RequestTheorems.Extend(s.requestRun, Q.Reply(o));
    if IsAwaited(q, o) {
      Both(s, Q.Reply(o), Grant(id));
      AwaitedReplyKeeps(q, r, s.links, o, id);
    } else {
      OtherReplyKeeps(q, r, s.links, o, id);
      assert s.streamRun + [] == s.streamRun;
    }
  }

  lemma TurnKeepsGood(s: State, e: Event)
    requires Good(s) && Enabled(s, e) && (e.TurnSends? || e.TurnFails?)
    ensures Good(Next(s, e))
  {
    hide Q.Legal, Q.After, R.Legal, R.After, Q.Next, R.Next, Q.Enabled, R.Enabled, Linked, R.StepTurn, Turning;
    var q, r := Requests(s), Streams(s);
    match e
    case TurnSends =>
      Both(s, Q.ResumeSend, R.TurnStep);
      TurnSendsKeeps(q, r, s.links);
    case TurnFails(reached) =>
      Both(s, Q.ResumeFails(reached), R.TurnStep);
      TurnFailsKeeps(q, r, s.links, reached);
      StreamTheorems.Extend(s.streamRun + [R.TurnStep], R.ResumeFailed);
  }

  lemma MoveKeepsGood(s: State, e: Event)
    requires Good(s) && Enabled(s, e)
    requires e.TurnAbandoned? || e.PassDone? || e.Lost? || e.DialFails? || e.Dialed?
    ensures Good(Next(s, e))
  {
    hide Q.Legal, Q.After, R.Legal, R.After, Q.Next, R.Next, Q.Enabled, R.Enabled, Linked, R.StepTurn;
    var q, r := Requests(s), Streams(s);
    var x := match e
      case TurnAbandoned => Q.Abandon
      case PassDone => Q.ResumeDone
      case Lost => Q.Disconnect
      case DialFails => Q.ConnectFails
      case _ => Q.Connect;
    var y := match e
      case TurnAbandoned => R.ResumeAbandoned
      case PassDone => R.TurnStep
      case Lost => R.Disconnect
      case DialFails => R.RetryOld
      case Dialed(order) => R.Reconnect(order)
      case _ => R.Disconnect;
    Both(s, x, y);
    LoopStepKeeps(q, r, s.links, x, y);
  }

  lemma KeepsGood(s: State, e: Event)
    requires Good(s) && Enabled(s, e)
    ensures Good(Next(s, e))
  {
    hide Q.Legal, Q.After, R.Legal, R.After, Q.Next, R.Next, Q.Enabled, R.Enabled;
    hide Linked, R.StepTurn, ConcernsStreams, ConcernsRequests, R.LoopReady, IsAwaited, Issue, Turning;
    var q, r := Requests(s), Streams(s);
    match e
    case OfRequests(x) =>
      RequestTheorems.Extend(s.requestRun, x);
      OtherRequestKeeps(q, r, s.links, x);
    case OfStreams(x) =>
      StreamTheorems.Extend(s.streamRun, x);
      OtherStreamKeeps(q, r, s.links, x);
    case Started(c) =>
      StreamTheorems.Extend(s.streamRun, R.Accept(s.links.got[c]));
      StartedKeeps(q, r, s.links, c);
    case Replied(o, id) => ReplyKeepsGood(s, o, id);
    case TurnSends => TurnKeepsGood(s, e);
    case TurnFails(_) => TurnKeepsGood(s, e);
    case Leaves =>
      StreamTheorems.Extend(s.streamRun, R.ExitLoop);
      LeavesKeeps(q, r, s.links);
    case _ => MoveKeepsGood(s, e);
  }

  lemma RunsStep(es: seq<Event>)
    requires Run(es).Some? && es != []
    ensures var before, e := es[..|es| - 1], es[|es| - 1];
            && Run(before).Some? && IsLegal(Run(before).value) && Enabled(Run(before).value, e)
            && Run(es).value == Next(Run(before).value, e)
  {
  }

  lemma {:induction false} RunIsGood(es: seq<Event>)
    requires Run(es).Some?
    ensures Good(Run(es).value)
    decreases |es|
  {
    if es == [] {
      assert Q.After([]) == Q.Init() && R.After([]) == R.Init();
    } else {
      RunIsGood(es[..|es| - 1]);
      KeepsGood(Run(es[..|es| - 1]).value, es[|es| - 1]);
    }
  }
}
