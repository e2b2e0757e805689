/** Whose quotes a stream receives, when a late reply can start a stream. */
module ExchangeTheorems {
  import opened Base
  import opened Exchange
  import Q = Requests
  import RequestTheorems = RequestsTheorems
  import R = Registry
  import StreamTheorems = RegistryTheorems

  // ----- whose quotes a stream receives -----

  /** Every id that was ever the stream's own was issued in answer to a request made for it. */
  ghost predicate IdsAreItsOwn(r: R.State, l: Links, h: nat)
    requires h < |l.callOf|
  {
    forall k :: k in r.issued && r.issued[k] == h ==> k in l.grant && MadeFor(l, l.grant[k], h)
  }

  lemma OwnIdsIff(q: Q.State, r: R.State, l: Links, h: nat)
    requires Linked(q, r, l) && h < |r.handles|
    ensures var c := l.callOf[h];
            && c in l.got && l.got[c] in l.grant && Q.Answer(c, Q.Replied(l.grant[l.got[c]])) in q.books.answers
            && (IdsAreItsOwn(r, l, h) <==> l.grant[l.got[c]] == Q.Client(c))
  {
    assert StreamInv(r, l, h);
  }

  /** In every run, over any number of reconnects: every id of a stream was issued in answer to its own
      start or to one of its own resumes if and only if its start was not handed the late reply to an
      abandoned resume request. */
  lemma StreamIsItsOwnIff(es: seq<Event>, h: nat)
    requires Run(es).Some? && IsLegal(Run(es).value) && h < |Streams(Run(es).value).handles|
    ensures var s := Run(es).value;
            && |s.links.callOf| == |Streams(s).handles|
            && (IdsAreItsOwn(Streams(s), s.links, h)
                <==> !RequestTheorems.MisdeliveredTo(s.requestRun, s.links.callOf[h]))
  {
    RunIsGood(es);
    var s := Run(es).value;
    var c := s.links.callOf[h];
    hide Q.Legal, Q.After, R.Legal, R.After, Run, RequestTheorems.MisdeliveredTo;
    OwnIdsIff(Requests(s), Streams(s), s.links, h);
    RequestTheorems.AnswerIsOwnIff(s.requestRun, Q.Answer(c, Q.Replied(s.links.grant[s.links.got[c]])));
  }

  /** So a stream whose start was not handed such a reply is only ever in the map under ids, and sent
      data under ids, that the server issued for requests made for that stream. */
  lemma QuotesAreItsOwn(es: seq<Event>, h: nat)
    requires Run(es).Some? && IsLegal(Run(es).value) && h < |Streams(Run(es).value).handles|
    requires h < |Run(es).value.links.callOf|
    requires var s := Run(es).value; !RequestTheorems.MisdeliveredTo(s.requestRun, s.links.callOf[h])
    ensures var s := Run(es).value;
            var r, l := Streams(s), s.links;
            && (forall k :: k in r.streams && r.streams[k] == h ==> k in l.grant && MadeFor(l, l.grant[k], h))
            && (forall i :: 0 <= i < |r.handles[h].pipe.dispatched| ==>
                  var id := r.handles[h].pipe.dispatched[i].id; id in l.grant && MadeFor(l, l.grant[id], h))
  {
    StreamIsItsOwnIff(es, h);
    var s := Run(es).value;
    StreamTheorems.NoCrossDelivery(s.streamRun);
    StreamTheorems.IssuedAreTheGrants(s.streamRun);
  }

  /** If the loop reads no more replies from a connection on which a wait was broken off, this holds of
      every stream. */
  lemma EveryStreamIsItsOwn(es: seq<Event>, h: nat)
    requires Run(es).Some? && IsLegal(Run(es).value) && h < |Streams(Run(es).value).handles|
    requires !RequestTheorems.ReadsOn(Run(es).value.requestRun)
    ensures var s := Run(es).value; h < |s.links.callOf| && IdsAreItsOwn(Streams(s), s.links, h)
  {
    var s := Run(es).value;
    StreamIsItsOwnIff(es, h);
    RequestTheorems.AnswersAreOwn(s.requestRun);
    RequestTheorems.NobodyMisdelivered(s.requestRun, s.links.callOf[h]);
  }

  /** The stream map never refuses the id that a start has received. */
  lemma StartIsNeverBlocked(es: seq<Event>, c: nat)
    requires Run(es).Some? && IsLegal(Run(es).value)
    requires c in Run(es).value.links.got && c !in Run(es).value.links.callOf
    ensures Enabled(Run(es).value, Started(c))
  {
    RunIsGood(es);
  }

  // ----- a start answered late -----

  /** The run is one of the system and leads to these states. */
  ghost predicate At(es: seq<Event>, q: Q.State, r: R.State, l: Links) {
    && Run(es).Some? && IsLegal(Run(es).value)
    && Requests(Run(es).value) == q && Streams(Run(es).value) == r && Run(es).value.links == l
  }

  lemma RunsOn(es: seq<Event>, e: Event)
    requires Run(es).Some? && IsLegal(Run(es).value) && Enabled(Run(es).value, e)
    ensures Run(es + [e]) == Some(Next(Run(es).value, e))
  {
    assert (es + [e])[..|es|] == es;
  }

  lemma DoRequest(es: seq<Event>, q: Q.State, r: R.State, l: Links, x: Q.Event)
    requires At(es, q, r, l) && Q.Enabled(q, x) && !ConcernsStreams(x) && !x.DropReceiver?
    ensures At(es + [OfRequests(x)], Q.Next(q, x), r, l)
  {
    hide Q.Legal, Q.After, R.Legal, R.After, Q.Next, Q.Enabled, Run;
    RunsOn(es, OfRequests(x));
    RequestTheorems.Extend(Run(es).value.requestRun, x);
  }

  lemma DoStream(es: seq<Event>, q: Q.State, r: R.State, l: Links, y: R.Event)
    requires At(es, q, r, l) && R.Enabled(r, y) && !ConcernsRequests(r, y)
    ensures At(es + [OfStreams(y)], q, R.Next(r, y), l)
  {
    hide Q.Legal, Q.After, R.Legal, R.After, R.Next, R.Enabled, ConcernsRequests, Run;
    RunsOn(es, OfStreams(y));
    StreamTheorems.Extend(Run(es).value.streamRun, y);
  }

  lemma DoStart(es: seq<Event>, q: Q.State, r: R.State, l: Links, c: nat)
    requires At(es, q, r, l) && c in l.got && c !in l.callOf && R.Enabled(r, R.Accept(l.got[c]))
    ensures At(es + [Started(c)], q, R.Next(r, R.Accept(l.got[c])), l.(callOf := l.callOf + [c]))
  {
    hide Q.Legal, Q.After, R.Legal, R.After, R.Next, R.Enabled, Run;
    RunsOn(es, Started(c));
    StreamTheorems.Extend(Run(es).value.streamRun, R.Accept(l.got[c]));
  }

  lemma DoReply(es: seq<Event>, q: Q.State, r: R.State, l: Links, o: Q.Origin, id: Id)
    requires At(es, q, r, l) && Q.Enabled(q, Q.Reply(o)) && id !in l.grant && !IsAwaited(q, o)
    ensures At(es + [Replied(o, Some(id))], Q.Next(q, Q.Reply(o)), r, Issue(l, q, o, Some(id)))
  {
    hide Q.Legal, Q.After, R.Legal, R.After, Q.Next, Q.Enabled, IsAwaited, Issue, Run;
    RunsOn(es, Replied(o, Some(id)));
    var s := Run(es).value;
    RequestTheorems.Extend(s.requestRun, Q.Reply(o));
    assert s.streamRun + [] == s.streamRun;
  }

  /** An event of the loop that both sides take part in. */
  predicate IsJoint(r: R.State, e: Event, x: Q.Event, y: R.Event) {
    || (e.TurnSends? && x.ResumeSend? && y.TurnStep? && R.Enabled(r, y) && R.StepTurn(r).loop.Await?)
    || (e.TurnAbandoned? && x.Abandon? && y.ResumeAbandoned?)
    || (e.PassDone? && x.ResumeDone? && y.TurnStep? && R.Enabled(r, y) && R.StepTurn(r).loop.Serving?)
    || (e.Lost? && x.Disconnect? && y.Disconnect?)
    || (e.Dialed? && x.Connect? && y == R.Reconnect(e.order))
  }

  lemma DoBoth(es: seq<Event>, q: Q.State, r: R.State, l: Links, e: Event, x: Q.Event, y: R.Event)
    requires At(es, q, r, l) && Q.Enabled(q, x) && R.Enabled(r, y) && IsJoint(r, e, x, y)
    ensures At(es + [e], Q.Next(q, x), R.Next(r, y),
               if e.TurnSends? then l.(resumeFor := l.resumeFor[q.counter := Turning(r)]) else l)
  {
    hide Q.Legal, Q.After, R.Legal, R.After, Q.Next, R.Next, Q.Enabled, R.Enabled, R.StepTurn, Turning, Run;
    RunsOn(es, e);
    Both(Run(es).value, x, y);
  }

  /** The next call, up to the reply, while nothing else is going on. */
  function SentCall(c: nat): seq<Event> {
    [OfRequests(Q.Start)] + [OfRequests(Q.Event.Accept(c))] + [OfRequests(Q.Receive)]
    + [OfRequests(Q.Insert)] + [OfRequests(Q.Send)]
  }

  lemma CallArrives(es: seq<Event>, b: Q.Books, counter: nat, wire: set<Q.Origin>, r: R.State, l: Links)
    requires At(es, Q.State(b, counter, wire, Q.Serving), r, l) && RequestTheorems.IsQuiet(b)
    ensures At(es + [OfRequests(Q.Start)] + [OfRequests(Q.Event.Accept(|b.calls|))] + [OfRequests(Q.Receive)],
               Q.State(RequestTheorems.Taken(b), Max(b.next, counter) + 1, wire, Q.Inserting), r, l)
  {
    hide At;
    var c, b1 := |b.calls|, Q.StartCall(b);
    var b2 := Q.AcceptCall(b1, c);
    assert b2.calls == b.calls + [Q.Call(b.next, Q.Accepted)] && b2.channel == [c];
    assert Q.TakeFromChannel(b2) == RequestTheorems.Taken(b);
    DoRequest(es, Q.State(b, counter, wire, Q.Serving), r, l, Q.Start);
    var es1 := es + [OfRequests(Q.Start)];
    DoRequest(es1, Q.State(b1, counter, wire, Q.Serving), r, l, Q.Event.Accept(c));
    DoRequest(es1 + [OfRequests(Q.Event.Accept(c))], Q.State(b2, counter, wire, Q.Serving), r, l, Q.Receive);
  }

  lemma CallIsSent(es: seq<Event>, b: Q.Books, counter: nat, wire: set<Q.Origin>, r: R.State, l: Links)
    requires At(es, Q.State(b, counter, wire, Q.Serving), r, l) && RequestTheorems.IsQuiet(b)
    ensures var c, sent := |b.calls|, Q.InsertHeld(RequestTheorems.Taken(b), |b.calls|);
            At(es + SentCall(c), Q.State(sent, Max(b.next, counter) + 1, wire + {Q.Client(c)}, Q.Serving), r, l)
  {
    hide At, Q.InsertHeld;
    var c, k := |b.calls|, Max(b.next, counter) + 1;
    CallArrives(es, b, counter, wire, r, l);
    var es3 := es + [OfRequests(Q.Start)] + [OfRequests(Q.Event.Accept(c))] + [OfRequests(Q.Receive)];
    var held := RequestTheorems.Taken(b);
    DoRequest(es3, Q.State(held, k, wire, Q.Inserting), r, l, Q.Insert);
    DoRequest(es3 + [OfRequests(Q.Insert)], Q.State(Q.InsertHeld(held, c), k, wire, Q.Writing(c)), r, l, Q.Send);
    assert es3 + [OfRequests(Q.Insert)] + [OfRequests(Q.Send)] == es + SentCall(c);
  }

  /** The reply to the sent call, the start that takes its id, and the registration. */
  function TakenReply(c: nat, o: Q.Origin, id: Id): seq<Event> {
    [Replied(o, Some(id))] + [Started(c)] + [OfStreams(R.Register(c))]
  }

  /** The connection is lost and replaced, and the wait of the one resume turn is broken off. */
  function BrokenPass(): seq<Event> {
    [Lost] + [OfRequests(Q.FailPending([]))] + [Dialed([1])] + [TurnSends] + [TurnAbandoned] + [PassDone]
  }

  /** A stream is started; its resume is abandoned; the next start is answered by the late reply. */
  function LateStart(): seq<Event> {
    SentCall(0) + TakenReply(0, Q.Client(0), 1) + BrokenPass() + SentCall(1) + TakenReply(1, Q.Resume(2), 2)
  }

  function OneCall(): Q.Books {
    Q.Books(2, [Q.Call(1, Q.Accepted)], [], None, map[], [Q.Answer(0, Q.Replied(Q.Client(0)))])
  }

  function OneStream(loop: R.LoopPc): R.State {
    R.State(map[1 := 0], map[1 := 0], [R.NewHandle(1).(pc := R.Live)], loop, R.Free)
  }

  function OneLink(resumeFor: map<Id, nat>): Links {
    Links([0], resumeFor, map[1 := Q.Client(0)], map[0 := 1])
  }

  lemma AcceptedIsRegistered(r: R.State, id: Id)
    requires id !in r.issued && r.section.Free?
    ensures R.Enabled(r, R.Accept(id))
    ensures var t, h := R.Next(r, R.Accept(id)), |r.handles|;
            && R.Enabled(t, R.Register(h))
            && R.Next(t, R.Register(h))
               == R.State(r.streams[id := h], r.issued[id := h], r.handles + [R.NewHandle(id).(pc := R.Live)],
                          r.loop, r.section)
  {
    var h := |r.handles|;
    assert (r.handles + [R.NewHandle(id)])[h := R.NewHandle(id).(pc := R.Live)]
        == r.handles + [R.NewHandle(id).(pc := R.Live)];
  }

  /** The sent call `c` is answered by `o` with a stream id, and its stream is registered. */
  lemma ReplyIsTaken(es: seq<Event>, q: Q.State, r: R.State, l: Links, c: nat, o: Q.Origin, id: Id)
    requires At(es, q, r, l) && Q.Enabled(q, Q.Reply(o)) && q.phase.Serving? && r.section.Free?
    requires Q.IdOf(q.books, o) in q.books.pending && q.books.pending[Q.IdOf(q.books, o)] == c == |r.handles|
    requires id !in l.grant && id !in r.issued && c !in l.callOf
    ensures At(es + TakenReply(c, o, id), Q.HandleReply(q, o),
               R.State(r.streams[id := c], r.issued[id := c], r.handles + [R.NewHandle(id).(pc := R.Live)],
                       r.loop, r.section),
               Links(l.callOf + [c], l.resumeFor, l.grant[id := o], l.got[c := id]))
  {
    hide At, R.Next, R.Enabled;
    var m := l.(grant := l.grant[id := o], got := l.got[c := id]);
    assert Issue(l, q, o, Some(id)) == m;
    AcceptedIsRegistered(r, id);
    DoReply(es, q, r, l, o, id);
    var es1 := es + [Replied(o, Some(id))];
    DoStart(es1, Q.HandleReply(q, o), r, m, c);
    var es2 := es1 + [Started(c)];
    RegisterIsOwn(R.Next(r, R.Accept(id)), c);
    DoStream(es2, Q.HandleReply(q, o), R.Next(r, R.Accept(id)), m.(callOf := m.callOf + [c]), R.Register(c));
    assert es2 + [OfStreams(R.Register(c))] == es + TakenReply(c, o, id);
  }

  lemma RegisterIsOwn(r: R.State, h: nat)
    ensures !ConcernsRequests(r, R.Register(h))
  {
  }

  lemma FirstReply(q: Q.State)
    requires q.books == Q.Books(2, [Q.Call(1, Q.Accepted)], [], None, map[1 := 0], [])
    requires q.counter == 2 && q.wire == {} + {Q.Client(0)} && q.phase.Serving?
    ensures Q.Enabled(q, Q.Reply(Q.Client(0))) && Q.IdOf(q.books, Q.Client(0)) == 1
    ensures Q.HandleReply(q, Q.Client(0)) == Q.State(OneCall(), 2, {}, Q.Serving)
  {
    assert q.wire - {Q.Client(0)} == {} && Without(map[1 := 0], 1) == map[];
  }

  lemma FirstStreamStarts()
    ensures At(SentCall(0) + TakenReply(0, Q.Client(0), 1),
               Q.State(OneCall(), 2, {}, Q.Serving), OneStream(R.Serving), OneLink(map[]))
  {
    var l := Links([], map[], map[], map[]);
    assert At([], Q.Init(), R.Init(), l);
    hide At, Q.Enabled, Q.HandleReply;
    CallIsSent([], Q.Init().books, 1, {}, R.Init(), l);
    assert [] + SentCall(0) == SentCall(0);
    var b := Q.InsertHeld(RequestTheorems.Taken(Q.Init().books), 0);
    assert b == Q.Books(2, [Q.Call(1, Q.Accepted)], [], None, map[1 := 0], []);
    var q := Q.State(b, 2, {} + {Q.Client(0)}, Q.Serving);
    FirstReply(q);
    ReplyIsTaken(SentCall(0), q, R.Init(), l, 0, Q.Client(0), 1);
    assert R.Init().handles + [R.NewHandle(1).(pc := R.Live)] == [R.NewHandle(1).(pc := R.Live)];
    assert l.callOf + [0] == [0];
  }

  lemma PassSteps()
    ensures R.Enabled(OneStream(R.Serving), R.Disconnect)
    ensures R.Next(OneStream(R.Serving), R.Disconnect) == OneStream(R.Down)
    ensures R.Enabled(OneStream(R.Down), R.Reconnect([1]))
    ensures R.Next(OneStream(R.Down), R.Reconnect([1])) == OneStream(R.Turn([(1, 0)]))
    ensures IsJoint(OneStream(R.Serving), Lost, Q.Disconnect, R.Disconnect)
    ensures IsJoint(OneStream(R.Down), Dialed([1]), Q.Connect, R.Reconnect([1]))
  {
    assert R.Snapshot(map[1 := 0], [1]) == [(1, 0)];
  }

  lemma TurnSteps()
    ensures R.Enabled(OneStream(R.Turn([(1, 0)])), R.TurnStep)
    ensures IsJoint(OneStream(R.Turn([(1, 0)])), TurnSends, Q.ResumeSend, R.TurnStep)
    ensures Turning(OneStream(R.Turn([(1, 0)]))) == 0
    ensures R.Next(OneStream(R.Turn([(1, 0)])), R.TurnStep) == OneStream(R.Await(1, 0, []))
    ensures R.Enabled(OneStream(R.Await(1, 0, [])), R.ResumeAbandoned)
    ensures R.Next(OneStream(R.Await(1, 0, [])), R.ResumeAbandoned) == OneStream(R.Turn([]))
    ensures IsJoint(OneStream(R.Await(1, 0, [])), TurnAbandoned, Q.Abandon, R.ResumeAbandoned)
    ensures R.Enabled(OneStream(R.Turn([])), R.TurnStep)
    ensures IsJoint(OneStream(R.Turn([])), PassDone, Q.ResumeDone, R.TurnStep)
    ensures R.Next(OneStream(R.Turn([])), R.TurnStep) == OneStream(R.Serving)
  {
    assert [(1, 0)][1..] == [];
  }

  lemma ConnectionIsReplaced(es: seq<Event>)
    requires At(es, Q.State(OneCall(), 2, {}, Q.Serving), OneStream(R.Serving), OneLink(map[]))
    ensures At(es + [Lost] + [OfRequests(Q.FailPending([]))] + [Dialed([1])],
               Q.State(OneCall(), 2, {}, Q.Resuming(None)), OneStream(R.Turn([(1, 0)])), OneLink(map[]))
  {
    hide At, R.Next, R.Enabled, IsJoint, OneStream, OneLink;
    PassSteps();
    var b, l := OneCall(), OneLink(map[]);
    DoBoth(es, Q.State(b, 2, {}, Q.Serving), OneStream(R.Serving), l, Lost, Q.Disconnect, R.Disconnect);
    var es1 := es + [Lost];
    DoRequest(es1, Q.State(b, 2, {}, Q.Down), OneStream(R.Down), l, Q.FailPending([]));
    assert Q.Drain(b, []) == b;
    DoBoth(es1 + [OfRequests(Q.FailPending([]))], Q.State(b, 2, {}, Q.Idle), OneStream(R.Down), l,
           Dialed([1]), Q.Connect, R.Reconnect([1]));
  }

  lemma WaitRequests(b: Q.Books, n: nat)
    ensures var q0, q1 := Q.State(b, n, {}, Q.Resuming(None)), Q.State(b, n + 1, {Q.Resume(n)}, Q.Resuming(Some(n)));
            var q2 := Q.State(b, n + 1, {Q.Resume(n)}, Q.Resuming(None));
            && Q.Enabled(q0, Q.ResumeSend) && Q.Next(q0, Q.ResumeSend) == q1
            && Q.Enabled(q1, Q.Abandon) && Q.Next(q1, Q.Abandon) == q2
            && Q.Enabled(q2, Q.ResumeDone)
            && Q.Next(q2, Q.ResumeDone) == Q.State(b, n + 1, {Q.Resume(n)}, Q.Serving)
  {
    assert {} + {Q.Resume(n)} == {Q.Resume(n)};
  }

  lemma WaitIsBrokenOff(es: seq<Event>)
    requires At(es, Q.State(OneCall(), 2, {}, Q.Resuming(None)), OneStream(R.Turn([(1, 0)])), OneLink(map[]))
    ensures At(es + [TurnSends] + [TurnAbandoned] + [PassDone],
               Q.State(OneCall(), 3, {Q.Resume(2)}, Q.Serving), OneStream(R.Serving), OneLink(map[2 := 0]))
  {
    hide At, Q.Next, Q.Enabled, R.Next, R.Enabled, IsJoint, OneStream, OneCall, Turning;
    TurnSteps();
    WaitRequests(OneCall(), 2);
    var b, m := OneCall(), OneLink(map[2 := 0]);
    DoBoth(es, Q.State(b, 2, {}, Q.Resuming(None)), OneStream(R.Turn([(1, 0)])), OneLink(map[]),
           TurnSends, Q.ResumeSend, R.TurnStep);
    assert OneLink(map[]).resumeFor[2 := 0] == map[2 := 0];
    var es1 := es + [TurnSends];
    DoBoth(es1, Q.State(b, 3, {Q.Resume(2)}, Q.Resuming(Some(2))), OneStream(R.Await(1, 0, [])), m,
           TurnAbandoned, Q.Abandon, R.ResumeAbandoned);
    DoBoth(es1 + [TurnAbandoned], Q.State(b, 3, {Q.Resume(2)}, Q.Resuming(None)), OneStream(R.Turn([])), m,
           PassDone, Q.ResumeDone, R.TurnStep);
  }

  lemma LateReplyIsTaken(es: seq<Event>)
    requires At(es, Q.State(OneCall(), 3, {Q.Resume(2)}, Q.Serving), OneStream(R.Serving), OneLink(map[2 := 0]))
    ensures exists q, handles ::
              At(es + SentCall(1) + TakenReply(1, Q.Resume(2), 2), q,
                 R.State(map[1 := 0, 2 := 1], map[1 := 0, 2 := 1], handles, R.Serving, R.Free),
                 Links([0, 1], map[2 := 0], map[1 := Q.Client(0), 2 := Q.Resume(2)], map[0 := 1, 1 := 2]))
              && |handles| == 2
  {
    hide At;
    var b, l, r := OneCall(), OneLink(map[2 := 0]), OneStream(R.Serving);
    CallIsSent(es, b, 3, {Q.Resume(2)}, r, l);
    var sent := Q.InsertHeld(RequestTheorems.Taken(b), 1);
    assert sent.calls == [Q.Call(1, Q.Accepted), Q.Call(2, Q.Accepted)] && sent.pending == map[2 := 1];
    var q := Q.State(sent, 4, {Q.Resume(2)} + {Q.Client(1)}, Q.Serving);
    ReplyIsTaken(es + SentCall(1), q, r, l, 1, Q.Resume(2), 2);
    var handles := r.handles + [R.NewHandle(2).(pc := R.Live)];
    assert r.streams[2 := 1] == map[1 := 0, 2 := 1] && r.issued[2 := 1] == map[1 := 0, 2 := 1];
    assert l.callOf + [1] == [0, 1] && l.grant[2 := Q.Resume(2)] == map[1 := Q.Client(0), 2 := Q.Resume(2)];
    assert l.got[1 := 2] == map[0 := 1, 1 := 2];
    assert At(es + SentCall(1) + TakenReply(1, Q.Resume(2), 2), Q.HandleReply(q, Q.Resume(2)),
              R.State(map[1 := 0, 2 := 1], map[1 := 0, 2 := 1], handles, R.Serving, R.Free),
              Links([0, 1], map[2 := 0], map[1 := Q.Client(0), 2 := Q.Resume(2)], map[0 := 1, 1 := 2]));
  }

  lemma LateStartRuns()
    ensures exists q, handles ::
              At(LateStart(), q, R.State(map[1 := 0, 2 := 1], map[1 := 0, 2 := 1], handles, R.Serving, R.Free),
                 Links([0, 1], map[2 := 0], map[1 := Q.Client(0), 2 := Q.Resume(2)], map[0 := 1, 1 := 2]))
              && |handles| == 2
  {
    hide At;
    FirstStreamStarts();
    var es1 := SentCall(0) + TakenReply(0, Q.Client(0), 1);
    ConnectionIsReplaced(es1);
    WaitIsBrokenOff(es1 + [Lost] + [OfRequests(Q.FailPending([]))] + [Dialed([1])]);
    var es2 := es1 + BrokenPass();
    assert es2
        == es1 + [Lost] + [OfRequests(Q.FailPending([]))] + [Dialed([1])] + [TurnSends] + [TurnAbandoned] + [PassDone];
    LateReplyIsTaken(es2);
    assert es2 + SentCall(1) + TakenReply(1, Q.Resume(2), 2) == LateStart();
  }

  /** The run ends with stream 1 in the map under an id that the server issued in answer to the resume
      request of stream 0. */
  lemma LateReplyStartsAStream()
    ensures Run(LateStart()).Some? && IsLegal(Run(LateStart()).value)
    ensures var s := Run(LateStart()).value;
            && s.links.callOf == [0, 1] && s.links.resumeFor == map[2 := 0]
            && s.links.grant == map[1 := Q.Client(0), 2 := Q.Resume(2)]
            && Streams(s).streams == map[1 := 0, 2 := 1] && RequestTheorems.MisdeliveredTo(s.requestRun, 1)
  {
    LateStartRuns();
    hide Q.Legal, Q.After, R.Legal, R.After, Run, LateStart, RequestTheorems.MisdeliveredTo;
    StreamIsItsOwnIff(LateStart(), 1);
    var s := Run(LateStart()).value;
    assert Streams(s).issued[2] == 1 && !MadeFor(s.links, s.links.grant[2], 1);
  }
}
