/** The whole connection loop over its retries: a run of requests and streams that dials, waits and
    leaves as the configuration says performs the log of module `Reconnect`, and when it has returned,
    every accepted request is answered and every stream registered at the end is released. */
module GivingUp {
  import opened Base
  import opened Exchange
  import Runs = ExchangeTheorems
  import Backoff
  import Q = Requests
  import RequestTheorems = RequestsTheorems
  import R = Registry
  import MapInv = RegistryInv
  import MapSteps = RegistrySteps
  import StreamTheorems = RegistryTheorems
  import L = Reconnect
  import Sections = QuoteStreamClass
  import Flags = System

  // ----- the log of a run -----

  /** The failed dials since the last connect. */
  function Attempt(es: seq<Event>): nat
    decreases |es|
  {
    if es == [] then 0
    else
      match es[|es| - 1]
      case DialFails => Attempt(es[..|es| - 1]) + 1
      case Dialed(_) => 0
      case _ => Attempt(es[..|es| - 1])
  }

  function Retry(c: L.Config, attempt: nat): seq<L.Step> {
    [L.Reconnecting(attempt), L.Slept(Backoff.CalculateBackoff(attempt, c.maxDelay))]
  }

  /** What the loop does in an event; `asked` says whether it leaves because it was asked to. */
  function StepsOf(c: L.Config, asked: bool, attempt: nat, e: Event): seq<L.Step> {
    match e
    case Lost => [L.Served]
    case OfRequests(FailPending(_)) => [L.PendingFailed]
    case DialFails => Retry(c, attempt + 1) + [L.Dialed(false)]
    case Dialed(_) => Retry(c, attempt + 1) + [L.Dialed(true), L.Connected]
    case PassDone => [L.Resumed]
    case OfRequests(Exit) => if asked then [] else [L.GaveUp]
    case OfRequests(CleanUp(_)) => [L.PendingCleaned]
    case Leaves => [L.StreamsCleaned]
    case _ => []
  }

  function Steps(c: L.Config, asked: bool, es: seq<Event>): seq<L.Step>
    decreases |es|
  {
    if es == [] then []
    else
      var before := es[..|es| - 1];
      Steps(c, asked, before) + StepsOf(c, asked, Attempt(before), es[|es| - 1])
  }

  function RoundsOf(asked: bool, e: Event): seq<L.Round> {
    match e
    case DialFails => [L.Round(false, false, false)]
    case Dialed(_) => [L.Round(false, false, true)]
    case OfRequests(Exit) => [L.Round(asked, false, false)]
    case _ => []
  }

  /** The rounds of the run: each ends with a dial, or with leaving. */
  function Rounds(asked: bool, es: seq<Event>): seq<L.Round>
    decreases |es|
  {
    if es == [] then [] else Rounds(asked, es[..|es| - 1]) + RoundsOf(asked, es[|es| - 1])
  }

  /** The run dials only while attempts are left, and leaves only when asked to or when none is. */
  predicate Obeys(c: L.Config, asked: bool, es: seq<Event>)
    decreases |es|
  {
    es == []
    || var before := es[..|es| - 1];
       && Obeys(c, asked, before)
       && match es[|es| - 1]
          case DialFails => !L.TooMany(c, Attempt(before) + 1)
          case Dialed(_) => !L.TooMany(c, Attempt(before) + 1)
          case OfRequests(Exit) => asked || L.TooMany(c, Attempt(before) + 1)
          case _ => true
  }

  // ----- where the loop stands -----

  datatype Stage = AtServing | AtDown | AtIdle | AtResuming | AtExiting | AtCleaned | AtLeft | AtGone

  function StageOf(p: Q.Phase, l: R.LoopPc): Stage {
    match p
    case Down => AtDown
    case Idle => AtIdle
    case Resuming(_) => AtResuming
    case Exiting => AtExiting
    case Cleaned => if l.Exited? then AtLeft else AtCleaned
    case Gone => AtGone
    case _ => AtServing
  }

  /** The stage before the event, if it changes the stage, and the stage after it. */
  function StageMove(e: Event): Option<(Stage, Stage)> {
    match e
    case Lost => Some((AtServing, AtDown))
    case OfRequests(FailPending(_)) => Some((AtDown, AtIdle))
    case DialFails => Some((AtIdle, AtServing))
    case Dialed(_) => Some((AtIdle, AtResuming))
    case PassDone => Some((AtResuming, AtServing))
    case OfRequests(Exit) => Some((AtIdle, AtExiting))
    case OfRequests(CleanUp(_)) => Some((AtExiting, AtCleaned))
    case Leaves => Some((AtCleaned, AtLeft))
    case OfRequests(DropReceiver) => Some((AtLeft, AtGone))
    case _ => None
  }

  function StageIn(s: State): Stage
    requires IsLegal(s)
  {
    StageOf(Requests(s).phase, Streams(s).loop)
  }

  /** What the log still lacks of the specified one, or is ahead of it. */
  ghost predicate LogFits(c: L.Config, stage: Stage, steps: seq<L.Step>, rounds: seq<L.Round>) {
    var log := L.Log(c, 0, rounds);
    match stage
    case AtServing => steps == log
    case AtDown => steps == log + [L.Served]
    case AtIdle => steps == log + [L.Served] + [L.PendingFailed]
    case AtResuming => steps + [L.Resumed] == log
    case AtExiting => steps + [L.PendingCleaned] + [L.StreamsCleaned] == log
    case AtCleaned => steps + [L.StreamsCleaned] == log
    case AtLeft => steps == log
    case AtGone => steps == log
  }

  predicate IsLeaving(stage: Stage) {
    stage.AtExiting? || stage.AtCleaned? || stage.AtLeft? || stage.AtGone?
  }

  function AttemptAfterAll(attempt: nat, rounds: seq<L.Round>): nat
    decreases |rounds|
  {
    if rounds == [] then attempt else AttemptAfterAll(L.AttemptAfter(attempt, rounds[0]), rounds[1..])
  }

  ghost predicate LogInv(c: L.Config, stage: Stage, attempt: nat, steps: seq<L.Step>, rounds: seq<L.Round>) {
    && LogFits(c, stage, steps, rounds)
    && L.SomeRoundLeaves(c, 0, rounds) == IsLeaving(stage)
    && (!IsLeaving(stage) ==> AttemptAfterAll(0, rounds) == attempt)
  }

  // ----- one more round -----

  lemma {:induction false} LogGrows(c: L.Config, a: nat, rounds: seq<L.Round>, r: L.Round)
    requires !L.SomeRoundLeaves(c, a, rounds)
    ensures var n, all := AttemptAfterAll(a, rounds), rounds + [r];
            && L.Log(c, a, all)
               == L.Log(c, a, rounds) + L.RoundLog(c, n, r)
                  + (if L.Leaves(c, n, r) then [L.PendingCleaned, L.StreamsCleaned] else [])
            && L.SomeRoundLeaves(c, a, all) == L.Leaves(c, n, r)
            && AttemptAfterAll(a, all) == L.AttemptAfter(n, r)
    decreases |rounds|
  {
    hide L.RoundLog;
    var all := rounds + [r];
    if rounds == [] {
      assert all[0] == r && all[1..] == [];
      assert L.Log(c, L.AttemptAfter(a, r), []) == [];
    } else {
      assert all[0] == rounds[0] && all[1..] == rounds[1..] + [r];
      LogGrows(c, L.AttemptAfter(a, rounds[0]), rounds[1..], r);
    }
  }

  lemma DialFits(c: L.Config, attempt: nat, steps: seq<L.Step>, rounds: seq<L.Round>, connects: bool)
    requires LogInv(c, AtIdle, attempt, steps, rounds) && !L.TooMany(c, attempt + 1)
    ensures LogInv(c, if connects then AtResuming else AtServing, if connects then 0 else attempt + 1,
                   steps + (Retry(c, attempt + 1)
                            + if connects then [L.Dialed(true), L.Connected] else [L.Dialed(false)]),
                   rounds + [L.Round(false, false, connects)])
  {
    LogGrows(c, 0, rounds, L.Round(false, false, connects));
  }

  lemma LeavingFits(c: L.Config, asked: bool, attempt: nat, steps: seq<L.Step>, rounds: seq<L.Round>)
    requires LogInv(c, AtIdle, attempt, steps, rounds) && (asked || L.TooMany(c, attempt + 1))
    ensures LogInv(c, AtExiting, attempt, steps + if asked then [] else [L.GaveUp],
                   rounds + [L.Round(asked, false, false)])
  {
    LogGrows(c, 0, rounds, L.Round(asked, false, false));
  }

  // ----- the run performs the log -----

  lemma OtherRequestStage(q: Q.State, e: Q.Event, l: R.LoopPc)
    requires Q.Enabled(q, e) && !ConcernsStreams(e) && (e.DropReceiver? ==> l.Exited?)
    requires InStep(q.phase, l)
    ensures var m := StageMove(OfRequests(e));
            if m.Some? then StageOf(q.phase, l) == m.value.0 && StageOf(Q.Next(q, e).phase, l) == m.value.1
            else StageOf(Q.Next(q, e).phase, l) == StageOf(q.phase, l)
  {
  }

  lemma OtherStreamStage(r: R.State, e: R.Event, p: Q.Phase)
    requires R.Enabled(r, e) && !ConcernsRequests(r, e) && InStep(p, r.loop)
    ensures StageOf(p, R.Next(r, e).loop) == StageOf(p, r.loop)
  {
    OtherStreams(r, e);
  }

  lemma ReplyStage(q: Q.State, r: R.State, o: Q.Origin, id: Option<Id>)
    requires Q.Inv(q) && Q.Enabled(q, Q.Reply(o)) && InStep(q.phase, r.loop)
    ensures StageOf(Q.Next(q, Q.Reply(o)).phase, r.loop) == StageOf(q.phase, r.loop)
    ensures IsAwaited(q, o) ==> forall l :: StageOf(Q.Next(q, Q.Reply(o)).phase, l) == StageOf(q.phase, r.loop)
  {
    ReplyIs(q, o);
  }

  lemma TurnStage(q: Q.State, e: Q.Event)
    requires Q.Enabled(q, e) && (e.ResumeSend? || e.ResumeFails? || e.Abandon?)
    ensures q.phase.Resuming? && Q.Next(q, e).phase.Resuming?
  {
  }

  lemma JointStage(q: Q.State, e: Q.Event, l: R.LoopPc, m: R.LoopPc)
    requires Q.Enabled(q, e) && (e.ResumeDone? || e.Disconnect? || e.ConnectFails? || e.Connect?)
    ensures StageOf(q.phase, l) == (if e.ResumeDone? then AtResuming else if e.Disconnect? then AtServing else AtIdle)
    ensures StageOf(Q.Next(q, e).phase, m)
         == (if e.Connect? then AtResuming else if e.Disconnect? then AtDown else AtServing)
  {
  }

  lemma TurnMoves(s: State, e: Event)
    requires Good(s) && Enabled(s, e) && (e.TurnSends? || e.TurnFails? || e.TurnAbandoned?)
    ensures IsLegal(Next(s, e)) && StageIn(Next(s, e)) == StageIn(s)
  {
    hide Q.Legal, Q.After, R.Legal, R.After, Q.Next, R.Next, Q.Enabled, R.Enabled;
    hide Linked, R.StepTurn, Turning, StageOf;
    var q, r := Requests(s), Streams(s);
    ResumingStage();
    match e
    case TurnSends =>
      Both(s, Q.ResumeSend, R.TurnStep);
      TurnStage(q, Q.ResumeSend);
    case TurnFails(reached) =>
      Both(s, Q.ResumeFails(reached), R.TurnStep);
      FailedTurnEnds(r);
      StreamTheorems.Extend(s.streamRun + [R.TurnStep], R.ResumeFailed);
      TurnStage(q, Q.ResumeFails(reached));
    case TurnAbandoned =>
      Both(s, Q.Abandon, R.ResumeAbandoned);
      TurnStage(q, Q.Abandon);
  }

  lemma JointMoves(s: State, e: Event)
    requires Good(s) && Enabled(s, e) && (e.PassDone? || e.Lost? || e.DialFails? || e.Dialed?)
    ensures IsLegal(Next(s, e))
    ensures StageMove(e) == Some((StageIn(s), StageIn(Next(s, e))))
  {
    hide Q.Legal, Q.After, R.Legal, R.After, Q.Next, R.Next, Q.Enabled, R.Enabled;
    hide Linked, R.StepTurn, StageOf;
    var q, r := Requests(s), Streams(s);
    match e
    case PassDone =>
      Both(s, Q.ResumeDone, R.TurnStep);
      JointStage(q, Q.ResumeDone, r.loop, R.Next(r, R.TurnStep).loop);
    case Lost =>
      Both(s, Q.Disconnect, R.Disconnect);
      JointStage(q, Q.Disconnect, r.loop, R.Next(r, R.Disconnect).loop);
    case DialFails =>
      Both(s, Q.ConnectFails, R.RetryOld);
      JointStage(q, Q.ConnectFails, r.loop, R.Next(r, R.RetryOld).loop);
    case Dialed(order) =>
      Both(s, Q.Connect, R.Reconnect(order));
      JointStage(q, Q.Connect, r.loop, R.Next(r, R.Reconnect(order)).loop);
  }

  /** Only these events change the stage, and each from the stage it belongs to. */
  lemma StageMoves(s: State, e: Event)
    requires Good(s) && Enabled(s, e)
    ensures IsLegal(Next(s, e))
    ensures var m := StageMove(e);
            if m.Some? then StageIn(s) == m.value.0 && StageIn(Next(s, e)) == m.value.1
            else StageIn(Next(s, e)) == StageIn(s)
  {
    hide Q.Legal, Q.After, R.Legal, R.After, Q.Next, R.Next, Q.Enabled, R.Enabled;
    hide R.StepTurn, ConcernsStreams, ConcernsRequests, R.LoopReady, IsAwaited, Issue, Turning, Q.Inv, InStep, StageOf;
    var q, r := Requests(s), Streams(s);
    RequestTheorems.RunKeepsInv(s.requestRun);
    match e
    case OfRequests(x) =>
      RequestTheorems.Extend(s.requestRun, x);
      OtherRequestStage(q, x, r.loop);
    case OfStreams(x) =>
      StreamTheorems.Extend(s.streamRun, x);
      OtherStreamStage(r, x, q.phase);
    case Started(c) =>
      StreamTheorems.Extend(s.streamRun, R.Accept(s.links.got[c]));
      AcceptStage(r, s.links.got[c]);
    case Replied(o, id) => RepliedStage(s, o, id);
    case TurnSends => TurnMoves(s, e);
    case TurnFails(_) => TurnMoves(s, e);
    case TurnAbandoned => TurnMoves(s, e);
    case Leaves =>
      StreamTheorems.Extend(s.streamRun, R.ExitLoop);
      LeavesStage(q.phase, r);
    case _ => JointMoves(s, e);
  }

  lemma AcceptStage(r: R.State, id: Id)
    requires R.Enabled(r, R.Accept(id))
    ensures R.Next(r, R.Accept(id)).loop == r.loop
  {
  }

  lemma ResumingStage()
    ensures forall p: Q.Phase, l :: p.Resuming? ==> StageOf(p, l) == AtResuming
  {
  }

  lemma LeavesStage(p: Q.Phase, r: R.State)
    requires p.Cleaned? && r.loop.Down? && R.Enabled(r, R.ExitLoop)
    ensures StageOf(p, r.loop) == AtCleaned && StageOf(p, R.Next(r, R.ExitLoop).loop) == AtLeft
  {
  }

  lemma RepliedStage(s: State, o: Q.Origin, id: Option<Id>)
    requires Good(s) && Enabled(s, Replied(o, id)) && Q.Inv(Requests(s))
    ensures IsLegal(Next(s, Replied(o, id))) && StageIn(Next(s, Replied(o, id))) == StageIn(s)
  {
    hide Q.Legal, Q.After, R.Legal, R.After, Q.Next, R.Next, Q.Enabled, R.Enabled;
    hide IsAwaited, Issue, Q.Inv, InStep, StageOf, Grant;
    var q, r := Requests(s), Streams(s);
    RequestTheorems.Extend(s.requestRun, Q.Reply(o));
    ReplyStage(q, r, o, id);
    if IsAwaited(q, o) {
      Both(s, Q.Reply(o), Grant(id));
    } else {
      assert s.streamRun + [] == s.streamRun;
    }
  }

  /** An event that neither dials nor leaves. */
  lemma PlainFits(c: L.Config, asked: bool, e: Event, before: Stage, after: Stage, attempt: nat,
                  steps: seq<L.Step>, rounds: seq<L.Round>)
    requires LogInv(c, before, attempt, steps, rounds) && RoundsOf(asked, e) == []
    requires var m := StageMove(e); if m.Some? then before == m.value.0 && after == m.value.1 else after == before
    ensures LogInv(c, after, attempt, steps + StepsOf(c, asked, attempt, e), rounds)
  {
    hide L.Log, L.SomeRoundLeaves, AttemptAfterAll;
    assert steps + [] == steps;
  }

  /** An event that leaves the stage alone, or belongs to it, keeps the log in order. */
  lemma StepFits(c: L.Config, asked: bool, es: seq<Event>, e: Event, before: Stage, after: Stage)
    requires LogInv(c, before, Attempt(es), Steps(c, asked, es), Rounds(asked, es))
    requires Obeys(c, asked, es + [e])
    requires var m := StageMove(e); if m.Some? then before == m.value.0 && after == m.value.1 else after == before
    ensures LogInv(c, after, Attempt(es + [e]), Steps(c, asked, es + [e]), Rounds(asked, es + [e]))
  {
    hide LogInv;
    var all := es + [e];
    assert all[..|all| - 1] == es && all[|all| - 1] == e;
    var steps, rounds := Steps(c, asked, es), Rounds(asked, es);
    match e
    case DialFails => DialFits(c, Attempt(es), steps, rounds, false);
    case Dialed(_) => DialFits(c, Attempt(es), steps, rounds, true);
    case OfRequests(Exit) => LeavingFits(c, asked, Attempt(es), steps, rounds);
    case _ =>
      PlainFits(c, asked, e, before, after, Attempt(es), steps, rounds);
      assert rounds + [] == rounds;
  }

  lemma EmptyRunFits(c: L.Config, asked: bool)
    ensures Run([]).Some? && IsLegal(Run([]).value)
    ensures LogInv(c, StageIn(Run([]).value), Attempt([]), Steps(c, asked, []), Rounds(asked, []))
  {
    assert Q.After([]) == Q.Init() && R.After([]) == R.Init();
  }

  lemma {:induction false} RunFits(c: L.Config, asked: bool, es: seq<Event>)
    requires Run(es).Some? && Obeys(c, asked, es)
    ensures IsLegal(Run(es).value)
    ensures LogInv(c, StageIn(Run(es).value), Attempt(es), Steps(c, asked, es), Rounds(asked, es))
    decreases |es|
  {
    hide Q.Legal, Q.After, R.Legal, R.After, Run, LogInv, Next, Enabled;
    hide StageMove, Steps, Rounds, Attempt, StageIn, Linked;
    RunIsGood(es);
    if es == [] {
      EmptyRunFits(c, asked);
    } else {
      var before, e := es[..|es| - 1], es[|es| - 1];
      RunsStep(es);
      RunFits(c, asked, before);
      RunIsGood(before);
      assert es == before + [e];
      var s := Run(before).value;
      StageMoves(s, e);
      StepFits(c, asked, before, e, StageIn(s), StageIn(Run(es).value));
    }
  }

  // ----- the final drain -----

  predicate HasEnded(x: R.Handle) {
    x.stopped && x.released
  }

  predicate IsDraining(sec: R.Section) {
    (sec.Draining? || ((sec.EndFlag? || sec.EndCas?) && sec.drain)) && sec.who.Loop?
  }

  /** Stream `h` has ended, or the loop's drain has still to come to it, or is ending it. */
  predicate IsCovered(r: R.State, h: nat) {
    h < |r.handles|
    && (HasEnded(r.handles[h])
        || (IsDraining(r.section)
            && ((exists k :: k in r.streams && r.streams[k] == h)
                || (r.section.EndFlag? && r.section.h == h)
                || (r.section.EndCas? && r.section.h == h && r.handles[h].stopped))))
  }

  lemma EndedStays(r: R.State, e: R.Event, h: nat)
    requires R.Enabled(r, e) && h < |r.handles| && HasEnded(r.handles[h])
    ensures h < |R.Next(r, e).handles| && HasEnded(R.Next(r, e).handles[h])
  {
    hide R.Enabled, R.Next;
    StreamTheorems.RekeyedOnlyByStore(r, e, h);
    if !Flags.ConcernsSlot(r, e) {
      Flags.OtherStreamEvents(r, e);
    } else {
      ReleaseStays(r, e, h);
    }
  }

  lemma ReleaseStays(r: R.State, e: R.Event, h: nat)
    requires R.Enabled(r, e) && Flags.ConcernsSlot(r, e) && h < |r.handles| && r.handles[h].released
    ensures h < |R.Next(r, e).handles| && R.Next(r, e).handles[h].released
  {
    hide R.Next;
    if e.Accept? {
      Flags.AcceptMarks(r, e.id);
    } else if e.HandleStep? {
      Flags.HandleMarks(r, e.h);
    } else {
      Flags.EndMarks(r);
    }
  }

  lemma DrainGoesOn(r: R.State, e: R.Event, h: nat)
    requires R.Enabled(r, e) && (e.SectionStep? || e.DrainOne?) && IsCovered(r, h) && !HasEnded(r.handles[h])
    ensures IsCovered(R.Next(r, e), h)
  {
    if e.DrainOne? {
      var k :| k in r.streams && r.streams[k] == h;
      assert k != e.id ==> k in R.Next(r, e).streams && R.Next(r, e).streams[k] == h;
    } else if k :| k in r.streams && r.streams[k] == h {
      assert R.Next(r, e).streams == r.streams;
    }
  }

  lemma CoveredStays(r: R.State, e: R.Event, h: nat)
    requires R.Enabled(r, e) && IsCovered(r, h)
    ensures IsCovered(R.Next(r, e), h)
  {
    hide R.Enabled, R.Next;
    if HasEnded(r.handles[h]) {
      EndedStays(r, e, h);
    } else if e.SectionStep? || e.DrainOne? {
      DrainGoesOn(r, e, h);
    } else {
      Sections.SectionStays(r, e);
    }
  }

  lemma LastStreamEvent(run: seq<R.Event>)
    requires R.Legal(run) && run != []
    ensures var before, e := run[..|run| - 1], run[|run| - 1];
            R.Legal(before) && R.Enabled(R.After(before), e) && R.After(run) == R.Next(R.After(before), e)
  {
    hide R.Enabled, R.Next;
  }

  lemma {:induction false} CoveredLater(run: seq<R.Event>, more: seq<R.Event>, h: nat)
    requires R.Legal(run) && R.Legal(run + more) && IsCovered(R.After(run), h)
    ensures IsCovered(R.After(run + more), h)
    ensures HasEnded(R.After(run).handles[h]) ==> HasEnded(R.After(run + more).handles[h])
    decreases |more|
  {
    hide R.Legal, R.After, R.Next, R.Enabled, HasEnded;
    if more == [] {
      assert run + more == run;
    } else {
      var rest, e := more[..|more| - 1], more[|more| - 1];
      LastStreamEvent(run + more);
      assert (run + more)[..|run + more| - 1] == run + rest;
      CoveredLater(run, rest, h);
      var r := R.After(run + rest);
      CoveredStays(r, e, h);
      if HasEnded(r.handles[h]) {
        EndedStays(r, e, h);
      }
    }
  }

  /** The streams in the map when the loop took the lock for its final drain. */
  ghost function LastStreams(es: seq<Event>): set<nat>
    requires Run(es).Some?
    decreases |es|
  {
    if es == [] then {}
    else if es[|es| - 1].Leaves? then
      var m := Streams(Run(es[..|es| - 1]).value).streams;
      set k | k in m :: m[k]
    else LastStreams(es[..|es| - 1])
  }

  predicate IsSettled(r: R.State, p: Q.Phase, h: nat) {
    IsCovered(r, h) && (p.Gone? ==> HasEnded(r.handles[h]))
  }

  ghost predicate LastInv(last: set<nat>, r: R.State, p: Q.Phase) {
    forall h :: h in last ==> IsSettled(r, p, h)
  }

  lemma StreamsRunOn(s: State, e: Event)
    requires IsLegal(s) && Enabled(s, e)
    ensures s.streamRun <= Next(s, e).streamRun
  {
  }

  lemma ReadyHasEnded(r: R.State, h: nat)
    requires IsCovered(r, h) && R.LoopReady(r)
    ensures HasEnded(r.handles[h])
  {
  }

  lemma GoneIsGone(s: State)
    requires IsLegal(s)
    ensures StageIn(s).AtGone? <==> Requests(s).phase.Gone?
  {
    hide Q.Legal, Q.After, R.Legal, R.After;
  }

  lemma EntryIsCovered(r: R.State, h: nat)
    requires MapInv.Inv(r) && R.Enabled(r, R.ExitLoop) && h in r.streams.Values
    ensures IsCovered(R.Next(r, R.ExitLoop), h)
  {
    assert MapInv.HomeInv(r);
  }

  lemma LeavesDrains(s: State, h: nat)
    requires Good(s) && Enabled(s, Leaves) && h in Streams(s).streams.Values
    ensures IsLegal(Next(s, Leaves)) && IsCovered(Streams(Next(s, Leaves)), h)
  {
    hide Q.Legal, Q.After, R.Legal, R.After, Linked;
    StreamTheorems.Extend(s.streamRun, R.ExitLoop);
    MapSteps.RunKeepsInv(s.streamRun);
    EntryIsCovered(Streams(s), h);
  }

  lemma DropNeedsReady(s: State)
    requires IsLegal(s) && Enabled(s, OfRequests(Q.DropReceiver))
    ensures R.LoopReady(Streams(s))
  {
  }

  lemma OneMore(s: State, e: Event, h: nat)
    requires Good(s) && Enabled(s, e) && IsLegal(Next(s, e)) && IsSettled(Streams(s), Requests(s).phase, h)
    ensures var t := Next(s, e); IsSettled(Streams(t), Requests(t).phase, h)
  {
    hide Q.Legal, Q.After, R.Legal, R.After, Next, Enabled, IsCovered, StageIn, Linked;
    StreamsRunOn(s, e);
    StageMoves(s, e);
    var t := Next(s, e);
    GoneIsGone(s);
    GoneIsGone(t);
    var more := t.streamRun[|s.streamRun|..];
    assert t.streamRun == s.streamRun + more;
    CoveredLater(s.streamRun, more, h);
    if Requests(t).phase.Gone? && !Requests(s).phase.Gone? {
      assert e == OfRequests(Q.DropReceiver);
      DropNeedsReady(s);
      ReadyHasEnded(Streams(s), h);
    }
  }

  lemma {:induction false} LastStreamsAreCovered(es: seq<Event>)
    requires Run(es).Some?
    ensures IsLegal(Run(es).value)
    ensures LastInv(LastStreams(es), Streams(Run(es).value), Requests(Run(es).value).phase)
    decreases |es|
  {
    hide Q.Legal, Q.After, R.Legal, R.After, Run, Next, Enabled, IsCovered, StageIn, Linked;
    RunIsGood(es);
    if es != [] {
      var before, e := es[..|es| - 1], es[|es| - 1];
      RunsStep(es);
      LastStreamsAreCovered(before);
      RunIsGood(before);
      var s, t := Run(before).value, Run(es).value;
      StageMoves(s, e);
      GoneIsGone(t);
      forall h | h in LastStreams(es)
        ensures IsSettled(Streams(t), Requests(t).phase, h)
      {
        if e.Leaves? {
          LeavesDrains(s, h);
        } else {
          OneMore(s, e, h);
        }
      }
    }
  }

  // ----- when the loop has returned -----

  /** However the loop came to leave, once it has returned its log is the specified one over the rounds
      of the run, a call was answered exactly when the channel had accepted it, and every stream that
      was registered when the loop took the lock for its final drain is stopped and released. */
  lemma LeavingSettlesEverything(c: L.Config, asked: bool, es: seq<Event>)
    requires Run(es).Some? && Obeys(c, asked, es) && IsLegal(Run(es).value)
    requires Requests(Run(es).value).phase.Gone?
    ensures Steps(c, asked, es) == L.Log(c, 0, Rounds(asked, es)) && L.SomeRoundLeaves(c, 0, Rounds(asked, es))
    ensures var b := Requests(Run(es).value).books;
            forall k: nat :: k < |b.calls| ==> (b.calls[k].pc.Accepted? <==> Q.IsAnswered(b, k))
    ensures var r := Streams(Run(es).value);
            forall h :: h in LastStreams(es) ==> h < |r.handles| && HasEnded(r.handles[h])
  {
    hide Q.Legal, Q.After, R.Legal, R.After, Run, Steps, Rounds, LastStreams, Obeys, StageIn;
    hide L.Log, L.SomeRoundLeaves;
    RunFits(c, asked, es);
    LastStreamsAreCovered(es);
    var s := Run(es).value;
    GoneIsGone(s);
    var b := Requests(s).books;
    forall k: nat | k < |b.calls| ensures b.calls[k].pc.Accepted? <==> Q.IsAnswered(b, k) {
      RequestTheorems.NoneIsLeftUnanswered(s.requestRun, k);
    }
  }

  predicate NeverConnects(es: seq<Event>) {
    forall i :: 0 <= i < |es| ==> !es[i].Dialed?
  }

  lemma {:induction false} AllRoundsFail(es: seq<Event>)
    requires NeverConnects(es)
    ensures L.AllFail(Rounds(false, es))
    decreases |es|
  {
    if es != [] {
      AllRoundsFail(es[..|es| - 1]);
    }
  }

  lemma {:induction false} LeavingTakesRounds(c: L.Config, attempt: nat, rounds: seq<L.Round>, m: nat)
    requires c.maxAttempts == Some(m) && L.AllFail(rounds) && L.SomeRoundLeaves(c, attempt, rounds) && attempt <= m
    ensures |rounds| > m - attempt
    decreases |rounds|
  {
    if attempt < m {
      LeavingTakesRounds(c, attempt + 1, rounds[1..], m);
    }
  }

  /** If connecting always fails and nobody asks the loop to leave, then when it has returned it has
      dialled exactly `m` times and given up, within the bound on its sleeps, every request the channel
      accepted is answered, and every stream registered at the end is released. */
  lemma GivingUpSettlesEverything(c: L.Config, m: nat, es: seq<Event>)
    requires Run(es).Some? && Obeys(c, false, es) && IsLegal(Run(es).value)
    requires c.maxAttempts == Some(m) && NeverConnects(es) && Requests(Run(es).value).phase.Gone?
    ensures var log := Steps(c, false, es);
            && L.Dials(log) == m
            && |log| >= 3 && log[|log| - 3..] == [L.GaveUp, L.PendingCleaned, L.StreamsCleaned]
            && (m <= 58 ==> L.SleepTime(log) <= Backoff.INITIAL_BACKOFF_MS * (Backoff.Pow2(m) - 1)
                            && L.SleepTime(log) <= m * c.maxDelay)
    ensures var b := Requests(Run(es).value).books;
            forall k: nat :: k < |b.calls| ==> (b.calls[k].pc.Accepted? <==> Q.IsAnswered(b, k))
    ensures var r := Streams(Run(es).value);
            forall h :: h in LastStreams(es) ==> h < |r.handles| && HasEnded(r.handles[h])
  {
    LeavingSettlesEverything(c, false, es);
    hide Run, Q.Legal, Q.After, R.Legal, R.After, Steps, Rounds, LastStreams;
    AllRoundsFail(es);
    LeavingTakesRounds(c, 0, Rounds(false, es), m);
    L.GivesUpAfterExactly(c, Rounds(false, es), m);
  }

  /** The shortest such run: the connection is lost, and no attempt is allowed. */
  function ShortRun(): seq<Event> {
    [Lost] + [OfRequests(Q.FailPending([]))] + [OfRequests(Q.Exit)] + [OfRequests(Q.CleanUp([]))] + [Leaves]
    + [OfStreams(R.SectionStep)] + [OfRequests(Q.DropReceiver)]
  }

  lemma ShortRunObeys()
    ensures Obeys(L.Config(Some(0), 1000), false, ShortRun()) && NeverConnects(ShortRun())
  {
    var c, es := L.Config(Some(0), 1000), ShortRun();
    assert es[..6][..5] == es[..5] && es[..5][..4] == es[..4] && es[..4][..3] == es[..3];
    assert es[..3][..2] == es[..2] && es[..2][..1] == es[..1] && es[..1][..0] == [];
    assert Attempt(es[..1]) == Attempt(es[..1][..0]) == 0;
    assert Attempt(es[..2]) == Attempt(es[..1]);
    assert Obeys(c, false, es[..1]);
    assert Obeys(c, false, es[..2]);
    assert Obeys(c, false, es[..3]);
    assert Obeys(c, false, es[..4]);
    assert Obeys(c, false, es[..5]);
    assert Obeys(c, false, es[..6]);
  }

  lemma QuietSteps(b: Q.Books)
    requires b.pending == map[]
    ensures Q.Enabled(Q.State(b, 1, {}, Q.Serving), Q.Disconnect)
    ensures Q.Next(Q.State(b, 1, {}, Q.Serving), Q.Disconnect) == Q.State(b, 1, {}, Q.Down)
    ensures Q.Enabled(Q.State(b, 1, {}, Q.Down), Q.FailPending([]))
    ensures Q.Next(Q.State(b, 1, {}, Q.Down), Q.FailPending([])) == Q.State(b, 1, {}, Q.Idle)
    ensures Q.Enabled(Q.State(b, 1, {}, Q.Idle), Q.Exit)
    ensures Q.Next(Q.State(b, 1, {}, Q.Idle), Q.Exit) == Q.State(b, 1, {}, Q.Exiting)
    ensures Q.Enabled(Q.State(b, 1, {}, Q.Exiting), Q.CleanUp([]))
    ensures Q.Next(Q.State(b, 1, {}, Q.Exiting), Q.CleanUp([])) == Q.State(b, 1, {}, Q.Cleaned)
  {
    assert Q.Drain(b, []) == b;
  }

  lemma LostAtStart()
    ensures R.Enabled(R.Init(), R.Disconnect) && R.Next(R.Init(), R.Disconnect) == R.Init().(loop := R.Down)
    ensures Runs.IsJoint(R.Init(), Lost, Q.Disconnect, R.Disconnect)
  {
  }

  lemma StartsEmpty()
    ensures Runs.At([], Q.Init(), R.Init(), Links([], map[], map[], map[]))
  {
  }

  lemma LoopCleansUp()
    ensures var b, r := Q.Init().books, R.Init().(loop := R.Down);
            Runs.At([Lost] + [OfRequests(Q.FailPending([]))] + [OfRequests(Q.Exit)] + [OfRequests(Q.CleanUp([]))],
                  Q.State(b, 1, {}, Q.Cleaned), r, Links([], map[], map[], map[]))
  {
    hide Runs.At, Q.Next, Q.Enabled, R.Next, R.Enabled, Runs.IsJoint;
    var b, r, l := Q.Init().books, R.Init().(loop := R.Down), Links([], map[], map[], map[]);
    StartsEmpty();
    QuietSteps(b);
    LostAtStart();
    Runs.DoBoth([], Q.Init(), R.Init(), l, Lost, Q.Disconnect, R.Disconnect);
    assert [] + [Lost] == [Lost];
    Runs.DoRequest([Lost], Q.State(b, 1, {}, Q.Down), r, l, Q.FailPending([]));
    Runs.DoRequest([Lost] + [OfRequests(Q.FailPending([]))], Q.State(b, 1, {}, Q.Idle), r, l, Q.Exit);
    Runs.DoRequest([Lost] + [OfRequests(Q.FailPending([]))] + [OfRequests(Q.Exit)], Q.State(b, 1, {}, Q.Exiting), r, l,
                 Q.CleanUp([]));
  }

  lemma LoopDrains(es: seq<Event>, q: Q.State, l: Links)
    requires Runs.At(es, q, R.Init().(loop := R.Down), l) && q.phase.Cleaned?
    ensures Runs.At(es + [Leaves] + [OfStreams(R.SectionStep)], q, R.Init().(loop := R.Exited), l)
  {
    hide Q.Legal, Q.After, R.Legal, R.After, Run;
    Runs.RunsOn(es, Leaves);
    StreamTheorems.Extend(Run(es).value.streamRun, R.ExitLoop);
    Runs.DoStream(es + [Leaves], q, R.Init().(loop := R.Exited, section := R.Draining(R.Loop)), l, R.SectionStep);
  }

  lemma LoopReturns(es: seq<Event>, q: Q.State, r: R.State, l: Links)
    requires Runs.At(es, q, r, l) && q.phase.Cleaned? && r.loop.Exited? && R.LoopReady(r)
    ensures Runs.At(es + [OfRequests(Q.DropReceiver)], Q.Next(q, Q.DropReceiver), r, l)
  {
    hide Q.Legal, Q.After, R.Legal, R.After, Run, Q.Next;
    Runs.RunsOn(es, OfRequests(Q.DropReceiver));
    RequestTheorems.Extend(Run(es).value.requestRun, Q.DropReceiver);
  }

  /** The loop does return after giving up. */
  lemma GivingUpHappens()
    ensures Run(ShortRun()).Some? && IsLegal(Run(ShortRun()).value)
    ensures Requests(Run(ShortRun()).value).phase.Gone?
    ensures Obeys(L.Config(Some(0), 1000), false, ShortRun()) && NeverConnects(ShortRun())
  {
    ShortRunObeys();
    hide Obeys, NeverConnects, Run, Q.Legal, Q.After, R.Legal, R.After;
    LoopCleansUp();
    var es := [Lost] + [OfRequests(Q.FailPending([]))] + [OfRequests(Q.Exit)] + [OfRequests(Q.CleanUp([]))];
    var q, l := Q.State(Q.Init().books, 1, {}, Q.Cleaned), Links([], map[], map[], map[]);
    LoopDrains(es, q, l);
    LoopReturns(es + [Leaves] + [OfStreams(R.SectionStep)], q, R.Init().(loop := R.Exited), l);
    assert es + [Leaves] + [OfStreams(R.SectionStep)] + [OfRequests(Q.DropReceiver)] == ShortRun();
  }
}
