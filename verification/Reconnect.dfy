/** The reconnection loop: what it publishes, how often it dials, how long it sleeps. A round is one
    pass of the loop; what ends a connection, whether a dial succeeds and what other tasks do to the
    shutdown token and the channel are arbitrary. */
module Reconnect {
  import opened Base
  import opened Backoff

  /** What happens in a round: whether shutdown was asked for and whether the request channel is
      closed when the connection has ended, and whether the dial succeeds. */
  datatype Round = Round(shutdown: bool, closed: bool, connects: bool)

  datatype Step =
    | Served                        // `run_single_connection` has returned
    | PendingFailed
    | GaveUp                        // published: disconnected, too many attempts
    | Reconnecting(attempt: nat)    // published
    | Slept(ms: nat)
    | Dialed(connected: bool)
    | Connected                     // published
    | Resumed                       // the resume pass
    | PendingCleaned
    | StreamsCleaned

  datatype Config = Config(maxAttempts: Option<nat>, maxDelay: nat)

  predicate TooMany(c: Config, attempt: nat) {
    c.maxAttempts.Some? && attempt > c.maxAttempts.value
  }

  /** The loop leaves in this round, `attempt` failures after the last connect. */
  predicate Leaves(c: Config, attempt: nat, r: Round) {
    r.shutdown || r.closed || TooMany(c, attempt + 1)
  }

  function RoundLog(c: Config, attempt: nat, r: Round): seq<Step> {
    [Served, PendingFailed]
    + if r.shutdown || r.closed then []
      else if TooMany(c, attempt + 1) then [GaveUp]
      else [Reconnecting(attempt + 1), Slept(CalculateBackoff(attempt + 1, c.maxDelay)), Dialed(r.connects)]
           + if r.connects then [Connected, Resumed] else []
  }

  function AttemptAfter(attempt: nat, r: Round): nat {
    if r.connects then 0 else attempt + 1
  }

  /** What a run does over the given rounds: it ends with the clean-up once it leaves. */
  function Log(c: Config, attempt: nat, rounds: seq<Round>): seq<Step>
    decreases |rounds|
  {
    if rounds == [] then []
    else if Leaves(c, attempt, rounds[0]) then RoundLog(c, attempt, rounds[0]) + [PendingCleaned, StreamsCleaned]
    else RoundLog(c, attempt, rounds[0]) + Log(c, AttemptAfter(attempt, rounds[0]), rounds[1..])
  }

  /** One pass of the loop in the form of its source. */
  method RunRound(c: Config, attempt: nat, r: Round) returns (log: seq<Step>, reconnectAttempt: nat, left: bool)
    ensures log == RoundLog(c, attempt, r) && left == Leaves(c, attempt, r)
    ensures !left ==> reconnectAttempt == AttemptAfter(attempt, r)
  {
    hide CalculateBackoff;
    log := [Served, PendingFailed];
    reconnectAttempt := attempt;
    if r.shutdown {
      return log, reconnectAttempt, true;
    }
    if r.closed {
      return log, reconnectAttempt, true;
    }
    reconnectAttempt := reconnectAttempt + 1;
    if c.maxAttempts.Some? {
      if reconnectAttempt > c.maxAttempts.value {
        log := log + [GaveUp];
        return log, reconnectAttempt, true;
      }
    }
    var backoff := CalculateBackoff(reconnectAttempt, c.maxDelay);
    log := log + [Reconnecting(reconnectAttempt), Slept(backoff)];
    log := log + [Dialed(r.connects)];
    if r.connects {
      reconnectAttempt := 0;
      log := log + [Connected, Resumed];
    }
    left := false;
  }

  /** The loop over at most the given rounds. */
  method RunConnectionLoop(c: Config, rounds: seq<Round>) returns (log: seq<Step>)
    ensures log == Log(c, 0, rounds)
  {
    hide RoundLog, Leaves;
    log := [];
    var reconnectAttempt := 0;
    var i := 0;
    while i < |rounds|
      invariant i <= |rounds|
      invariant log + Log(c, reconnectAttempt, rounds[i..]) == Log(c, 0, rounds)
    {
      assert rounds[i..][1..] == rounds[i + 1..];
      var round, attempt, left := RunRound(c, reconnectAttempt, rounds[i]);
      log := log + round;
      if left {
        log := log + [PendingCleaned, StreamsCleaned];
        return;
      }
      reconnectAttempt := attempt;
      i := i + 1;
    }
  }

  // ----- the attempts -----

  /** The attempts published since the last successful dial. */
  function Attempts(log: seq<Step>): nat
    decreases |log|
  {
    if log == [] then 0
    else
      var last := log[|log| - 1];
      if last == Dialed(true) then 0
      else Attempts(log[..|log| - 1]) + if last.Reconnecting? then 1 else 0
  }

  /** Every published attempt is numbered by its place since the last successful dial, and is no
      larger than the configured maximum. */
  ghost predicate Numbered(c: Config, log: seq<Step>) {
    forall i :: 0 <= i < |log| && log[i].Reconnecting? ==>
      log[i].attempt == Attempts(log[..i]) + 1 && !TooMany(c, log[i].attempt)
  }

  lemma NumberedStep(c: Config, log: seq<Step>, s: Step)
    requires Numbered(c, log)
    requires s.Reconnecting? ==> s.attempt == Attempts(log) + 1 && !TooMany(c, s.attempt)
    ensures Numbered(c, log + [s])
    ensures Attempts(log + [s]) == if s == Dialed(true) then 0 else Attempts(log) + if s.Reconnecting? then 1 else 0
  {
    var l := log + [s];
    assert l[..|log|] == log;
    forall i | 0 <= i < |l| && l[i].Reconnecting?
      ensures l[i].attempt == Attempts(l[..i]) + 1 && !TooMany(c, l[i].attempt)
    {
      assert l[..i] == log[..i];
    }
  }

  lemma {:induction false} NumberedSteps(c: Config, log: seq<Step>, steps: seq<Step>)
    requires Numbered(c, log)
    requires forall i :: 0 <= i < |steps| ==> !steps[i].Reconnecting? && steps[i] != Dialed(true)
    ensures Numbered(c, log + steps) && Attempts(log + steps) == Attempts(log)
    decreases |steps|
  {
    if steps == [] {
      assert log + steps == log;
    } else {
      NumberedStep(c, log, steps[0]);
      NumberedSteps(c, log + [steps[0]], steps[1..]);
      assert log + [steps[0]] + steps[1..] == log + steps;
    }
  }

  lemma RoundIsNumbered(c: Config, log: seq<Step>, attempt: nat, r: Round)
    requires Numbered(c, log) && Attempts(log) == attempt
    ensures Numbered(c, log + RoundLog(c, attempt, r))
    ensures !Leaves(c, attempt, r) ==> Attempts(log + RoundLog(c, attempt, r)) == AttemptAfter(attempt, r)
  {
    hide CalculateBackoff, Attempts, Numbered;
    var l := log + [Served, PendingFailed];
    NumberedSteps(c, log, [Served, PendingFailed]);
    if r.shutdown || r.closed {
      assert l == log + RoundLog(c, attempt, r);
    } else if TooMany(c, attempt + 1) {
      NumberedStep(c, l, GaveUp);
      assert l + [GaveUp] == log + RoundLog(c, attempt, r);
    } else {
      var again, slept := Reconnecting(attempt + 1), Slept(CalculateBackoff(attempt + 1, c.maxDelay));
      var after := if r.connects then [Connected, Resumed] else [];
      NumberedStep(c, l, again);
      NumberedStep(c, l + [again], slept);
      NumberedStep(c, l + [again] + [slept], Dialed(r.connects));
      NumberedSteps(c, l + [again] + [slept] + [Dialed(r.connects)], after);
      assert l + [again] + [slept] + [Dialed(r.connects)] + after == log + RoundLog(c, attempt, r);
    }
  }

  lemma {:induction false} RestIsNumbered(c: Config, log: seq<Step>, attempt: nat, rounds: seq<Round>)
    requires Numbered(c, log) && Attempts(log) == attempt
    ensures Numbered(c, log + Log(c, attempt, rounds))
    decreases |rounds|
  {
    if rounds == [] {
      assert log + Log(c, attempt, rounds) == log;
    } else {
      var r := RoundLog(c, attempt, rounds[0]);
      RoundIsNumbered(c, log, attempt, rounds[0]);
      if Leaves(c, attempt, rounds[0]) {
        NumberedSteps(c, log + r, [PendingCleaned, StreamsCleaned]);
        assert log + r + [PendingCleaned, StreamsCleaned] == log + Log(c, attempt, rounds);
      } else {
        RestIsNumbered(c, log + r, AttemptAfter(attempt, rounds[0]), rounds[1..]);
        assert log + r + Log(c, AttemptAfter(attempt, rounds[0]), rounds[1..]) == log + Log(c, attempt, rounds);
      }
    }
  }

  /** Between two successful dials the attempts are published as 1, 2, 3, and so on, never above the
      maximum. */
  lemma AttemptsAreConsecutive(c: Config, rounds: seq<Round>)
    ensures Numbered(c, Log(c, 0, rounds))
  {
    RestIsNumbered(c, [], 0, rounds);
    assert [] + Log(c, 0, rounds) == Log(c, 0, rounds);
  }

  // ----- the order of the steps -----

  /** What the loop does next after a step. */
  predicate MayFollow(c: Config, s: Step, t: Step) {
    match s
    case Served => t.PendingFailed?
    case PendingFailed => t.Reconnecting? || t.GaveUp? || t.PendingCleaned?
    case GaveUp => t.PendingCleaned?
    case Reconnecting(attempt) => t == Slept(CalculateBackoff(attempt, c.maxDelay))
    case Slept(_) => t.Dialed?
    case Dialed(connected) => if connected then t.Connected? else t.Served?
    case Connected => t.Resumed?
    case Resumed => t.Served?
    case PendingCleaned => t.StreamsCleaned?
    case StreamsCleaned => false
  }

  /** A step at which the log may end: the loop goes on, or has returned. */
  predicate MayEnd(s: Step) {
    s.Resumed? || s == Dialed(false) || s.StreamsCleaned?
  }

  ghost predicate InOrder(c: Config, log: seq<Step>) {
    && (log != [] ==> log[0].Served? && MayEnd(log[|log| - 1]))
    && forall i :: 0 <= i < |log| - 1 ==> MayFollow(c, log[i], log[i + 1])
  }

  lemma AppendInOrder(c: Config, log: seq<Step>, more: seq<Step>)
    requires InOrder(c, log) && InOrder(c, more)
    requires log != [] ==> !log[|log| - 1].StreamsCleaned?
    ensures InOrder(c, log + more)
  {
    hide CalculateBackoff;
  }

  /** Every connection that ends has its pending requests failed; every published attempt is followed by
      its own delay and by a dial; a successful dial is published and followed by the resume pass, and
      nothing else is; giving up, and only leaving, is followed by the two clean-ups. */
  lemma {:induction false} StepsAreInOrder(c: Config, attempt: nat, rounds: seq<Round>)
    ensures InOrder(c, Log(c, attempt, rounds))
    decreases |rounds|
  {
    hide CalculateBackoff;
    if rounds != [] {
      if Leaves(c, attempt, rounds[0]) {
        assert InOrder(c, RoundLog(c, attempt, rounds[0]) + [PendingCleaned, StreamsCleaned]);
      } else {
        assert InOrder(c, RoundLog(c, attempt, rounds[0]));
        StepsAreInOrder(c, AttemptAfter(attempt, rounds[0]), rounds[1..]);
        AppendInOrder(c, RoundLog(c, attempt, rounds[0]), Log(c, AttemptAfter(attempt, rounds[0]), rounds[1..]));
      }
    }
  }

  // ----- the end -----

  /** The loop leaves in one of the rounds. */
  predicate SomeRoundLeaves(c: Config, attempt: nat, rounds: seq<Round>)
    decreases |rounds|
  {
    rounds != [] && (Leaves(c, attempt, rounds[0]) || SomeRoundLeaves(c, AttemptAfter(attempt, rounds[0]), rounds[1..]))
  }

  predicate IsCleanUp(s: Step) {
    s.PendingCleaned? || s.StreamsCleaned?
  }

  /** The loop cleans up exactly when it leaves, once, and does nothing afterwards. */
  lemma {:induction false} CleansUpIffItLeaves(c: Config, attempt: nat, rounds: seq<Round>)
    ensures var log := Log(c, attempt, rounds);
            if SomeRoundLeaves(c, attempt, rounds) then
              && |log| >= 2 && log[|log| - 2..] == [PendingCleaned, StreamsCleaned]
              && (forall i :: 0 <= i < |log| - 2 ==> !IsCleanUp(log[i]))
            else forall i :: 0 <= i < |log| ==> !IsCleanUp(log[i])
    decreases |rounds|
  {
    hide CalculateBackoff;
    if rounds != [] {
      var rest := Log(c, AttemptAfter(attempt, rounds[0]), rounds[1..]);
      var round := RoundLog(c, attempt, rounds[0]);
      assert forall i :: 0 <= i < |round| ==> !IsCleanUp(round[i]);
      if !Leaves(c, attempt, rounds[0]) {
        CleansUpIffItLeaves(c, AttemptAfter(attempt, rounds[0]), rounds[1..]);
        var log := Log(c, attempt, rounds);
        assert log == round + rest;
        assert forall i :: |round| <= i < |log| ==> log[i] == rest[i - |round|];
        assert SomeRoundLeaves(c, AttemptAfter(attempt, rounds[0]), rounds[1..]) ==>
            log[|log| - 2..] == rest[|rest| - 2..];
      } else {
        assert Log(c, attempt, rounds) == round + [PendingCleaned, StreamsCleaned];
      }
    }
  }

  // ----- the round in which it leaves -----

  /** The dials that fail in a row at the end of `rounds`, after `attempt` failures. */
  function Failures(attempt: nat, rounds: seq<Round>): nat
    decreases |rounds|
  {
    if rounds == [] then attempt
    else if rounds[|rounds| - 1].connects then 0
    else Failures(attempt, rounds[..|rounds| - 1]) + 1
  }

  lemma {:induction false} FailuresAfter(attempt: nat, r: Round, rounds: seq<Round>)
    ensures Failures(AttemptAfter(attempt, r), rounds) == Failures(attempt, [r] + rounds)
    decreases |rounds|
  {
    var all := [r] + rounds;
    if rounds == [] {
      assert all[..0] == [];
    } else {
      FailuresAfter(attempt, r, rounds[..|rounds| - 1]);
      assert all[..|all| - 1] == [r] + rounds[..|rounds| - 1];
    }
  }

  /** Shutdown was asked for, the channel is closed, or the attempts are used up. */
  predicate HasReasonToLeave(c: Config, attempt: nat, rounds: seq<Round>, i: nat)
    requires i < |rounds|
  {
    rounds[i].shutdown || rounds[i].closed || TooMany(c, Failures(attempt, rounds[..i]) + 1)
  }

  /** The dials of a run, in order, and whether each succeeded. */
  function Outcomes(log: seq<Step>): seq<bool> {
    if log == [] then [] else (if log[0].Dialed? then [log[0].connected] else []) + Outcomes(log[1..])
  }

  lemma {:induction false} OutcomesAppend(log: seq<Step>, more: seq<Step>)
    ensures Outcomes(log + more) == Outcomes(log) + Outcomes(more)
  {
    if log == [] {
      assert log + more == more;
    } else {
      OutcomesAppend(log[1..], more);
      assert (log + more)[1..] == log[1..] + more;
    }
  }

  lemma {:induction false} NoDialsNoOutcomes(log: seq<Step>)
    requires forall i :: 0 <= i < |log| ==> !log[i].Dialed?
    ensures Outcomes(log) == []
  {
    if log != [] {
      NoDialsNoOutcomes(log[1..]);
    }
  }

  lemma RoundOutcomes(c: Config, attempt: nat, r: Round)
    ensures Outcomes(RoundLog(c, attempt, r)) == if Leaves(c, attempt, r) then [] else [r.connects]
    ensures Outcomes([PendingCleaned, StreamsCleaned]) == []
    ensures GaveUp in RoundLog(c, attempt, r) <==> Leaves(c, attempt, r) && !r.shutdown && !r.closed
  {
    hide CalculateBackoff;
    var l := RoundLog(c, attempt, r);
    NoDialsNoOutcomes([PendingCleaned, StreamsCleaned]);
    if Leaves(c, attempt, r) {
      NoDialsNoOutcomes(l);
      assert !r.shutdown && !r.closed ==> l[2] == GaveUp;
    } else {
      OneDial(l[..4], r.connects, l[5..]);
      assert l == l[..4] + ([Dialed(r.connects)] + l[5..]);
    }
  }

  lemma OneDial(before: seq<Step>, connected: bool, after: seq<Step>)
    requires forall i :: 0 <= i < |before| ==> !before[i].Dialed?
    requires forall i :: 0 <= i < |after| ==> !after[i].Dialed?
    ensures Outcomes(before + ([Dialed(connected)] + after)) == [connected]
  {
    NoDialsNoOutcomes(before);
    NoDialsNoOutcomes(after);
    OutcomesAppend(before, [Dialed(connected)] + after);
    assert ([Dialed(connected)] + after)[1..] == after;
  }

  /** The dials come from the rounds before the first in which there is a reason to leave. */
  predicate UpToFirstReason(c: Config, attempt: nat, rounds: seq<Round>, outcomes: seq<bool>) {
    var n := |outcomes|;
    && n <= |rounds|
    && (forall i :: 0 <= i < n ==> outcomes[i] == rounds[i].connects && !HasReasonToLeave(c, attempt, rounds, i))
    && (n < |rounds| ==> HasReasonToLeave(c, attempt, rounds, n))
  }

  lemma ReasonsLater(c: Config, attempt: nat, rounds: seq<Round>, outcomes: seq<bool>)
    requires rounds != [] && !Leaves(c, attempt, rounds[0])
    requires UpToFirstReason(c, AttemptAfter(attempt, rounds[0]), rounds[1..], outcomes)
    ensures UpToFirstReason(c, attempt, rounds, [rounds[0].connects] + outcomes)
  {
    var r, rest := rounds[0], rounds[1..];
    assert !HasReasonToLeave(c, attempt, rounds, 0) by { assert rounds[..0] == []; }
    forall i | 0 <= i < |rest|
      ensures HasReasonToLeave(c, AttemptAfter(attempt, r), rest, i) <==> HasReasonToLeave(c, attempt, rounds, i + 1)
    {
      FailuresAfter(attempt, r, rest[..i]);
      assert rounds[..i + 1] == [r] + rest[..i];
    }
  }

  /** The loop dials once in every round, with the outcome of that round, up to the first in which it has
      a reason to leave, in which it leaves; it gives up exactly if that reason is only the attempts. */
  lemma {:induction false} LeavesAtFirstReason(c: Config, attempt: nat, rounds: seq<Round>)
    ensures UpToFirstReason(c, attempt, rounds, Outcomes(Log(c, attempt, rounds)))
    ensures var n := |Outcomes(Log(c, attempt, rounds))|;
            && (n < |rounds| <==> SomeRoundLeaves(c, attempt, rounds))
            && (GaveUp in Log(c, attempt, rounds) <==> n < |rounds| && !rounds[n].shutdown && !rounds[n].closed)
    decreases |rounds|
  {
    hide CalculateBackoff, RoundLog, UpToFirstReason, Leaves;
    if rounds == [] {
      assert UpToFirstReason(c, attempt, [], []) by { NoRounds(c, attempt); }
    } else {
      var r, rest, more := rounds[0], rounds[1..], AttemptAfter(attempt, rounds[0]);
      RoundOutcomes(c, attempt, r);
      if Leaves(c, attempt, r) {
        OutcomesAppend(RoundLog(c, attempt, r), [PendingCleaned, StreamsCleaned]);
        LeavesAtOnce(c, attempt, rounds);
      } else {
        LeavesAtFirstReason(c, more, rest);
        OutcomesAppend(RoundLog(c, attempt, r), Log(c, more, rest));
        ReasonsLater(c, attempt, rounds, Outcomes(Log(c, more, rest)));
        InRange(c, more, rest, Outcomes(Log(c, more, rest)));
      }
    }
  }

  lemma NoRounds(c: Config, attempt: nat)
    ensures UpToFirstReason(c, attempt, [], [])
  {
  }

  lemma LeavesAtOnce(c: Config, attempt: nat, rounds: seq<Round>)
    requires rounds != [] && Leaves(c, attempt, rounds[0])
    ensures UpToFirstReason(c, attempt, rounds, [])
  {
    assert rounds[..0] == [];
  }

  lemma InRange(c: Config, attempt: nat, rounds: seq<Round>, outcomes: seq<bool>)
    requires UpToFirstReason(c, attempt, rounds, outcomes)
    ensures |outcomes| <= |rounds|
  {
  }

  // ----- a long outage -----

  /** No dial succeeds in the rounds from `i` up to `j`. */
  predicate Outage(rounds: seq<Round>, i: nat, j: nat)
    requires j <= |rounds|
  {
    forall k :: i <= k < j ==> !rounds[k].connects
  }

  lemma {:induction false} OutageEndsSoon(c: Config, attempt: nat, rounds: seq<Round>, m: nat)
    requires c.maxAttempts == Some(m) && attempt <= m && m + 1 - attempt <= |rounds|
    requires Outage(rounds, 0, m + 1 - attempt)
    ensures SomeRoundLeaves(c, attempt, rounds)
    decreases m - attempt
  {
    if !Leaves(c, attempt, rounds[0]) {
      assert Outage(rounds[1..], 0, m - attempt);
      OutageEndsSoon(c, attempt + 1, rounds[1..], m);
    }
  }

  /** Termination: with a maximum of `m`, no run gets through `m + 1` rounds without a successful
      dial, whenever the outage begins. */
  lemma {:induction false} LongOutageEndsTheRun(c: Config, attempt: nat, rounds: seq<Round>, m: nat, i: nat)
    requires c.maxAttempts == Some(m) && attempt <= m && i + m + 1 <= |rounds| && Outage(rounds, i, i + m + 1)
    ensures SomeRoundLeaves(c, attempt, rounds)
    decreases i
  {
    if i == 0 {
      OutageEndsSoon(c, attempt, rounds, m);
    } else if !Leaves(c, attempt, rounds[0]) {
      assert Outage(rounds[1..], i - 1, i + m);
      LongOutageEndsTheRun(c, AttemptAfter(attempt, rounds[0]), rounds[1..], m, i - 1);
    }
  }

  // ----- giving up -----

  function Dials(log: seq<Step>): nat
    decreases |log|
  {
    if log == [] then 0 else (if log[0].Dialed? then 1 else 0) + Dials(log[1..])
  }

  function SleepTime(log: seq<Step>): nat
    decreases |log|
  {
    if log == [] then 0 else (if log[0].Slept? then log[0].ms else 0) + SleepTime(log[1..])
  }

  /** Nobody shuts down, the channel stays open, and no dial succeeds. */
  predicate AllFail(rounds: seq<Round>) {
    forall i :: 0 <= i < |rounds| ==> rounds[i] == Round(false, false, false)
  }

  lemma FailedRound(log: seq<Step>, attempt: nat, ms: nat)
    ensures var l := [Served, PendingFailed, Reconnecting(attempt), Slept(ms), Dialed(false)] + log;
            Dials(l) == Dials(log) + 1 && SleepTime(l) == SleepTime(log) + ms
  {
    var l := [Served, PendingFailed, Reconnecting(attempt), Slept(ms), Dialed(false)] + log;
    assert l[1..][1..] == l[2..] && l[2..][1..] == l[3..] && l[3..][1..] == l[4..] && l[4..][1..] == l[5..] == log;
    assert Dials(l) == Dials(l[1..]) == Dials(l[2..]) == Dials(l[3..]) == Dials(l[4..]);
    assert SleepTime(l) == SleepTime(l[1..]) == SleepTime(l[2..]) == SleepTime(l[3..]);
    assert SleepTime(l[3..]) == ms + SleepTime(l[4..]);
    assert SleepTime(l[4..]) == SleepTime(l[5..]);
  }

  lemma LastRound()
    ensures var l := [Served, PendingFailed, GaveUp, PendingCleaned, StreamsCleaned]; Dials(l) == 0 && SleepTime(l) == 0
  {
    var l := [Served, PendingFailed, GaveUp, PendingCleaned, StreamsCleaned];
    assert l[1..] == [PendingFailed, GaveUp, PendingCleaned, StreamsCleaned];
    assert l[1..][1..] == [GaveUp, PendingCleaned, StreamsCleaned];
    assert l[1..][1..][1..] == [PendingCleaned, StreamsCleaned];
    assert l[1..][1..][1..][1..] == [StreamsCleaned];
    assert Dials([StreamsCleaned]) == 0 && SleepTime([StreamsCleaned]) == 0;
    assert Dials(l[1..][1..][1..]) == 0 && SleepTime(l[1..][1..][1..]) == 0;
  }

  lemma {:induction false} GivesUpFrom(c: Config, attempt: nat, rounds: seq<Round>, m: nat)
    requires c.maxAttempts == Some(m) && attempt <= m && AllFail(rounds) && |rounds| > m - attempt
    ensures var log := Log(c, attempt, rounds);
            && Dials(log) == m - attempt
            && SleepTime(log) + TotalDelay(attempt, c.maxDelay) == TotalDelay(m, c.maxDelay)
            && |log| >= 3 && log[|log| - 3..] == [GaveUp, PendingCleaned, StreamsCleaned]
    decreases m - attempt
  {
    hide CalculateBackoff;
    var log := Log(c, attempt, rounds);
    if attempt == m {
      LastRound();
      assert log == [Served, PendingFailed, GaveUp, PendingCleaned, StreamsCleaned];
    } else {
      var rest := Log(c, attempt + 1, rounds[1..]);
      var ms := CalculateBackoff(attempt + 1, c.maxDelay);
      GivesUpFrom(c, attempt + 1, rounds[1..], m);
      FailedRound(rest, attempt + 1, ms);
      assert log == [Served, PendingFailed, Reconnecting(attempt + 1), Slept(ms), Dialed(false)] + rest;
      assert log[|log| - 3..] == rest[|rest| - 3..];
    }
  }

  /** If connecting always fails, the loop dials exactly `m` times, gives up and cleans up; for a
      maximum of up to 58 attempts its sleeps add up to no more than the capped exponential. */
  lemma GivesUpAfterExactly(c: Config, rounds: seq<Round>, m: nat)
    requires c.maxAttempts == Some(m) && AllFail(rounds) && |rounds| > m
    ensures var log := Log(c, 0, rounds);
            && Dials(log) == m
            && |log| >= 3 && log[|log| - 3..] == [GaveUp, PendingCleaned, StreamsCleaned]
            && (m <= 58 ==> SleepTime(log) <= INITIAL_BACKOFF_MS * (Pow2(m) - 1) && SleepTime(log) <= m * c.maxDelay)
  {
    GivesUpFrom(c, 0, rounds, m);
    if m <= 58 {
      TotalDelayIsBounded(m, c.maxDelay);
    }
  }
}
