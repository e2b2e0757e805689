/** The keepalive of `run_single_connection`: pings sent on the ticks of a timer, and the pongs that
    answer them (sections 5.5.2 and 5.5.3 of RFC 6455). Times are in nanoseconds. */
module Keepalive {

  const DEFAULT_PING_INTERVAL_MS: nat := 25_000
  const NANOS_PER_MS: nat := 1_000_000

  datatype Config = Config(pingIntervalMs: nat, pongTimeoutMs: nat)

  /** One pass of the `select!` loop: a tick, the time when the sending of its ping ended, and whether
      it was sent; a pong; anything else that does not end the connection. */
  datatype Event = Tick(at: nat, sentAt: nat, sends: bool) | Pong | Other

  datatype Status = Alive(awaitingPong: bool, lastPing: nat) | PongTimeout | PingFailed

  /** A timer of the runtime panics on an interval of zero. */
  function PingInterval(c: Config): (interval: nat)
    ensures interval > 0 && (c.pingIntervalMs > 0 ==> interval == NANOS_PER_MS * c.pingIntervalMs)
  {
    NANOS_PER_MS * if c.pingIntervalMs > 0 then c.pingIntervalMs else DEFAULT_PING_INTERVAL_MS
  }

  function PongTimeoutOf(c: Config): nat {
    NANOS_PER_MS * c.pongTimeoutMs
  }

  function Elapsed(since: nat, now: nat): nat {
    if since <= now then now - since else 0
  }

  function Step(c: Config, s: Status, e: Event): Status {
    if !s.Alive? then s
    else
      match e
      case Tick(at, sentAt, sends) =>
        if c.pongTimeoutMs > 0 && s.awaitingPong && Elapsed(s.lastPing, at) > PongTimeoutOf(c) then PongTimeout
        else if !sends then PingFailed
        else Alive(true, sentAt)
      case Pong => s.(awaitingPong := false)
      case Other => s
  }

  /** The connection after the given events. */
  function After(c: Config, start: nat, events: seq<Event>): Status
    decreases |events|
  {
    if events == [] then Alive(false, start)
    else Step(c, After(c, start, events[..|events| - 1]), events[|events| - 1])
  }

  /** The loop in the form of its source. */
  method RunSingleConnection(c: Config, start: nat, events: seq<Event>) returns (status: Status)
    ensures status == After(c, start, events)
  {
    var lastPing := start;
    var awaitingPong := false;
    var i := 0;
    while i < |events|
      invariant i <= |events|
      invariant After(c, start, events[..i]) == Alive(awaitingPong, lastPing)
    {
      assert events[..i + 1][..i] == events[..i];
      match events[i] {
        case Tick(now, sentAt, sends) =>
          if c.pongTimeoutMs > 0 && awaitingPong && Elapsed(lastPing, now) > PongTimeoutOf(c) {
            EndIsFinal(c, start, events, i + 1);
            return PongTimeout;
          }
          if !sends {
            EndIsFinal(c, start, events, i + 1);
            return PingFailed;
          }
          awaitingPong := true;
          lastPing := sentAt;
        case Pong => awaitingPong := false;
        case Other =>
      }
      i := i + 1;
    }
    assert events[..i] == events;
    status := Alive(awaitingPong, lastPing);
  }

  lemma {:induction false} EndIsFinal(c: Config, start: nat, events: seq<Event>, i: nat)
    requires i <= |events| && !After(c, start, events[..i]).Alive?
    ensures After(c, start, events) == After(c, start, events[..i])
    decreases |events|
  {
    if i == |events| {
      assert events[..i] == events;
    } else {
      assert events[..|events| - 1][..i] == events[..i];
      EndIsFinal(c, start, events[..|events| - 1], i);
    }
  }

  // ----- soundness -----

  /** `j` is the latest tick before `i`. */
  predicate IsLatestTick(events: seq<Event>, j: nat, i: nat)
    requires i <= |events|
  {
    j < i && events[j].Tick? && forall k :: j < k < i ==> !events[k].Tick?
  }

  /** No pong was processed between `j` and `i`. */
  predicate NoPong(events: seq<Event>, j: nat, i: nat)
    requires i <= |events|
  {
    forall k :: j < k < i ==> !events[k].Pong?
  }

  /** The loop awaits a pong exactly when none was processed since the latest tick, which was its
      latest ping. */
  lemma {:induction false} AwaitsSinceLatestPing(c: Config, start: nat, events: seq<Event>, i: nat)
    requires i <= |events| && After(c, start, events[..i]).Alive?
    ensures var s := After(c, start, events[..i]);
            && (s.awaitingPong <==> exists j: nat :: IsLatestTick(events, j, i) && NoPong(events, j, i))
            && (forall j: nat :: IsLatestTick(events, j, i) ==> s.lastPing == events[j].sentAt)
    decreases i
  {
    if i > 0 {
      assert events[..i][..i - 1] == events[..i - 1];
      AwaitsSinceLatestPing(c, start, events, i - 1);
      if events[i - 1].Tick? {
        assert IsLatestTick(events, i - 1, i) && NoPong(events, i - 1, i);
      } else {
        assert forall j: nat :: IsLatestTick(events, j, i) ==> IsLatestTick(events, j, i - 1);
        if After(c, start, events[..i]).awaitingPong {
          var j: nat :| IsLatestTick(events, j, i - 1) && NoPong(events, j, i - 1);
          assert IsLatestTick(events, j, i) && NoPong(events, j, i);
        }
      }
    }
  }

  /** Event `i` is a tick that comes more than the (positive) timeout after the latest ping was sent,
      with no pong in between. */
  ghost predicate IsOverdue(c: Config, events: seq<Event>, i: nat)
    requires i < |events|
  {
    && events[i].Tick? && c.pongTimeoutMs > 0
    && exists j: nat :: IsLatestTick(events, j, i) && NoPong(events, j, i)
                        && Elapsed(events[j].sentAt, events[i].at) > PongTimeoutOf(c)
  }

  /** Over any trace of events, the connection is given up for want of a pong exactly at such a tick. */
  lemma TimesOutIff(c: Config, start: nat, events: seq<Event>, i: nat)
    requires i < |events| && After(c, start, events[..i]).Alive?
    ensures After(c, start, events[..i + 1]).PongTimeout? <==> IsOverdue(c, events, i)
  {
    assert events[..i + 1][..i] == events[..i];
    AwaitsSinceLatestPing(c, start, events, i);
  }

  /** And it is given up for want of a ping exactly at a tick that is not overdue and whose ping is not
      sent. */
  lemma PingFailsIff(c: Config, start: nat, events: seq<Event>, i: nat)
    requires i < |events| && After(c, start, events[..i]).Alive?
    ensures After(c, start, events[..i + 1]).PingFailed?
       <==> events[i].Tick? && !events[i].sends && !IsOverdue(c, events, i)
  {
    assert events[..i + 1][..i] == events[..i];
    AwaitsSinceLatestPing(c, start, events, i);
  }

  /** The connection is alive exactly when no tick was overdue and every ping was sent. */
  lemma {:induction false} AliveIff(c: Config, start: nat, events: seq<Event>, i: nat)
    requires i <= |events|
    ensures After(c, start, events[..i]).Alive?
       <==> forall k :: 0 <= k < i && events[k].Tick? ==> events[k].sends && !IsOverdue(c, events, k)
    decreases i
  {
    if i > 0 {
      assert events[..i][..i - 1] == events[..i - 1];
      AliveIff(c, start, events, i - 1);
      if After(c, start, events[..i - 1]).Alive? {
        TimesOutIff(c, start, events, i - 1);
        PingFailsIff(c, start, events, i - 1);
      }
    }
  }

  // ----- detection -----

  /** Every tick comes exactly one interval after the one before, and every ping is sent at once. */
  ghost predicate ExactTicks(c: Config, events: seq<Event>) {
    && (forall i: nat, j: nat :: j < i < |events| && events[i].Tick? && IsLatestTick(events, j, i) ==>
          events[i].at == events[j].at + PingInterval(c))
    && (forall i :: 0 <= i < |events| && events[i].Tick? ==> events[i].sends && events[i].sentAt == events[i].at)
  }

  function Ticks(events: seq<Event>): nat
    decreases |events|
  {
    if events == [] then 0
    else Ticks(events[..|events| - 1]) + if events[|events| - 1].Tick? then 1 else 0
  }

  lemma {:induction false} LatestTickExists(events: seq<Event>, i: nat)
    requires i <= |events|
    ensures Ticks(events[..i]) > 0 <==> exists j: nat :: IsLatestTick(events, j, i)
    decreases i
  {
    if i > 0 {
      assert events[..i][..i - 1] == events[..i - 1];
      LatestTickExists(events, i - 1);
      if events[i - 1].Tick? {
        assert IsLatestTick(events, i - 1, i);
      } else {
        assert forall j: nat :: IsLatestTick(events, j, i) ==> IsLatestTick(events, j, i - 1);
        if Ticks(events[..i]) > 0 {
          var j: nat :| IsLatestTick(events, j, i - 1);
          assert IsLatestTick(events, j, i);
        }
      }
    }
  }

  /** The timeout is positive and shorter than the ping interval. */
  predicate CanDetect(c: Config) {
    0 < PongTimeoutOf(c) < PingInterval(c)
  }

  lemma {:induction false} SilenceSoFar(c: Config, start: nat, events: seq<Event>, i: nat)
    requires i <= |events| && ExactTicks(c, events) && forall k :: 0 <= k < |events| ==> !events[k].Pong?
    ensures if CanDetect(c) && Ticks(events[..i]) >= 2 then After(c, start, events[..i]).PongTimeout?
            else After(c, start, events[..i]).Alive?
    decreases i
  {
    if i > 0 {
      assert events[..i][..i - 1] == events[..i - 1];
      SilenceSoFar(c, start, events, i - 1);
      if After(c, start, events[..i - 1]).Alive? {
        TimesOutIff(c, start, events, i - 1);
        LatestTickExists(events, i - 1);
        if events[i - 1].Tick? {
          assert events[i - 1].sends;
          if Ticks(events[..i - 1]) > 0 {
            var j: nat :| IsLatestTick(events, j, i - 1);
            assert events[i - 1].at == events[j].at + PingInterval(c);
            assert NoPong(events, j, i - 1);
          }
        }
      }
    }
  }

  /** With exact ticks and instantaneous sends, a peer that never sends a pong is given up at the
      second tick if the timeout is positive and shorter than the interval, and otherwise never: each
      ping restarts the clock. */
  lemma SilentPeerIsDetectedIff(c: Config, start: nat, events: seq<Event>)
    requires ExactTicks(c, events) && forall k :: 0 <= k < |events| ==> !events[k].Pong?
    ensures After(c, start, events).PongTimeout? <==> CanDetect(c) && Ticks(events) >= 2
    ensures !After(c, start, events).PingFailed?
  {
    assert events[..|events|] == events;
    SilenceSoFar(c, start, events, |events|);
  }
}
