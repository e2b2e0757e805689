/** The resume pass of `Connection`: after a reconnect every registered stream is requested again
    and re-keyed under the id it is granted. The scripts of the turns stand for the socket, the
    codec and the flags that other tasks set meanwhile; unregistering by other tasks is left to
    module `Registry`. */
module Resume {
  import opened Base

  /** What reading the socket yields while a reply is awaited. */
  datatype Frame =
    | Response(requestId: Id, stream: Option<Id>)
    | ErrorReply(requestId: Id)
    | StreamEnd(id: Id)
    | Skipped            // stream data, unknown messages, undecodable data, pings, pongs, other frames
    | SocketDead         // a close frame, a socket error

  /** One turn: whether the stream is stopped or its receiver gone when the turn begins, whether
      the request can be encoded and sent, the frames read, and whether the stream is stopped or its
      receiver gone when the reply is handled. The socket ends after the last frame. */
  datatype Script = Script(endsBefore: bool, encodes: bool, sends: bool, frames: seq<Frame>, endsAtReply: bool)

  /** The map of resumable streams, the effective id of each, the calls of `on_end` so far, and
      the loop's own request counter. */
  datatype Pass = Pass(streams: map<Id, nat>, eff: map<nat, Id>, ended: seq<nat>, counter: nat)

  function RemoveAndEnd(p: Pass, k: Id): Pass {
    if k in p.streams then p.(streams := Without(p.streams, k), ended := p.ended + [p.streams[k]]) else p
  }

  function Remap(p: Pass, oldId: Id, newId: Id, ends: bool): Pass {
    if oldId !in p.streams then p
    else if ends then RemoveAndEnd(p, oldId)
    else
      var h := p.streams[oldId];
      p.(streams := Without(p.streams, oldId)[newId := h], eff := p.eff[h := newId])
  }

  /** Reads frames until the reply to request `rid`, or the end of the socket. */
  function Await(p: Pass, oldId: Id, rid: Id, frames: seq<Frame>, ends: bool): Pass
    decreases |frames|
  {
    if frames == [] then p
    else
      match frames[0]
      case Response(r, stream) =>
        if r != rid then Await(p, oldId, rid, frames[1..], ends)
        else if stream.Some? then Remap(p, oldId, stream.value, ends)
        else RemoveAndEnd(p, oldId)
      case ErrorReply(r) =>
        if r != rid then Await(p, oldId, rid, frames[1..], ends) else RemoveAndEnd(p, oldId)
      case StreamEnd(k) => Await(RemoveAndEnd(p, k), oldId, rid, frames[1..], ends)
      case Skipped => Await(p, oldId, rid, frames[1..], ends)
      case SocketDead => p
  }

  function Turn(p: Pass, oldId: Id, t: Script): Pass {
    if t.endsBefore then RemoveAndEnd(p, oldId)
    else
      var p' := p.(counter := p.counter + 1);
      if !t.encodes || !t.sends then RemoveAndEnd(p', oldId)
      else Await(p', oldId, p.counter, t.frames, t.endsAtReply)
  }

  function ResumeAll(p: Pass, order: seq<Id>, turns: seq<Script>): Pass
    requires |order| == |turns|
    decreases |order|
  {
    if order == [] then p else ResumeAll(Turn(p, order[0], turns[0]), order[1..], turns[1..])
  }

  // ----- what the pass keeps -----

  /** Keys and effective ids agree, and an ended stream is ended once and has no entry. */
  ghost predicate Wf(p: Pass) {
    && (forall k :: k in p.streams ==> p.streams[k] in p.eff && p.eff[p.streams[k]] == k && p.streams[k] !in p.ended)
    && NoDup(p.ended)
  }

  /** The streams that have an entry or were ended: those accounted for. */
  ghost function Accounted(p: Pass): set<nat> {
    p.streams.Values + set h | h in p.ended
  }

  lemma RemovalAccounts(p: Pass, k: Id)
    requires Wf(p)
    ensures Wf(RemoveAndEnd(p, k)) && Accounted(RemoveAndEnd(p, k)) == Accounted(p)
  {
    if k in p.streams {
      var h, q := p.streams[k], RemoveAndEnd(p, k);
      forall g | g in Accounted(p) ensures g in Accounted(q) {
        if g !in q.ended {
          var j :| j in p.streams && p.streams[j] == g;
          assert j != k && q.streams[j] == g;
        }
      }
    }
  }

  /** The granted id is the key of another stream's entry. */
  predicate Clash(p: Pass, oldId: Id, newId: Id, ends: bool) {
    oldId in p.streams && !ends && newId != oldId && newId in p.streams
  }

  /** A remap loses a stream exactly when the granted id is another entry's key: that entry is
      overwritten without its `on_end`. */
  lemma RemapAccounts(p: Pass, oldId: Id, newId: Id, ends: bool)
    requires Wf(p)
    ensures Wf(Remap(p, oldId, newId, ends))
    ensures Accounted(Remap(p, oldId, newId, ends))
         == Accounted(p) - if Clash(p, oldId, newId, ends) then {p.streams[newId]} else {}
    ensures Clash(p, oldId, newId, ends) ==> p.streams[newId] in Accounted(p)
  {
    var q := Remap(p, oldId, newId, ends);
    if ends || oldId !in p.streams {
      RemovalAccounts(p, oldId);
    } else {
      forall g | g in p.streams.Values && !(newId != oldId && newId in p.streams && g == p.streams[newId])
        ensures g in q.streams.Values
      {
        var j :| j in p.streams && p.streams[j] == g;
        assert q.streams[if j == oldId then newId else j] == g;
      }
    }
  }

  /** Some grant in the rest of the pass clashes with an entry present at that moment. */
  predicate AwaitClashes(p: Pass, oldId: Id, rid: Id, frames: seq<Frame>, ends: bool)
    decreases |frames|
  {
    frames != [] &&
    match frames[0]
    case Response(r, stream) =>
      if r != rid then AwaitClashes(p, oldId, rid, frames[1..], ends)
      else stream.Some? && Clash(p, oldId, stream.value, ends)
    case ErrorReply(r) => r != rid && AwaitClashes(p, oldId, rid, frames[1..], ends)
    case StreamEnd(k) => AwaitClashes(RemoveAndEnd(p, k), oldId, rid, frames[1..], ends)
    case Skipped => AwaitClashes(p, oldId, rid, frames[1..], ends)
    case SocketDead => false
  }

  predicate TurnClashes(p: Pass, oldId: Id, t: Script) {
    && !t.endsBefore && t.encodes && t.sends
    && AwaitClashes(p.(counter := p.counter + 1), oldId, p.counter, t.frames, t.endsAtReply)
  }

  predicate PassClashes(p: Pass, order: seq<Id>, turns: seq<Script>)
    requires |order| == |turns|
    decreases |order|
  {
    order != []
    && (TurnClashes(p, order[0], turns[0]) || PassClashes(Turn(p, order[0], turns[0]), order[1..], turns[1..]))
  }

  lemma {:induction false} AwaitAccounts(p: Pass, oldId: Id, rid: Id, frames: seq<Frame>, ends: bool)
    requires Wf(p)
    ensures var q := Await(p, oldId, rid, frames, ends);
            && Wf(q)
            && Accounted(q) <= Accounted(p)
            && (Accounted(q) == Accounted(p) <==> !AwaitClashes(p, oldId, rid, frames, ends))
    decreases |frames|
  {
    if frames != [] {
      match frames[0]
      case Response(r, stream) =>
        if r != rid {
          AwaitAccounts(p, oldId, rid, frames[1..], ends);
        } else if stream.Some? {
          RemapAccounts(p, oldId, stream.value, ends);
        } else {
          RemovalAccounts(p, oldId);
        }
      case ErrorReply(r) =>
        if r != rid { AwaitAccounts(p, oldId, rid, frames[1..], ends); } else { RemovalAccounts(p, oldId); }
      case StreamEnd(k) =>
        RemovalAccounts(p, k);
        AwaitAccounts(RemoveAndEnd(p, k), oldId, rid, frames[1..], ends);
      case Skipped => AwaitAccounts(p, oldId, rid, frames[1..], ends);
      case SocketDead =>
    }
  }

  lemma TurnAccounts(p: Pass, oldId: Id, t: Script)
    requires Wf(p)
    ensures var q := Turn(p, oldId, t);
            && Wf(q)
            && Accounted(q) <= Accounted(p)
            && (Accounted(q) == Accounted(p) <==> !TurnClashes(p, oldId, t))
  {
    var p' := p.(counter := p.counter + 1);
    assert Wf(p') && Accounted(p') == Accounted(p);
    RemovalAccounts(p, oldId);
    RemovalAccounts(p', oldId);
    AwaitAccounts(p', oldId, p.counter, t.frames, t.endsAtReply);
  }

  /** Whatever the order of the snapshot and the frames in between, the pass ends no stream twice,
      keeps keys and effective ids in agreement, and accounts for every stream exactly when no
      granted id is the key of another entry at the moment of the grant. */
  lemma {:induction false} PassLosesNothingIff(p: Pass, order: seq<Id>, turns: seq<Script>)
    requires Wf(p) && |order| == |turns|
    ensures var q := ResumeAll(p, order, turns);
            && Wf(q)
            && Accounted(q) <= Accounted(p)
            && (Accounted(q) == Accounted(p) <==> !PassClashes(p, order, turns))
    decreases |order|
  {
    if order != [] {
      TurnAccounts(p, order[0], turns[0]);
      PassLosesNothingIff(Turn(p, order[0], turns[0]), order[1..], turns[1..]);
    }
  }

  // ----- fresh ids -----

  /** The ids that the frames of a turn grant. */
  function Granted(t: Script): set<Id> {
    GrantedIn(t.frames)
  }

  function GrantedIn(frames: seq<Frame>): set<Id> {
    set j | 0 <= j < |frames| && frames[j].Response? && frames[j].stream.Some? :: frames[j].stream.value
  }

  lemma GrantedLater(frames: seq<Frame>)
    requires frames != []
    ensures GrantedIn(frames[1..]) <= GrantedIn(frames)
  {
    var rest := frames[1..];
    forall id | id in GrantedIn(rest) ensures id in GrantedIn(frames) {
      var j :| 0 <= j < |rest| && rest[j].Response? && rest[j].stream.Some? && rest[j].stream.value == id;
      assert frames[j + 1] == rest[j];
    }
  }

  /** The server grants ids that are neither in use nor granted twice. */
  ghost predicate Fresh(keys: set<Id>, turns: seq<Script>) {
    && (forall i :: 0 <= i < |turns| ==> Granted(turns[i]) !! keys)
    && (forall i, j :: 0 <= i < j < |turns| ==> Granted(turns[i]) !! Granted(turns[j]))
  }

  /** A turn leaves entries alone, removes them, or moves the entry it is about to a granted id. */
  ghost predicate TurnMoves(p: Pass, q: Pass, oldId: Id, granted: set<Id>) {
    forall k :: k in q.streams ==>
      || (k in p.streams && p.streams[k] == q.streams[k])
      || (oldId in p.streams && p.streams[oldId] == q.streams[k] && k in granted)
  }

  lemma {:induction false} AwaitMoves(p: Pass, oldId: Id, rid: Id, frames: seq<Frame>, ends: bool, granted: set<Id>)
    requires GrantedIn(frames) <= granted
    ensures TurnMoves(p, Await(p, oldId, rid, frames, ends), oldId, granted)
    ensures p.streams.Keys !! granted ==> !AwaitClashes(p, oldId, rid, frames, ends)
    decreases |frames|
  {
    if frames != [] {
      var rest := frames[1..];
      GrantedLater(frames);
      match frames[0]
      case Response(r, stream) => if r != rid { AwaitMoves(p, oldId, rid, rest, ends, granted); }
      case ErrorReply(r) => if r != rid { AwaitMoves(p, oldId, rid, rest, ends, granted); }
      case StreamEnd(k) => AwaitMoves(RemoveAndEnd(p, k), oldId, rid, rest, ends, granted);
      case Skipped => AwaitMoves(p, oldId, rid, rest, ends, granted);
      case SocketDead =>
    }
  }

  lemma TurnMovesOne(p: Pass, oldId: Id, t: Script)
    ensures TurnMoves(p, Turn(p, oldId, t), oldId, Granted(t))
    ensures p.streams.Keys !! Granted(t) ==> !TurnClashes(p, oldId, t)
  {
    AwaitMoves(p.(counter := p.counter + 1), oldId, p.counter, t.frames, t.endsAtReply, Granted(t));
  }

  lemma FreshAfterTurn(p: Pass, q: Pass, oldId: Id, turns: seq<Script>)
    requires turns != [] && Fresh(p.streams.Keys, turns) && TurnMoves(p, q, oldId, Granted(turns[0]))
    ensures Fresh(q.streams.Keys, turns[1..])
  {
    forall i | 0 <= i < |turns[1..]| ensures Granted(turns[1..][i]) !! q.streams.Keys {
      assert turns[1..][i] == turns[i + 1];
    }
  }

  lemma {:induction false} FreshNeverClashes(p: Pass, order: seq<Id>, turns: seq<Script>)
    requires |order| == |turns| && Fresh(p.streams.Keys, turns)
    ensures !PassClashes(p, order, turns)
    decreases |order|
  {
    if order != [] {
      TurnMovesOne(p, order[0], turns[0]);
      FreshAfterTurn(p, Turn(p, order[0], turns[0]), order[0], turns);
      FreshNeverClashes(Turn(p, order[0], turns[0]), order[1..], turns[1..]);
    }
  }

  /** The entry under `k` after the pass is one that was there before, or that of the stream whose
      turn was granted `k`. */
  ghost predicate ComesFrom(p: Pass, order: seq<Id>, turns: seq<Script>, k: Id, h: nat)
    requires |order| == |turns|
  {
    || (k in p.streams && p.streams[k] == h)
    || (exists i :: 0 <= i < |order| && order[i] in p.streams && p.streams[order[i]] == h && k in Granted(turns[i]))
  }

  lemma {:induction false} EntriesComeFrom(p: Pass, order: seq<Id>, turns: seq<Script>, k: Id)
    requires |order| == |turns| && k in ResumeAll(p, order, turns).streams
    requires forall i, j :: 0 <= i < |turns| && 0 <= j < |order| ==> order[j] !in Granted(turns[i])
    ensures ComesFrom(p, order, turns, k, ResumeAll(p, order, turns).streams[k])
    decreases |order|
  {
    if order != [] {
      var q := Turn(p, order[0], turns[0]);
      var h := ResumeAll(p, order, turns).streams[k];
      TurnMovesOne(p, order[0], turns[0]);
      EntriesComeFrom(q, order[1..], turns[1..], k);
      if k in q.streams && q.streams[k] == h {
        assert (k in p.streams && p.streams[k] == h)
            || (order[0] in p.streams && p.streams[order[0]] == h && k in Granted(turns[0]));
      } else {
        var i :| 0 <= i < |order[1..]| && order[1..][i] in q.streams && q.streams[order[1..][i]] == h
                 && k in Granted(turns[1..][i]);
        assert order[i + 1] == order[1..][i] && turns[i + 1] == turns[1..][i];
        assert order[i + 1] in p.streams && p.streams[order[i + 1]] == h;
      }
    }
  }

  // ----- streams that keep their old id -----

  /** No reply to request `rid` is read before the socket dies or ends. */
  predicate NoReply(rid: Id, frames: seq<Frame>)
    decreases |frames|
  {
    frames == [] || frames[0].SocketDead?
    || (!((frames[0].Response? || frames[0].ErrorReply?) && frames[0].requestId == rid) && NoReply(rid, frames[1..]))
  }

  /** The turn of `k` sent its request and gave up waiting because the socket died. */
  predicate GaveUp(p: Pass, order: seq<Id>, turns: seq<Script>, k: Id)
    requires |order| == |turns|
    decreases |order|
  {
    order != [] &&
    if order[0] == k then
      !turns[0].endsBefore && turns[0].encodes && turns[0].sends && NoReply(p.counter, turns[0].frames)
    else GaveUp(Turn(p, order[0], turns[0]), order[1..], turns[1..], k)
  }

  lemma {:induction false} ReplySettles(p: Pass, oldId: Id, rid: Id, frames: seq<Frame>, ends: bool)
    requires oldId !in GrantedIn(frames) && !NoReply(rid, frames)
    ensures oldId !in Await(p, oldId, rid, frames, ends).streams
    decreases |frames|
  {
    var rest := frames[1..];
    GrantedLater(frames);
    match frames[0]
    case Response(r, stream) => if r != rid { ReplySettles(p, oldId, rid, rest, ends); }
    case ErrorReply(r) => if r != rid { ReplySettles(p, oldId, rid, rest, ends); }
    case StreamEnd(k) => ReplySettles(RemoveAndEnd(p, k), oldId, rid, rest, ends);
    case Skipped => ReplySettles(p, oldId, rid, rest, ends);
  }

  lemma {:induction false} GoneStaysGone(p: Pass, order: seq<Id>, turns: seq<Script>, k: Id)
    requires |order| == |turns| && k !in p.streams
    requires forall i :: 0 <= i < |turns| ==> k !in Granted(turns[i])
    ensures k !in ResumeAll(p, order, turns).streams
    decreases |order|
  {
    if order != [] {
      TurnMovesOne(p, order[0], turns[0]);
      GoneStaysGone(Turn(p, order[0], turns[0]), order[1..], turns[1..], k);
    }
  }

  /** An entry that the pass leaves under an old id belongs to a turn that gave up waiting. */
  lemma {:induction false} OldIdMeansGaveUp(p: Pass, order: seq<Id>, turns: seq<Script>, k: Id)
    requires |order| == |turns| && k in order && k in ResumeAll(p, order, turns).streams
    requires forall i :: 0 <= i < |turns| ==> k !in Granted(turns[i])
    ensures GaveUp(p, order, turns, k)
    decreases |order|
  {
    var q := Turn(p, order[0], turns[0]);
    var t := turns[0];
    if order[0] == k {
      if !GaveUp(p, order, turns, k) {
        if !t.endsBefore && t.encodes && t.sends {
          ReplySettles(p.(counter := p.counter + 1), k, p.counter, t.frames, t.endsAtReply);
        }
        GoneStaysGone(q, order[1..], turns[1..], k);
      }
    } else {
      OldIdMeansGaveUp(q, order[1..], turns[1..], k);
    }
  }

  /** The snapshot lists every key once, in any order. */
  ghost predicate IsSnapshot(p: Pass, order: seq<Id>) {
    NoDup(order) && forall k :: k in order <==> k in p.streams
  }

  /** With fresh ids the pass loses, duplicates and swaps no stream: each one is afterwards ended
      once, or under exactly one key, which agrees with its effective id and is an id granted in its
      own turn, or its old id when that turn gave up because the socket died. */
  lemma ResumeKeepsEveryStream(p: Pass, order: seq<Id>, turns: seq<Script>)
    requires Wf(p) && IsSnapshot(p, order) && |order| == |turns| && Fresh(p.streams.Keys, turns)
    ensures var q := ResumeAll(p, order, turns);
            && Wf(q) && Accounted(q) == Accounted(p)
            && forall k :: k in q.streams ==>
                 if k in p.streams then p.streams[k] == q.streams[k] && GaveUp(p, order, turns, k)
                 else exists i :: 0 <= i < |order| && p.streams[order[i]] == q.streams[k] && k in Granted(turns[i])
  {
    FreshNeverClashes(p, order, turns);
    PassLosesNothingIff(p, order, turns);
    var q := ResumeAll(p, order, turns);
    forall k | k in q.streams
      ensures if k in p.streams then p.streams[k] == q.streams[k] && GaveUp(p, order, turns, k)
              else exists i :: 0 <= i < |order| && p.streams[order[i]] == q.streams[k] && k in Granted(turns[i])
    {
      assert forall i, j :: 0 <= i < |turns| && 0 <= j < |order| ==> order[j] !in Granted(turns[i]);
      EntriesComeFrom(p, order, turns, k);
      if k in p.streams {
        OldIdMeansGaveUp(p, order, turns, k);
      }
    }
  }

  /** Freshness is needed: granted the old id of a stream whose turn is still to come, the first
      stream overwrites the second, which is then neither in the map nor ended. */
  lemma ReusedIdLosesAStream()
    ensures var p := Pass(map[1 := 10, 2 := 20], map[10 := 1, 20 := 2], [], 7);
            var turns := [Script(false, true, true, [Response(7, Some(2))], false),
                          Script(false, true, true, [], false)];
            var q := ResumeAll(p, [1, 2], turns);
            Wf(p) && q.streams == map[2 := 10] && q.ended == [] && 20 in Accounted(p) && 20 !in Accounted(q)
  {
    var p := Pass(map[1 := 10, 2 := 20], map[10 := 1, 20 := 2], [], 7);
    var t0, t1 := Script(false, true, true, [Response(7, Some(2))], false), Script(false, true, true, [], false);
    var q := Turn(p, 1, t0);
    assert q.streams == map[2 := 10];
    assert [1, 2][1..] == [2] && [t0, t1][1..] == [t1];
    assert Turn(q, 2, t1) == q.(counter := 9);
    assert ResumeAll(q, [2], [t1]) == ResumeAll(Turn(q, 2, t1), [], []);
    assert p.streams[2] == 20;
  }
}
