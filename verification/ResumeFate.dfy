/** What the resume pass makes of each stream, said of the frames that its turns read. */
module ResumeFate {
  import opened Base
  import opened Resume

  // ----- what becomes of each stream -----

  predicate IsReply(f: Frame, rid: Id) {
    (f.Response? || f.ErrorReply?) && f.requestId == rid
  }

  /** The frames that a turn reads: up to the reply to its request, or until the socket dies. */
  function Seen(rid: Id, frames: seq<Frame>): seq<Frame>
    decreases |frames|
  {
    if frames == [] || frames[0].SocketDead? then []
    else if IsReply(frames[0], rid) then [frames[0]]
    else [frames[0]] + Seen(rid, frames[1..])
  }

  /** The reply that ended the turn's wait, if one came. */
  function OwnReply(rid: Id, frames: seq<Frame>): Option<Frame> {
    var seen := Seen(rid, frames);
    if seen != [] && IsReply(seen[|seen| - 1], rid) then Some(seen[|seen| - 1]) else None
  }

  predicate IsRequested(t: Script) {
    !t.endsBefore && t.encodes && t.sends
  }

  /** The id of the request of turn `i`: turns that begin with a stopped stream use none. */
  function RequestId(counter: nat, turns: seq<Script>, i: nat): nat
    requires i <= |turns|
  {
    if i == 0 then counter
    else RequestId(counter, turns, i - 1) + if turns[i - 1].endsBefore then 0 else 1
  }

  /** Turn `i` read the end of the stream with id `k`. */
  predicate EndRead(counter: nat, turns: seq<Script>, i: nat, k: Id)
    requires i < |turns|
  {
    IsRequested(turns[i]) && StreamEnd(k) in Seen(RequestId(counter, turns, i), turns[i].frames)
  }

  /** The reply that turn `i` waited for, if it sent its request and the reply came. */
  function ReplyOf(counter: nat, turns: seq<Script>, i: nat): Option<Frame>
    requires i < |turns|
  {
    if IsRequested(turns[i]) then OwnReply(RequestId(counter, turns, i), turns[i].frames) else None
  }

  /** The reply of turn `i` does not let its stream go on: it is an error, it carries no stream, or the
      stream is stopped by then. */
  predicate IsRefused(counter: nat, turns: seq<Script>, i: nat)
    requires i < |turns|
  {
    var r := ReplyOf(counter, turns, i);
    r.Some? && (r.value.ErrorReply? || (r.value.Response? && r.value.stream.None?) || turns[i].endsAtReply)
  }

  /** The stream's id after its turn: the one that its own reply granted, or its old id. */
  function IdAfter(counter: nat, order: seq<Id>, turns: seq<Script>, i: nat): Id
    requires i < |order| == |turns|
  {
    var r := ReplyOf(counter, turns, i);
    if r.Some? && r.value.Response? && r.value.stream.Some? then r.value.stream.value else order[i]
  }

  /** Why the stream whose turn is the `i`th may be ended: its request was not made or not sent, its
      reply refused it, or its end was read under the id that it had at that time. */
  ghost predicate HasReasonToEnd(counter: nat, order: seq<Id>, turns: seq<Script>, i: nat)
    requires i < |order| == |turns|
  {
    || !IsRequested(turns[i])
    || IsRefused(counter, turns, i)
    || (exists j :: 0 <= j <= i && EndRead(counter, turns, j, order[i]))
    || (exists j :: i < j < |turns| && EndRead(counter, turns, j, IdAfter(counter, order, turns, i)))
  }

  /** Stream `h` has its entry under `k`, or has been ended. */
  predicate IsAt(p: Pass, h: nat, k: Id) {
    k in p.streams && p.streams[k] == h
  }

  lemma EndedStays(p: Pass, k: Id, newId: Id, ends: bool, h: nat)
    requires h in p.ended
    ensures h in RemoveAndEnd(p, k).ended && h in Remap(p, k, newId, ends).ended
  {
  }

  lemma {:induction false} EndedStaysInTurn(p: Pass, oldId: Id, rid: Id, frames: seq<Frame>, ends: bool, h: nat)
    requires h in p.ended
    ensures h in Await(p, oldId, rid, frames, ends).ended
    decreases |frames|
  {
    if frames != [] {
      match frames[0]
      case Response(r, stream) =>
        EndedStays(p, oldId, if stream.Some? then stream.value else 0, ends, h);
        if r != rid { EndedStaysInTurn(p, oldId, rid, frames[1..], ends, h); }
      case ErrorReply(r) =>
        EndedStays(p, oldId, 0, ends, h);
        if r != rid { EndedStaysInTurn(p, oldId, rid, frames[1..], ends, h); }
      case StreamEnd(k) =>
        EndedStays(p, k, 0, ends, h);
        EndedStaysInTurn(RemoveAndEnd(p, k), oldId, rid, frames[1..], ends, h);
      case Skipped => EndedStaysInTurn(p, oldId, rid, frames[1..], ends, h);
      case SocketDead =>
    }
  }

  lemma {:induction false} EndedStaysInPass(p: Pass, order: seq<Id>, turns: seq<Script>, h: nat)
    requires |order| == |turns| && h in p.ended
    ensures h in ResumeAll(p, order, turns).ended
    decreases |order|
  {
    if order != [] {
      var q := p.(counter := p.counter + 1);
      EndedStays(p, order[0], 0, false, h);
      EndedStays(q, order[0], 0, false, h);
      EndedStaysInTurn(q, order[0], p.counter, turns[0].frames, turns[0].endsAtReply, h);
      EndedStaysInPass(Turn(p, order[0], turns[0]), order[1..], turns[1..], h);
    }
  }

  /** Another stream's turn ends `h` exactly when it reads its end. */
  lemma {:induction false} OtherAwait(p: Pass, oldId: Id, rid: Id, frames: seq<Frame>, ends: bool, h: nat, k: Id)
    requires IsAt(p, h, k) && k != oldId && k !in GrantedIn(frames)
    ensures var q := Await(p, oldId, rid, frames, ends);
            if StreamEnd(k) in Seen(rid, frames) then h in q.ended else IsAt(q, h, k)
    decreases |frames|
  {
    if frames != [] {
      GrantedLater(frames);
      var rest := frames[1..];
      match frames[0]
      case Response(r, stream) =>
        if r != rid {
          OtherAwait(p, oldId, rid, rest, ends, h, k);
        } else if stream.Some? {
          assert frames[0].stream.value in GrantedIn(frames);
        }
      case ErrorReply(r) => if r != rid { OtherAwait(p, oldId, rid, rest, ends, h, k); }
      case StreamEnd(j) =>
        if j == k {
          EndedStaysInTurn(RemoveAndEnd(p, j), oldId, rid, rest, ends, h);
        } else {
          OtherAwait(RemoveAndEnd(p, j), oldId, rid, rest, ends, h, k);
        }
      case Skipped => OtherAwait(p, oldId, rid, rest, ends, h, k);
      case SocketDead =>
    }
  }

  /** The stream's own turn ends it when it reads its end or a reply that refuses it; otherwise it
      moves the entry to the granted id, or leaves it when no reply comes. */
  lemma {:induction false} OwnAwait(p: Pass, rid: Id, frames: seq<Frame>, ends: bool, h: nat, k: Id)
    requires IsAt(p, h, k)
    ensures var q, r := Await(p, k, rid, frames, ends), OwnReply(rid, frames);
            if StreamEnd(k) in Seen(rid, frames) then h in q.ended
            else if r.None? then IsAt(q, h, k)
            else if r.value.Response? && r.value.stream.Some? && !ends then IsAt(q, h, r.value.stream.value)
            else h in q.ended
    decreases |frames|
  {
    if frames != [] && !frames[0].SocketDead? && !IsReply(frames[0], rid) {
      var rest := frames[1..];
      assert Seen(rid, frames) == [frames[0]] + Seen(rid, rest);
      assert OwnReply(rid, rest) == OwnReply(rid, frames);
      match frames[0]
      case StreamEnd(j) =>
        if j == k {
          EndedStaysInTurn(RemoveAndEnd(p, j), k, rid, rest, ends, h);
        } else {
          OwnAwait(RemoveAndEnd(p, j), rid, rest, ends, h, k);
        }
      case Response(_, _) => OwnAwait(p, rid, rest, ends, h, k);
      case ErrorReply(_) => OwnAwait(p, rid, rest, ends, h, k);
      case Skipped => OwnAwait(p, rid, rest, ends, h, k);
    }
  }

  // ----- the whole pass -----

  lemma {:induction false} PassSplits(p: Pass, order: seq<Id>, turns: seq<Script>, i: nat)
    requires i <= |order| == |turns|
    ensures var m := ResumeAll(p, order[..i], turns[..i]);
            ResumeAll(p, order, turns) == ResumeAll(m, order[i..], turns[i..])
    decreases i
  {
    if i > 0 {
      PassSplits(Turn(p, order[0], turns[0]), order[1..], turns[1..], i - 1);
      assert order[..i][1..] == order[1..][..i - 1] && turns[..i][1..] == turns[1..][..i - 1];
      assert order[1..][i - 1..] == order[i..] && turns[1..][i - 1..] == turns[i..];
    } else {
      assert order[0..] == order && turns[0..] == turns;
    }
  }

  lemma {:induction false} AwaitKeepsCounter(p: Pass, oldId: Id, rid: Id, frames: seq<Frame>, ends: bool)
    ensures Await(p, oldId, rid, frames, ends).counter == p.counter
    decreases |frames|
  {
    if frames != [] {
      match frames[0]
      case Response(r, _) => if r != rid { AwaitKeepsCounter(p, oldId, rid, frames[1..], ends); }
      case ErrorReply(r) => if r != rid { AwaitKeepsCounter(p, oldId, rid, frames[1..], ends); }
      case StreamEnd(k) => AwaitKeepsCounter(RemoveAndEnd(p, k), oldId, rid, frames[1..], ends);
      case Skipped => AwaitKeepsCounter(p, oldId, rid, frames[1..], ends);
      case SocketDead =>
    }
  }

  lemma {:induction false} LaterRequestId(counter: nat, turns: seq<Script>, i: nat)
    requires i < |turns|
    ensures RequestId(counter, turns, i + 1)
         == RequestId(counter + if turns[0].endsBefore then 0 else 1, turns[1..], i)
    decreases i
  {
    if i > 0 {
      LaterRequestId(counter, turns, i - 1);
      assert turns[1..][i - 1] == turns[i];
    }
  }

  /** Requests are numbered in the order of the turns. */
  lemma {:induction false} PassCounts(p: Pass, order: seq<Id>, turns: seq<Script>)
    requires |order| == |turns|
    ensures ResumeAll(p, order, turns).counter == RequestId(p.counter, turns, |turns|)
    decreases |order|
  {
    if order != [] {
      var t := turns[0];
      AwaitKeepsCounter(p.(counter := p.counter + 1), order[0], p.counter, t.frames, t.endsAtReply);
      PassCounts(Turn(p, order[0], t), order[1..], turns[1..]);
      LaterRequestId(p.counter, turns, |turns| - 1);
    }
  }

  /** Some turn reads the end of the stream with id `k`. */
  ghost predicate SomeEndRead(counter: nat, turns: seq<Script>, k: Id) {
    exists j :: 0 <= j < |turns| && EndRead(counter, turns, j, k)
  }

  lemma SomeEndReadSplits(counter: nat, turns: seq<Script>, k: Id)
    requires turns != []
    ensures var next := counter + if turns[0].endsBefore then 0 else 1;
            SomeEndRead(counter, turns, k) <==> EndRead(counter, turns, 0, k) || SomeEndRead(next, turns[1..], k)
  {
    var next := counter + if turns[0].endsBefore then 0 else 1;
    forall j: nat | j < |turns[1..]| ensures EndRead(next, turns[1..], j, k) <==> EndRead(counter, turns, j + 1, k) {
      LaterRequestId(counter, turns, j);
      assert turns[1..][j] == turns[j + 1];
    }
    if SomeEndRead(counter, turns, k) && !EndRead(counter, turns, 0, k) {
      var j :| 0 <= j < |turns| && EndRead(counter, turns, j, k);
      assert EndRead(next, turns[1..], j - 1, k);
    }
    if SomeEndRead(next, turns[1..], k) {
      var j :| 0 <= j < |turns[1..]| && EndRead(next, turns[1..], j, k);
      assert EndRead(counter, turns, j + 1, k);
    }
  }

  ghost predicate NobodyGrants(turns: seq<Script>, k: Id) {
    forall t :: t in turns ==> k !in Granted(t)
  }

  /** Over any number of other streams' turns. */
  lemma {:induction false} OtherTurns(p: Pass, order: seq<Id>, turns: seq<Script>, h: nat, k: Id)
    requires |order| == |turns| && IsAt(p, h, k) && k !in order && NobodyGrants(turns, k)
    ensures var q := ResumeAll(p, order, turns);
            if SomeEndRead(p.counter, turns, k) then h in q.ended else IsAt(q, h, k)
    decreases |order|
  {
    if order != [] {
      var t, n := turns[0], p.(counter := p.counter + 1);
      var q := Turn(p, order[0], t);
      SomeEndReadSplits(p.counter, turns, k);
      AwaitKeepsCounter(n, order[0], p.counter, t.frames, t.endsAtReply);
      assert t in turns && k !in Granted(t);
      OtherAwait(n, order[0], p.counter, t.frames, t.endsAtReply, h, k);
      if EndRead(p.counter, turns, 0, k) {
        EndedStaysInPass(q, order[1..], turns[1..], h);
      } else {
        OtherTurns(q, order[1..], turns[1..], h, k);
      }
    }
  }

  lemma {:induction false} SlicedRequestId(counter: nat, turns: seq<Script>, i: nat, j: nat)
    requires j <= |turns| && (i <= j || j <= i <= |turns|)
    ensures j <= i <= |turns| ==> RequestId(counter, turns[..i], j) == RequestId(counter, turns, j)
    ensures i <= j ==> RequestId(RequestId(counter, turns, i), turns[i..], j - i) == RequestId(counter, turns, j)
    decreases j
  {
    if j > 0 && j <= i <= |turns| {
      SlicedRequestId(counter, turns, i, j - 1);
    }
    if j > 0 && i < j {
      SlicedRequestId(counter, turns, i, j - 1);
      assert turns[i..][j - 1 - i] == turns[j - 1];
    }
  }

  lemma EndReadBefore(counter: nat, turns: seq<Script>, i: nat, k: Id)
    requires i <= |turns|
    ensures SomeEndRead(counter, turns[..i], k) <==> exists j :: 0 <= j < i && EndRead(counter, turns, j, k)
  {
    forall j: nat | j < i ensures EndRead(counter, turns[..i], j, k) <==> EndRead(counter, turns, j, k) {
      SlicedRequestId(counter, turns, i, j);
    }
  }

  lemma EndReadShifts(counter: nat, turns: seq<Script>, i: nat, j: nat, k: Id)
    requires i <= j < |turns|
    ensures EndRead(RequestId(counter, turns, i), turns[i..], j - i, k) <==> EndRead(counter, turns, j, k)
  {
    SlicedRequestId(counter, turns, i, j);
  }

  lemma EndReadAfter(counter: nat, turns: seq<Script>, i: nat, k: Id)
    requires i <= |turns|
    ensures SomeEndRead(RequestId(counter, turns, i), turns[i..], k)
       <==> exists j :: i <= j < |turns| && EndRead(counter, turns, j, k)
  {
    hide EndRead, RequestId;
    var next := RequestId(counter, turns, i);
    if SomeEndRead(next, turns[i..], k) {
      var j :| 0 <= j < |turns[i..]| && EndRead(next, turns[i..], j, k);
      EndReadShifts(counter, turns, i, i + j, k);
    }
    if j :| i <= j < |turns| && EndRead(counter, turns, j, k) {
      EndReadShifts(counter, turns, i, j, k);
    }
  }

  /** The turn of stream `h` itself. */
  lemma OwnTurn(m: Pass, t: Script, h: nat, k: Id)
    requires IsAt(m, h, k)
    ensures var q, r := Turn(m, k, t), OwnReply(m.counter, t.frames);
            if !IsRequested(t) || StreamEnd(k) in Seen(m.counter, t.frames) then h in q.ended
            else if r.None? then IsAt(q, h, k)
            else if r.value.Response? && r.value.stream.Some? && !t.endsAtReply then IsAt(q, h, r.value.stream.value)
            else h in q.ended
    ensures Turn(m, k, t).counter == m.counter + if t.endsBefore then 0 else 1
  {
    var n := m.(counter := m.counter + 1);
    OwnAwait(n, m.counter, t.frames, t.endsAtReply, h, k);
    AwaitKeepsCounter(n, k, m.counter, t.frames, t.endsAtReply);
  }

  lemma {:induction false} SeenGrants(rid: Id, frames: seq<Frame>, f: Frame)
    requires f in Seen(rid, frames) && f.Response? && f.stream.Some?
    ensures f.stream.value in GrantedIn(frames)
    decreases |frames|
  {
    if f == frames[0] {
      assert frames[0].stream.value in GrantedIn(frames);
    } else {
      GrantedLater(frames);
      SeenGrants(rid, frames[1..], f);
    }
  }

  /** The id of a stream after its turn belongs to no other turn. */
  lemma IdIsItsOwn(p: Pass, order: seq<Id>, turns: seq<Script>, i: nat)
    requires IsSnapshot(p, order) && i < |order| == |turns| && Fresh(p.streams.Keys, turns)
    ensures var k := IdAfter(p.counter, order, turns, i);
            k !in order[i + 1..] && NobodyGrants(turns[i + 1..], k)
  {
    var k, rid := IdAfter(p.counter, order, turns, i), RequestId(p.counter, turns, i);
    if k != order[i] {
      var seen := Seen(rid, turns[i].frames);
      SeenGrants(rid, turns[i].frames, seen[|seen| - 1]);
      assert k in Granted(turns[i]);
      assert forall j :: 0 <= j < |order| ==> order[j] in p.streams.Keys;
    }
  }

  /** The pass up to the stream's turn. */
  lemma FateBefore(p: Pass, order: seq<Id>, turns: seq<Script>, i: nat)
    requires IsSnapshot(p, order) && i < |order| == |turns| && Fresh(p.streams.Keys, turns)
    ensures var m, h := ResumeAll(p, order[..i], turns[..i]), p.streams[order[i]];
            && m.counter == RequestId(p.counter, turns, i)
            && if exists j :: 0 <= j < i && EndRead(p.counter, turns, j, order[i]) then h in m.ended
               else IsAt(m, h, order[i])
  {
    hide ResumeAll, EndRead;
    PassCounts(p, order[..i], turns[..i]);
    SlicedRequestId(p.counter, turns, i, i);
    EndReadBefore(p.counter, turns, i, order[i]);
    assert forall t :: t in turns[..i] ==> order[i] !in Granted(t);
    OtherTurns(p, order[..i], turns[..i], p.streams[order[i]], order[i]);
  }

  /** The pass after the stream's turn. */
  lemma FateAfter(p: Pass, order: seq<Id>, turns: seq<Script>, i: nat, n: Pass, h: nat)
    requires IsSnapshot(p, order) && i < |order| == |turns| && Fresh(p.streams.Keys, turns)
    requires n.counter == RequestId(p.counter, turns, i + 1) && IsAt(n, h, IdAfter(p.counter, order, turns, i))
    ensures var q, k := ResumeAll(n, order[i + 1..], turns[i + 1..]), IdAfter(p.counter, order, turns, i);
            if exists j :: i < j < |turns| && EndRead(p.counter, turns, j, k) then h in q.ended else IsAt(q, h, k)
  {
    IdIsItsOwn(p, order, turns, i);
    hide ResumeAll, EndRead, IdAfter, RequestId, Fresh;
    var k := IdAfter(p.counter, order, turns, i);
    EndReadAfter(p.counter, turns, i + 1, k);
    OtherTurns(n, order[i + 1..], turns[i + 1..], h, k);
  }

  lemma SnapshotHas(p: Pass, order: seq<Id>, i: nat)
    requires IsSnapshot(p, order) && i < |order|
    ensures order[i] in p.streams
  {
  }

  lemma PassSettles(p: Pass, order: seq<Id>, turns: seq<Script>, h: nat, k: Id)
    requires Wf(p) && |order| == |turns|
    ensures var q := ResumeAll(p, order, turns);
            IsAt(q, h, k) ==> k in q.streams && q.streams[k] == h && h in q.eff && q.eff[h] == k && h !in q.ended
  {
    hide ResumeAll;
    PassLosesNothingIff(p, order, turns);
  }

  /** The stream's turn. */
  lemma FateInTurn(counter: nat, order: seq<Id>, turns: seq<Script>, i: nat, m: Pass, h: nat)
    requires i < |order| == |turns| && m.counter == RequestId(counter, turns, i) && IsAt(m, h, order[i])
    ensures var n := Turn(m, order[i], turns[i]);
            && n.counter == RequestId(counter, turns, i + 1)
            && if !IsRequested(turns[i]) || IsRefused(counter, turns, i) || EndRead(counter, turns, i, order[i])
               then h in n.ended else IsAt(n, h, IdAfter(counter, order, turns, i))
  {
    hide Turn, Seen;
    OwnTurn(m, turns[i], h, order[i]);
  }

  lemma PassAround(p: Pass, order: seq<Id>, turns: seq<Script>, i: nat)
    requires i < |order| == |turns|
    ensures var m := ResumeAll(p, order[..i], turns[..i]);
            && ResumeAll(p, order, turns) == ResumeAll(m, order[i..], turns[i..])
            && ResumeAll(p, order, turns) == ResumeAll(Turn(m, order[i], turns[i]), order[i + 1..], turns[i + 1..])
  {
    hide Turn;
    PassSplits(p, order, turns, i);
    assert order[i..][1..] == order[i + 1..] && turns[i..][1..] == turns[i + 1..];
  }

  /** After the pass the stream is ended, if there is a reason to; otherwise it has its one entry under
      its id, and is not ended. */
  ghost predicate MeetsFate(p: Pass, order: seq<Id>, turns: seq<Script>, i: nat, q: Pass)
    requires i < |order| == |turns| && order[i] in p.streams
  {
    var h, k := p.streams[order[i]], IdAfter(p.counter, order, turns, i);
    if HasReasonToEnd(p.counter, order, turns, i) then h in q.ended
    else k in q.streams && q.streams[k] == h && h in q.eff && q.eff[h] == k && h !in q.ended
  }

  /** With fresh ids, whatever the order of the snapshot and the frames in between, a stream is ended by
      the pass if and only if there is a reason to; otherwise it finishes under the id that the reply
      to its own request granted, or under its old id if no reply came. */
  lemma FateOfStream(p: Pass, order: seq<Id>, turns: seq<Script>, i: nat)
    requires Wf(p) && IsSnapshot(p, order) && i < |order| == |turns| && Fresh(p.streams.Keys, turns)
    ensures MeetsFate(p, order, turns, i, ResumeAll(p, order, turns))
  {
    hide ResumeAll, Turn, Fresh, EndRead, IsRefused, IdAfter, RequestId, Wf, IsSnapshot, IsAt;
    SnapshotHas(p, order, i);
    var h, k, m := p.streams[order[i]], IdAfter(p.counter, order, turns, i), ResumeAll(p, order[..i], turns[..i]);
    var n := Turn(m, order[i], turns[i]);
    PassAround(p, order, turns, i);
    FateBefore(p, order, turns, i);
    if exists j :: 0 <= j < i && EndRead(p.counter, turns, j, order[i]) {
      EndedStaysInPass(m, order[i..], turns[i..], h);
    } else {
      FateInTurn(p.counter, order, turns, i, m, h);
      if !IsRequested(turns[i]) || IsRefused(p.counter, turns, i) || EndRead(p.counter, turns, i, order[i]) {
        EndedStaysInPass(n, order[i + 1..], turns[i + 1..], h);
      } else {
        FateAfter(p, order, turns, i, n, h);
      }
    }
    PassSettles(p, order, turns, h, k);
  }
}
