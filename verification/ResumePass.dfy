/** The resume pass in the form of its source. */
module ResumePassClass {
  import opened Base
  import opened Resume
  import opened ResumeFate

  class ResumePass {
    var resumableStreams: map<Id, nat>
    var effectiveIds: map<nat, Id>
    var endedStreams: seq<nat>
    var requestIdCounter: nat

    function View(): Pass
      reads this
    {
      Pass(resumableStreams, effectiveIds, endedStreams, requestIdCounter)
    }

    /** Removes the entry, if there is one, and calls its `on_end`. */
    method Remove(id: Id)
      modifies `resumableStreams, `endedStreams
      ensures View() == RemoveAndEnd(old(View()), id)
    {
      if id in resumableStreams {
        endedStreams := endedStreams + [resumableStreams[id]];
        resumableStreams := Without(resumableStreams, id);
      }
    }

    /** The locked section that handles a granted id. */
    method MoveEntry(oldId: Id, newId: Id, endsAtReply: bool)
      modifies `resumableStreams, `effectiveIds, `endedStreams
      ensures View() == Remap(old(View()), oldId, newId, endsAtReply)
    {
      if oldId in resumableStreams {
        var stream := resumableStreams[oldId];
        resumableStreams := Without(resumableStreams, oldId);
        if endsAtReply {
          endedStreams := endedStreams + [stream];
        } else {
          effectiveIds := effectiveIds[stream := newId];
          resumableStreams := resumableStreams[newId := stream];
        }
      }
    }

    /** Reads frames until the reply to request `requestId`. */
    method AwaitReply(oldId: Id, requestId: Id, frames: seq<Frame>, endsAtReply: bool)
      modifies `resumableStreams, `effectiveIds, `endedStreams
      ensures View() == Await(old(View()), oldId, requestId, frames, endsAtReply)
    {
      var i := 0;
      while i < |frames|
        invariant i <= |frames|
        invariant Await(View(), oldId, requestId, frames[i..], endsAtReply)
               == Await(old(View()), oldId, requestId, frames, endsAtReply)
      {
        match frames[i] {
          case Response(r, stream) =>
            if r == requestId {
              if stream.Some? {
                MoveEntry(oldId, stream.value, endsAtReply);
              } else {
                Remove(oldId);
              }
              return;
            }
          case ErrorReply(r) =>
            if r == requestId {
              Remove(oldId);
              return;
            }
          case StreamEnd(id) => Remove(id);
          case Skipped =>
          case SocketDead => return;
        }
        i := i + 1;
      }
    }

    lemma PassFacts(order: seq<Id>, turns: seq<Script>)
      requires IsSnapshot(View(), order) && |order| == |turns|
      ensures var q := ResumeAll(View(), order, turns);
              Wf(View()) ==>
                && Wf(q)
                && (Fresh(resumableStreams.Keys, turns) ==>
                      && Accounted(q) == Accounted(View())
                      && forall i :: 0 <= i < |order| ==> MeetsFate(View(), order, turns, i, q))
    {
      hide MeetsFate, ResumeAll, Accounted;
      if Wf(View()) {
        PassLosesNothingIff(View(), order, turns);
        if Fresh(resumableStreams.Keys, turns) {
          FreshNeverClashes(View(), order, turns);
          forall i | 0 <= i < |order| ensures MeetsFate(View(), order, turns, i, ResumeAll(View(), order, turns)) {
            FateOfStream(View(), order, turns, i);
          }
        }
      }
    }

    /** Whatever the order of the snapshot and the frames, the pass computes `ResumeAll`; when the
        granted ids are fresh it loses no stream, and ends exactly those that there is a reason to end. */
    method ResumeStreams(order: seq<Id>, turns: seq<Script>)
      requires IsSnapshot(View(), order) && |order| == |turns|
      modifies this
      ensures View() == ResumeAll(old(View()), order, turns)
      ensures Wf(old(View())) ==> Wf(View())
      ensures Wf(old(View())) && Fresh(old(resumableStreams.Keys), turns) ==>
                && Accounted(View()) == Accounted(old(View()))
                && forall i :: 0 <= i < |order| ==> MeetsFate(old(View()), order, turns, i, View())
    {
      hide MeetsFate, Fresh, Wf, Accounted, IsSnapshot, Await, Remap;
      PassFacts(order, turns);
      var i := 0;
      while i < |order|
        invariant i <= |order|
        invariant ResumeAll(View(), order[i..], turns[i..]) == ResumeAll(old(View()), order, turns)
      {
        var turn := turns[i];
        if turn.endsBefore {
          Remove(order[i]);
        } else {
          var requestId := requestIdCounter;
          requestIdCounter := requestIdCounter + 1;
          if !turn.encodes {
            Remove(order[i]);
          } else if !turn.sends {
            Remove(order[i]);
          } else {
            AwaitReply(order[i], requestId, turn.frames, turn.endsAtReply);
          }
        }
        i := i + 1;
      }
    }
  }
}
