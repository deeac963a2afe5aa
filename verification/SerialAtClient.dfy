/**
`SerialATClient` as an object: each method is the code between two suspension points
of one coroutine and does to the state exactly what the function of `AtCalls` does.
*/
module SerialAtClient {
  import opened Options
  import A = AtCalls
  import P = AtProtocol

  /** What a poller makes of the reply to AT+CLCC; None stands for AtError. */
  function AnswerOf(reply: Option<seq<string>>): A.Answer {
    match reply
    case None => A.AtFailure
    case Some(lines) =>
      if exists i :: 0 <= i < |lines| && P.IsActiveCall(lines[i]) then A.ActiveCall else A.NoActiveCall
  }

  class SerialATClient {
    var activeCallId: Option<nat>
    var callQueue: Option<nat>            // names the queue object
    var pollerTask: Option<nat>
    var dialing: Option<nat>              // dial() is awaiting the driver
    var polling: map<nat, bool>           // live pollers; true while awaiting an answer
    var queues: map<nat, seq<A.Item>>     // the queue objects
    var streams: map<nat, A.Stream>       // the generator objects
    var nextId: nat
    ghost var hangups: set<A.Hangup>
    ghost var yielded: map<nat, seq<A.AtEvent>>

    ghost function State(): A.At
      reads this
    {
      A.At(activeCallId, callQueue, pollerTask, dialing, polling, queues, streams, hangups, yielded, nextId)
    }

    constructor ()
      ensures State() == A.IDLE
    {
      activeCallId, callQueue, pollerTask, dialing := None, None, None, None;
      polling, queues, streams, nextId := map[], map[], map[], 0;
      hangups, yielded := {}, map[];
    }

    /** dial() up to the await of the driver; None stands for the RuntimeError. */
    method Dial() returns (callId: Option<nat>)
      modifies this
      ensures callId.None? <==> old(activeCallId).Some?
      ensures callId.None? ==> State() == old(State())
      ensures callId.Some? ==> callId == Some(old(nextId)) && State() == A.DialBegin(old(State()))
    {
      if activeCallId.Some? {
        return None;
      }
      var id := nextId;
      nextId := nextId + 1;
      activeCallId := Some(id);
      callQueue := Some(id);
      queues := queues[id := []];
      dialing := Some(id);
      return Some(id);
    }

    /** dial() once the driver has returned or raised. */
    method DialReturned(failure: Option<string>)
      requires dialing.Some?
      modifies this
      ensures State() == if failure.Some? then A.DialFailed(old(State()), old(dialing.value), failure.value)
                         else A.DialAccepted(old(State()), old(dialing.value))
    {
      var id := dialing.value;
      dialing := None;
      if failure.Some? {
        ResetCallState();
        streams := streams[id := A.Single(A.RemoteHangup(id, failure.value))];
      } else {
        pollerTask := Some(id);
        polling := polling[id := false];
        streams := streams[id := A.Fresh];
      }
      yielded := yielded[id := []];
    }

    /** The coroutine awaiting dial() was cancelled. */
    method DialCancelled()
      modifies this`dialing
      ensures State() == A.DialAborted(old(State()))
    {
      dialing := None;
    }

    method ResetCallState()
      modifies this`activeCallId, this`callQueue, this`pollerTask, this`polling
      ensures State() == A.Reset(old(State()))
    {
      activeCallId := None;
      callQueue := None;
      if pollerTask.Some? {
        polling := polling - {pollerTask.value};
      }
      pollerTask := None;
    }

    method PutOn(queue: nat, item: A.Item)
      modifies this`queues
      ensures State() == A.Put(old(State()), queue, item)
    {
      queues := queues[queue := (if queue in queues then queues[queue] else []) + [item]];
    }

    /** hangup() up to the await of the driver; None when it returns at its guard. */
    method Hangup(callId: nat) returns (captured: Option<A.Hangup>)
      modifies this`hangups
      ensures State() == A.HangupBegin(old(State()), callId)
      ensures captured == match A.HangupTarget(old(State()), callId) case None => None case Some(q) => Some(A.Hangup(callId, q))
    {
      if activeCallId != Some(callId) {
        return None;
      }
      var queue := callQueue;
      if queue.None? {
        return None;
      }
      captured := Some(A.Hangup(callId, queue.value));
      hangups := hangups + {captured.value};
    }

    /** hangup() after the driver, with the queue it captured. */
    method HangupDone(h: A.Hangup)
      modifies this`queues
      ensures State() == A.HangupEnd(old(State()), h)
    {
      PutOn(h.queue, A.Event(A.RemoteHangup(h.call, "manual_hangup")));
    }

    /** _on_urc; `cause` is None for a URC outside the hangup class. */
    method OnUrc(cause: Option<string>)
      modifies this`queues
      ensures State() == A.OnUrc(old(State()), cause)
      ensures match (activeCallId, callQueue, cause)
              case (Some(id), Some(q), Some(c)) =>
                queues == old(queues)[q := A.QueueItems(old(State()), q) + [A.Event(A.RemoteHangup(id, c))]]
              case _ => queues == old(queues)
    {
      var id, queue := activeCallId, callQueue;
      if id.None? || queue.None? {
        return;
      }
      if cause.None? {
        return;
      }
      PutOn(queue.value, A.Event(A.RemoteHangup(id.value, cause.value)));
    }

    /** _poll_for_connected after its sleep. */
    method PollerWoke(callId: nat)
      modifies this`polling
      ensures State() == A.PollWake(old(State()), callId)
    {
      if activeCallId != Some(callId) {
        polling := polling - {callId};
        return;
      }
      polling := polling[callId := true];
    }

    /** _poll_for_connected after AT+CLCC. */
    method PollerAnswered(callId: nat, reply: Option<seq<string>>)
      modifies this`polling, this`queues
      ensures State() == A.PollAnswer(old(State()), callId, AnswerOf(reply))
      ensures var active := reply.Some? && exists i :: 0 <= i < |reply.value| && P.IsActiveCall(reply.value[i]);
        if active && callQueue.Some? then
          queues == old(queues)[callQueue.value := A.QueueItems(old(State()), callQueue.value) + [A.Event(A.Connected(callId))]]
        else queues == old(queues)
    {
      var active := false;
      if reply.Some? {
        active := P.HasActiveCall(reply.value);
      }
      if active {
        var queue := callQueue;
        if queue.Some? {
          PutOn(queue.value, A.Event(A.Connected(callId)));
        }
        polling := polling - {callId};
        return;
      }
      if activeCallId == Some(callId) {
        polling := polling[callId := false];
      } else {
        polling := polling - {callId};
      }
    }

    /** One `__anext__` on the stream of a call; Blocked leaves it waiting in queue.get(). */
    method Next(callId: nat) returns (r: A.Pulled)
      requires callId in streams
      modifies this
      ensures (State(), r) == A.Pull(old(State()), callId)
    {
      match streams[callId] {
        case Single(ev) =>
          streams := streams[callId := A.Ended];
          Yielded(callId, ev);
          r := A.Yield(ev);
        case Fresh =>
          if callQueue.None? {
            streams := streams[callId := A.Ended];
            r := A.End;
          } else {
            r := Drain(callId, callQueue.value, false);
          }
        case Open(queue, seen) =>
          r := Drain(callId, queue, seen);
        case AtHangup =>
          streams := streams[callId := A.Ended];
          StreamFinally(callId);
          r := A.End;
        case Ended =>
          r := A.End;
      }
    }

    ghost method Yielded(callId: nat, ev: A.AtEvent)
      modifies this`yielded
      ensures yielded == old(yielded)[callId := (if callId in old(yielded) then old(yielded)[callId] else []) + [ev]]
    {
      yielded := yielded[callId := (if callId in yielded then yielded[callId] else []) + [ev]];
    }

    /** The loop of _urc_stream, until it yields, ends, or would wait. */
    method Drain(callId: nat, queue: nat, seen: bool) returns (r: A.Pulled)
      modifies this
      ensures (State(), r) == A.PullOpen(old(State()), callId, queue, seen)
    {
      var items := if queue in queues then queues[queue] else [];
      while items != []
        invariant A.Scan(items, seen) == A.Scan(A.QueueItems(old(State()), queue), seen)
        invariant State() == old(State())
        decreases |items|
      {
        var item := items[0];
        items := items[1..];
        if item.Sentinel? {
          queues := queues[queue := items];
          streams := streams[callId := A.Ended];
          StreamFinally(callId);
          return A.End;
        }
        if item.ev.Connected? {
          if seen {
            continue;
          }
          streams := streams[callId := A.Open(queue, true)];
        } else {
          streams := streams[callId := A.AtHangup];
        }
        queues := queues[queue := items];
        Yielded(callId, item.ev);
        return A.Yield(item.ev);
      }
      queues := queues[queue := []];
      streams := streams[callId := A.Open(queue, seen)];
      return A.Blocked;
    }

    /** The `finally` of _urc_stream. */
    method StreamFinally(callId: nat)
      modifies this`activeCallId, this`callQueue, this`pollerTask, this`polling
      ensures State() == A.Finally(old(State()), callId)
    {
      if activeCallId == Some(callId) {
        ResetCallState();
      }
    }

    /** The generator is closed, or cancelled inside queue.get(). */
    method CloseStream(callId: nat)
      requires callId in streams
      modifies this
      ensures State() == A.Close(old(State()), callId)
    {
      var entered := streams[callId].Open? || streams[callId].AtHangup?;
      streams := streams[callId := A.Ended];
      if entered {
        StreamFinally(callId);
      }
    }

    /** aclose() up to the closing of the port. */
    method Aclose()
      modifies this`queues, this`polling
      ensures State() == A.Aclose(old(State()))
    {
      if callQueue.Some? {
        PutOn(callQueue.value, A.Sentinel);
      }
      if pollerTask.Some? {
        polling := polling - {pollerTask.value};
      }
    }
  }
}
