/** The upload bridge as an object: each method is a step of the model, or a whole poll. */
module UploadBridge {
  import opened Wrappers
  import opened Streams
  import opened UploadModel
  import opened UploadSafety

  /** Acting several times; once a call waits or is over, acting changes nothing. */
  function ActedTimes(s: State, t: nat, n: nat): State
    decreases n
  {
    if n == 0 then s else ActedTimes(Acted(s, t), t, n - 1)
  }

  /** A whole poll of a call: at most four chunks find room, and a fifth act ends the call or finds it waiting. */
  function CallPolled(s: State, t: nat): State {
    Yielded(ActedTimes(Acquired(Begun(s, t), t), t, QUEUED_CHUNKS + 1), t)
  }

  /** The output beyond the first `before`, if there is one. */
  function Newest(outputs: seq<Output>, before: nat): Option<Output> {
    if |outputs| <= before then None else Some(outputs[|outputs| - 1])
  }

  /** The first half of a poll: only a stream that goes on without a failure is received from. */
  lemma FrameBegun(s: State)
    requires !s.released && !s.checked
    ensures BodyBegun(s) ==
            if s.ended then s.(outputs := s.outputs + [End])
            else if s.error.Some? then s.(ended := true, open := false, outputs := s.outputs + [Failure(s.error.value)])
            else s.(checked := true)
    ensures s.ended || s.error.Some? ==> BodyReceived(BodyBegun(s)) == BodyBegun(s)
  {
    var a := BodyBegun(s);
    if s.ended {
      assert BodyReceived(a) == a;
    } else if s.error.Some? {
      assert BodyReceived(a) == a;
    }
  }

  lemma PolledInv(s: State)
    requires Inv(s)
    ensures Inv(BodyReceived(BodyBegun(s)))
  {
    hide Inv, BodyBegun, BodyReceived;
    BodyBegunInv(s);
    BodyReceivedInv(BodyBegun(s));
  }

  class UploadChannel {
    var queue: seq<Frame>
    var open: bool
    var released: bool
    var sender: bool
    var holder: Option<nat>
    var tasks: map<nat, Task>
    var writerDropped: bool
    var error: Option<Error>
    var ended: bool
    ghost var turns: seq<Turn>
    ghost var turnOf: map<nat, nat>
    ghost var outputs: seq<Output>
    ghost var finish: Option<Finishing>

    ghost function Snapshot(): State
      reads this
    {
      State(queue, open, released, sender, holder, tasks, writerDropped, error, false, ended, turns, turnOf, outputs, finish)
    }

    constructor ()
      ensures Snapshot() == START
    {
      queue, open, released, sender, holder, tasks := [], true, false, true, None, map[];
      writerDropped, error, ended := false, None, false;
      turns, turnOf, outputs, finish := [], map[], [], None;
    }

    method Fail(reason: Error)
      modifies this`error
      ensures Snapshot() == WithFailure(old(Snapshot()), reason)
    {
      if error.None? {
        error := Some(reason);
      }
    }

    method Settle(t: nat, phase: Phase)
      requires t in tasks
      modifies this`tasks, this`holder
      ensures Snapshot() == Settled(old(Snapshot()), t, phase)
    {
      tasks := tasks[t := tasks[t].(phase := phase, polling := false)];
      if holder == Some(t) {
        holder := None;
      }
    }

    /** The future of a call is dropped: its lock is given up, then the upload fails. */
    method DropCall(t: nat)
      requires Inv(Snapshot())
      modifies this`tasks, this`holder, this`error
      ensures Inv(Snapshot()) && Snapshot() == AbandonFailed(Abandoned(old(Snapshot()), t), t)
    {
      AbandonedInv(Snapshot(), t);
      AbandonFailedInv(Abandoned(Snapshot(), t), t);
      hide Inv;
      if t in tasks && (tasks[t].phase.Waiting? || tasks[t].phase.Writing?) && !tasks[t].polling {
        Settle(t, Dropping);
      }
      if t in tasks && tasks[t].phase.Dropping? {
        Settle(t, Dropped);
        Fail(Cancelled);
      }
    }

    /** A poll of `send` or `finish`, from the check for cancellation to where it waits or returns. */
    method PollCall(t: nat)
      requires Inv(Snapshot())
      modifies this
      ensures Inv(Snapshot()) && Snapshot() == CallPolled(old(Snapshot()), t)
    {
      hide Inv, Begun, Acquired, Acted;
      BegunInv(Snapshot(), t);
      Begin(t);
      AcquiredInv(Snapshot(), t);
      Acquire(t);
      ghost var s := Snapshot();
      var n: nat := QUEUED_CHUNKS + 1;
      while n > 0
        invariant 0 <= n
        invariant Inv(Snapshot()) && ActedTimes(Snapshot(), t, n) == ActedTimes(s, t, QUEUED_CHUNKS + 1)
      {
        Act(t);
        n := n - 1;
      }
      if t in tasks {
        PollingInv(Snapshot(), t, false);
        tasks := tasks[t := tasks[t].(polling := false)];
      }
    }

    method Begin(t: nat)
      modifies this`tasks, this`holder
      ensures Snapshot() == Begun(old(Snapshot()), t)
    {
      if t in tasks && (tasks[t].phase.Waiting? || tasks[t].phase.Writing?) && !tasks[t].polling {
        if error.Some? {
          Settle(t, Failed(error.value));
        } else {
          tasks := tasks[t := tasks[t].(polling := true)];
        }
      }
    }

    method Acquire(t: nat)
      modifies this`tasks, this`holder, this`turns, this`turnOf
      ensures Snapshot() == Acquired(old(Snapshot()), t)
    {
      if t !in tasks || !tasks[t].phase.Waiting? || !tasks[t].polling || holder.Some? {
        return;
      }
      if !sender {
        Settle(t, Failed(Closed));
        return;
      }
      holder := Some(t);
      match tasks[t].work
      case Send(bytes) =>
        tasks := tasks[t := tasks[t].(phase := Writing(bytes))];
        turnOf := turnOf[t := |turns|];
        turns := turns + [Turn(t, [])];
      case Finish(_) =>
        tasks := tasks[t := tasks[t].(phase := Writing([]))];
    }

    method Act(t: nat)
      requires Inv(Snapshot())
      modifies this
      ensures Inv(Snapshot()) && Snapshot() == Acted(old(Snapshot()), t)
    {
      ActedInv(Snapshot(), t);
      if t !in tasks || !tasks[t].phase.Writing? || !tasks[t].polling || holder != Some(t) {
        return;
      }
      assert tasks[t].work.Send? ==> turns != [] by {
        hide TurnsOk, FinishOk, CutOk, QueueOk, FlowOk, BodyOk;
      }
      hide Inv, Settled, Enqueued;
      match tasks[t].work
      case Send(_) =>
        var left := tasks[t].phase.left;
        if left == [] {
          Settle(t, Succeeded);
        } else if !open {
          Settle(t, Failed(Closed));
        } else if |queue| < QUEUED_CHUNKS {
          Enqueue(t, left);
        }
      case Finish(trailers) =>
        if !open {
          Settle(t, Failed(Closed));
        } else if |queue| < QUEUED_CHUNKS {
          SendLast(t, trailers);
        }
    }

    method SendLast(t: nat, trailers: Fields)
      requires t in tasks
      modifies this
      ensures Snapshot() == Settled(old(Snapshot()), t, Succeeded).(
                queue := old(queue) + [Last(trailers)], sender := false, finish := Some(Finishing(t, trailers)))
    {
      hide Settled;
      Settle(t, Succeeded);
      queue, sender := queue + [Last(trailers)], false;
      finish := Some(Finishing(t, trailers));
    }

    method Enqueue(t: nat, left: seq<byte>)
      requires t in tasks && turns != []
      modifies this`queue, this`tasks, this`turns
      ensures Snapshot() == Enqueued(old(Snapshot()), t, left)
    {
      var chunk := if |left| <= CHUNK_BYTES then left else left[..CHUNK_BYTES];
      queue := queue + [Data(chunk)];
      tasks := tasks[t := tasks[t].(phase := Writing(left[|chunk|..]))];
      turns := turns[|turns| - 1 := Turn(turns[|turns| - 1].task, turns[|turns| - 1].bytes + chunk)];
    }

    /** A poll of the body: a failure first, then what is received. */
    method PollFrame() returns (r: Option<Output>)
      requires Inv(Snapshot()) && !released
      modifies this
      ensures r == Newest(outputs, |old(outputs)|)
      ensures Inv(Snapshot()) && Snapshot() == BodyReceived(BodyBegun(old(Snapshot())))
    {
      hide Inv, BodyBegun, BodyReceived;
      ghost var s := Snapshot();
      PolledInv(s);
      FrameBegun(s);
      if ended {
        r := Some(End);
        Yield(End);
      } else if error.Some? {
        r := Some(Failure(error.value));
        Yield(Failure(error.value));
        ended, open := true, false;
        assert Snapshot() == s.(ended := true, open := false, outputs := s.outputs + [Failure(error.value)]);
      } else {
        r := Receive();
      }
    }

    ghost method Yield(output: Output)
      modifies this`outputs
      ensures Snapshot() == old(Snapshot()).(outputs := old(outputs) + [output])
    {
      outputs := outputs + [output];
    }

    /** Nothing waits: the body goes on waiting while the writer has its sender. */
    method ReceiveNothing() returns (r: Option<Output>)
      requires !released && !ended && queue == []
      modifies this`ended, this`outputs
      ensures Snapshot() == BodyReceived(old(Snapshot()).(checked := true))
      ensures r == Newest(outputs, |old(outputs)|)
    {
      if sender {
        return None;
      }
      ended := true;
      outputs := outputs + [Failure(Producer)];
      return Some(Failure(Producer));
    }

    /** The second half of a poll: the next frame, or why there is none. */
    method Receive() returns (r: Option<Output>)
      requires !released && !ended
      modifies this
      ensures Snapshot() == BodyReceived(old(Snapshot()).(checked := true))
      ensures r == Newest(outputs, |old(outputs)|)
    {
      hide BodyReceived;
      if queue == [] {
        r := ReceiveNothing();
        return;
      }
      FrameReceived(Snapshot());
      var frame := queue[0];
      queue := queue[1..];
      match frame
      case Data(bytes) =>
        outputs := outputs + [Chunk(bytes)];
        return Some(Chunk(bytes));
      case Last(trailers) =>
        ended, open := true, false;
        var output := if trailers == [] then End else Trailers(trailers);
        outputs := outputs + [output];
        return Some(output);
    }
  }

  lemma FrameReceived(s: State)
    requires !s.released && s.queue != []
    ensures BodyReceived(s.(checked := true)) ==
            match s.queue[0]
            case Data(bytes) => s.(checked := false, queue := s.queue[1..], outputs := s.outputs + [Chunk(bytes)])
            case Last(trailers) =>
              s.(checked := false, queue := s.queue[1..], ended := true, open := false,
                 outputs := s.outputs + [if trailers == [] then End else Trailers(trailers)])
  {
  }
}
