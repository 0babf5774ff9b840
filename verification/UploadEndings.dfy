/**
 When an upload can still end cleanly, in every reachable state, and so when a call that is dropped midway fails the whole
 upload as it is meant to.
 */
module UploadEndings {
  import opened Wrappers
  import opened Streams
  import opened UploadModel
  import opened UploadSafety
  import opened UploadPromises

  /** A finish is being polled and has not ended: it checked for cancellation before. */
  ghost predicate FinishPolled(tasks: Tasks) {
    exists t | t in tasks :: tasks[t].work.Finish? && tasks[t].polling && (tasks[t].phase.Waiting? || tasks[t].phase.Writing?)
  }

  /** The body is being polled and has checked already, and what it receives next is the finish or may become it. */
  ghost predicate FinishAtHand(s: State) {
    s.checked && if s.queue != [] then s.queue[0].Last? else s.sender && FinishPolled(s.tasks)
  }

  /**
   The stream goes on, somebody receives it, and it has its finish or could get one; once a failure is recorded only
   polls that began before can still bring the two together.
   */
  ghost predicate MayEnd(s: State) {
    && VerdictOf(s.outputs) == Streaming && !s.released
    && if s.error.Some? then FinishAtHand(s) else s.sender || s.finish.Some?
  }

  ghost predicate EndReachable(s: State) {
    exists more :: VerdictOf(RunOf(s, more).outputs) == Clean
  }

  // ----- what a step of the writers can change

  predicate Live(phase: Phase) {
    phase.Waiting? || phase.Writing?
  }

  ghost predicate QueueMoves(queue: seq<Frame>, after: seq<Frame>, finishing: bool) {
    if queue != [] then after != [] && after[0] == queue[0] else after != [] && after[0].Last? ==> finishing
  }

  /** A recorded failure stops every poll that begins, and what is over stays over. */
  ghost predicate TasksMove(tasks: Tasks, after: Tasks, failed: bool) {
    && (failed && FinishPolled(after) ==> FinishPolled(tasks))
    && forall t | t in tasks && !Live(tasks[t].phase) :: t in after && !Live(after[t].phase) && after[t].work == tasks[t].work
  }

  ghost predicate TurnsMove(turns: seq<Turn>, after: seq<Turn>, holder: Option<nat>) {
    |turns| <= |after| && forall k | 0 <= k < |turns| && holder != Some(turns[k].task) :: after[k] == turns[k]
  }

  ghost predicate Moves(s: State, n: State) {
    && n.outputs == s.outputs && n.checked == s.checked && n.released == s.released
    && (s.error.Some? ==> n.error.Some?) && (n.sender ==> s.sender) && (n.finish.Some? ==> s.finish.Some? || s.sender)
    && QueueMoves(s.queue, n.queue, s.sender && FinishPolled(s.tasks))
    && TasksMove(s.tasks, n.tasks, s.error.Some?) && TurnsMove(s.turns, n.turns, s.holder)
  }

  lemma Still(s: State)
    ensures Moves(s, s)
  {
    hide FinishPolled;
  }

  lemma OneTaskMoves(tasks: Tasks, t: nat, task: Task, failed: bool)
    requires t in tasks && task.work == tasks[t].work && (Live(task.phase) ==> Live(tasks[t].phase))
    requires failed && task.work.Finish? && task.polling && Live(task.phase) ==> tasks[t].polling
    ensures TasksMove(tasks, tasks[t := task], failed)
  {
    var after := tasks[t := task];
    if failed && FinishPolled(after) {
      var u :| u in after && after[u].work.Finish? && after[u].polling && Live(after[u].phase);
      assert u in tasks && tasks[u].work.Finish? && tasks[u].polling && Live(tasks[u].phase);
    }
  }

  lemma NewTaskMoves(tasks: Tasks, t: nat, work: Work, failed: bool)
    requires t !in tasks
    ensures TasksMove(tasks, tasks[t := Task(work, Waiting, false)], failed)
  {
    var after := tasks[t := Task(work, Waiting, false)];
    if FinishPolled(after) {
      var u :| u in after && after[u].work.Finish? && after[u].polling && Live(after[u].phase);
      assert u in tasks && tasks[u].polling;
    }
  }

  lemma SettledMoves(s: State, t: nat, phase: Phase)
    requires t in s.tasks && !Live(phase)
    ensures Moves(s, Settled(s, t, phase))
  {
    hide FinishPolled, TasksMove;
    OneTaskMoves(s.tasks, t, s.tasks[t].(phase := phase, polling := false), s.error.Some?);
  }

  lemma PollingMoves(s: State, t: nat, polling: bool)
    requires t in s.tasks && (polling ==> s.error.None?)
    ensures Moves(s, Polling(s, t, polling))
  {
    hide FinishPolled, TasksMove;
    OneTaskMoves(s.tasks, t, s.tasks[t].(polling := polling), s.error.Some?);
  }

  lemma StartedMoves(s: State, t: nat, work: Work)
    requires t !in s.tasks
    ensures Moves(s, s.(tasks := s.tasks[t := Task(work, Waiting, false)]))
  {
    hide FinishPolled, TasksMove;
    NewTaskMoves(s.tasks, t, work, s.error.Some?);
  }

  lemma BegunMoves(s: State, t: nat)
    ensures Moves(s, Begun(s, t))
  {
    hide Moves, Settled, Polling;
    Still(s);
    if Pending(s, t) && !s.tasks[t].polling {
      if s.error.Some? {
        SettledMoves(s, t, Failed(s.error.value));
      } else {
        PollingMoves(s, t, true);
      }
    }
  }

  lemma SendTakenMoves(s: State, t: nat, bytes: seq<byte>)
    requires t in s.tasks && s.tasks[t].phase.Waiting? && s.tasks[t].polling
    ensures Moves(s, s.(tasks := s.tasks[t := s.tasks[t].(phase := Writing(bytes))], holder := Some(t),
                        turns := s.turns + [Turn(t, [])], turnOf := s.turnOf[t := |s.turns|]))
  {
    hide FinishPolled, TasksMove;
    OneTaskMoves(s.tasks, t, s.tasks[t].(phase := Writing(bytes)), s.error.Some?);
  }

  lemma FinishTakenMoves(s: State, t: nat)
    requires t in s.tasks && s.tasks[t].phase.Waiting? && s.tasks[t].polling
    ensures Moves(s, s.(tasks := s.tasks[t := s.tasks[t].(phase := Writing([]))], holder := Some(t)))
  {
    hide FinishPolled, TasksMove;
    OneTaskMoves(s.tasks, t, s.tasks[t].(phase := Writing([])), s.error.Some?);
  }

  lemma AcquiredMoves(s: State, t: nat)
    ensures Moves(s, Acquired(s, t))
  {
    hide Moves, Settled;
    Still(s);
    if t in s.tasks && s.tasks[t].phase.Waiting? && s.tasks[t].polling && s.holder.None? {
      if !s.sender {
        SettledMoves(s, t, Failed(Closed));
      } else {
        match s.tasks[t].work
        case Send(bytes) => SendTakenMoves(s, t, bytes);
        case Finish(_) => FinishTakenMoves(s, t);
      }
    }
  }

  lemma EnqueuedMoves(s: State, t: nat, left: seq<byte>)
    requires Inv(s) && t in s.tasks && s.holder == Some(t) && s.tasks[t].phase.Writing? && s.tasks[t].work.Send? && s.turns != []
    ensures Moves(s, Enqueued(s, t, left))
  {
    hide FinishPolled, TasksMove, TurnsMove, Inv;
    var n := |s.turns| - 1;
    HolderTurn(s, t);
    LastTurnMoves(s.turns, s.turns[n].bytes + ChunkOf(left), s.holder);
    OneTaskMoves(s.tasks, t, s.tasks[t].(phase := Writing(left[|ChunkOf(left)|..])), s.error.Some?);
  }

  lemma HolderTurn(s: State, t: nat)
    requires Inv(s) && t in s.tasks && s.holder == Some(t) && s.tasks[t].work.Send?
    ensures s.turns != [] && s.turns[|s.turns| - 1].task == t
  {
    hide TurnsOk, FinishOk, CutOk, QueueOk, FlowOk, BodyOk;
  }

  lemma LastTurnMoves(turns: seq<Turn>, bytes: seq<byte>, holder: Option<nat>)
    requires turns != [] && holder == Some(turns[|turns| - 1].task)
    ensures TurnsMove(turns, turns[|turns| - 1 := Turn(turns[|turns| - 1].task, bytes)], holder)
  {
  }

  lemma FinishSentMoves(s: State, t: nat, trailers: Fields)
    requires Inv(s) && t in s.tasks && s.holder == Some(t) && s.tasks[t].phase.Writing?
    requires s.tasks[t].polling && s.tasks[t].work.Finish?
    ensures Moves(s, Settled(s, t, Succeeded).(queue := s.queue + [Last(trailers)], sender := false, finish := Some(Finishing(t, trailers))))
  {
    hide Settled, Moves, Inv;
    HolderSends(s, t);
    assert FinishPolled(s.tasks);
    SettledMoves(s, t, Succeeded);
    FinishQueued(s, Settled(s, t, Succeeded), trailers, Some(Finishing(t, trailers)));
  }

  lemma FinishQueued(s: State, n: State, trailers: Fields, finish: Option<Finishing>)
    requires Moves(s, n) && s.sender && FinishPolled(s.tasks)
    ensures Moves(s, n.(queue := s.queue + [Last(trailers)], sender := false, finish := finish))
  {
    hide TasksMove, TurnsMove, FinishPolled;
  }

  lemma ActedMoves(s: State, t: nat)
    requires Inv(s)
    ensures Moves(s, Acted(s, t))
  {
    hide Moves, Settled, Enqueued, Inv;
    Still(s);
    if t in s.tasks && s.tasks[t].phase.Writing? && s.tasks[t].polling && s.holder == Some(t) {
      SettledMoves(s, t, Succeeded);
      SettledMoves(s, t, Failed(Closed));
      match s.tasks[t].work
      case Send(_) =>
        if s.turns != [] {
          EnqueuedMoves(s, t, s.tasks[t].phase.left);
        }
      case Finish(trailers) => FinishSentMoves(s, t, trailers);
    }
  }

  lemma AbandonedMoves(s: State, t: nat)
    ensures Moves(s, Abandoned(s, t))
  {
    hide Moves, Settled;
    Still(s);
    if Pending(s, t) {
      SettledMoves(s, t, Dropping);
    }
  }

  lemma FailureMoves(s: State, n: State, error: Error)
    requires Moves(s, n)
    ensures Moves(s, WithFailure(n, error))
  {
    hide QueueMoves, TasksMove, TurnsMove;
  }

  lemma AbandonFailedMoves(s: State, t: nat)
    ensures Moves(s, AbandonFailed(s, t))
  {
    hide Moves, Settled, WithFailure;
    Still(s);
    if t in s.tasks {
      SettledMoves(s, t, Dropped);
      FailureMoves(s, Settled(s, t, Dropped), Cancelled);
    }
  }

  lemma WriterDroppedMoves(s: State)
    ensures Moves(s, WriterDropped(s))
  {
    hide FinishPolled, Idle, TasksMove, TurnsMove;
    Still(s);
  }

  predicate OfBody(step: Step) {
    step.BodyBegin? || step.BodyReceive? || step.DropBody?
  }

  lemma WritersMove(s: State, step: Step)
    requires Inv(s) && !OfBody(step)
    ensures Moves(s, StepOf(s, step))
  {
    hide Inv, Moves, Begun, Acquired, Acted, Polling, Abandoned, AbandonFailed, WithFailure, WriterDropped;
    Still(s);
    match step
    case Start(t, work) =>
      if t !in s.tasks {
        StartedMoves(s, t, work);
      }
    case Begin(t) => BegunMoves(s, t);
    case Acquire(t) => AcquiredMoves(s, t);
    case Act(t) => ActedMoves(s, t);
    case Yield(t) =>
      if t in s.tasks {
        PollingMoves(s, t, false);
      }
    case Abandon(t) => AbandonedMoves(s, t);
    case AbandonFail(t) => AbandonFailedMoves(s, t);
    case Fail(error) => FailureMoves(s, s, error);
    case DropWriter => WriterDroppedMoves(s);
  }

  // ----- no way to a clean end

  ghost predicate Lost(s: State) {
    VerdictOf(s.outputs) != Clean && !MayEnd(s)
  }

  /** The finish is the last frame of the queue, so it is first only when it is alone. */
  lemma LastIsFinish(queue: seq<Frame>, finish: Option<Finishing>)
    requires QueueOk(queue, finish) && queue != [] && queue[0].Last?
    ensures finish.Some?
  {
  }

  lemma CheckedOpen(s: State)
    requires Inv(s)
    ensures s.checked ==> !s.released && VerdictOf(s.outputs) == Streaming
    ensures s.queue != [] && s.queue[0].Last? ==> s.finish.Some?
    ensures VerdictOf(s.outputs) == Streaming && !s.released ==> s.open
    ensures VerdictOf(s.outputs) == Streaming && !s.released && s.finish.Some? ==> s.queue != []
    ensures s.finish.Some? ==> !s.sender
    ensures s.sender ==> !s.writerDropped
    ensures s.ended <==> VerdictOf(s.outputs) != Streaming
  {
    hide LockOk, TurnsOk, CutOk, FlowOk, VerdictOf, Delivered, Written, DeliveredFields, QueueOk;
    if s.queue != [] && s.queue[0].Last? {
      LastIsFinish(s.queue, s.finish);
    }
  }

  lemma WritersLose(s: State, n: State)
    requires Inv(s) && Inv(n) && Moves(s, n) && Lost(s)
    ensures Lost(n)
  {
    hide Inv, VerdictOf, FinishPolled, TurnsMove;
    CheckedOpen(s);
    CheckedOpen(n);
  }

  lemma BodyBegunLoses(s: State)
    requires Inv(s) && Lost(s)
    ensures Lost(BodyBegun(s))
  {
    CheckedOpen(s);
    BodyBegunInv(s);
    hide Inv, VerdictOf, FinishPolled;
    if !s.released && !s.checked {
      if s.ended {
        OutputAppend(s.outputs, End);
      } else if s.error.Some? {
        OutputAppend(s.outputs, Failure(s.error.value));
      }
    }
  }

  /** What is left to lose once the body is not being polled any more. */
  lemma UncheckedLoses(s: State, n: State)
    requires Lost(s) && VerdictOf(s.outputs) == Streaming && !s.released && s.checked
    requires VerdictOf(n.outputs) in {Streaming, Errored} && !n.checked
    requires n.error == s.error && n.sender == s.sender && n.finish == s.finish
    ensures Lost(n)
  {
    hide VerdictOf, FinishPolled;
  }

  lemma DataReceivedLoses(s: State)
    requires Inv(s) && Lost(s) && s.checked && s.queue != [] && s.queue[0].Data?
    ensures Lost(BodyReceived(s))
  {
    CheckedOpen(s);
    hide Inv, VerdictOf, FinishPolled, Lost;
    OutputAppend(s.outputs, Chunk(s.queue[0].bytes));
    UncheckedLoses(s, s.(checked := false, queue := s.queue[1..], outputs := s.outputs + [Chunk(s.queue[0].bytes)]));
  }

  lemma NothingReceivedLoses(s: State)
    requires Inv(s) && Lost(s) && s.checked && s.queue == []
    ensures Lost(BodyReceived(s))
  {
    CheckedOpen(s);
    hide Inv, VerdictOf, FinishPolled, Lost;
    if s.sender {
      UncheckedLoses(s, s.(checked := false));
    } else {
      OutputAppend(s.outputs, Failure(Producer));
      UncheckedLoses(s, s.(checked := false, ended := true, outputs := s.outputs + [Failure(Producer)]));
    }
  }

  lemma FinishAtHeadIsNotLost(s: State)
    requires Inv(s) && s.checked && s.queue != [] && s.queue[0].Last?
    ensures !Lost(s)
  {
    CheckedOpen(s);
    hide Inv, VerdictOf, FinishPolled;
  }

  lemma BodyReceivedLoses(s: State)
    requires Inv(s) && Lost(s)
    ensures Lost(BodyReceived(s))
  {
    hide Inv, Lost;
    if s.checked {
      if s.queue == [] {
        NothingReceivedLoses(s);
      } else if s.queue[0].Data? {
        DataReceivedLoses(s);
      } else {
        FinishAtHeadIsNotLost(s);
      }
      hide BodyReceived;
    }
  }

  lemma BodyDroppedLoses(s: State)
    requires Inv(s) && Lost(s)
    ensures Lost(BodyDropped(s))
  {
    hide Inv, VerdictOf, FinishPolled;
  }

  lemma LostStep(s: State, step: Step)
    requires Inv(s) && Lost(s)
    ensures Inv(StepOf(s, step)) && Lost(StepOf(s, step))
  {
    hide Inv, Lost, Moves, BodyBegun, BodyReceived, BodyDropped;
    StepInv(s, step);
    match step
    case BodyBegin => BodyBegunLoses(s);
    case BodyReceive => BodyReceivedLoses(s);
    case DropBody => BodyDroppedLoses(s);
    case _ =>
      hide StepOf;
      WritersMove(s, step);
      WritersLose(s, StepOf(s, step));
  }

  lemma {:induction false} LostRun(s: State, steps: seq<Step>)
    requires Inv(s) && Lost(s)
    ensures Lost(RunOf(s, steps))
    decreases |steps|
  {
    hide Inv, Lost, StepOf;
    if steps != [] {
      LostStep(s, steps[0]);
      LostRun(StepOf(s, steps[0]), steps[1..]);
    }
  }

  // ----- a way to a clean end

  lemma StepReaches(s: State, step: Step)
    requires EndReachable(StepOf(s, step))
    ensures EndReachable(s)
  {
    hide StepOf, VerdictOf;
    var more :| VerdictOf(RunOf(StepOf(s, step), more).outputs) == Clean;
    assert ([step] + more)[1..] == more;
    assert RunOf(s, [step] + more) == RunOf(StepOf(s, step), more);
  }

  lemma ReachedNow(s: State)
    requires VerdictOf(s.outputs) == Clean
    ensures EndReachable(s)
  {
    assert RunOf(s, []) == s;
  }

  /** The stream goes on to somebody who receives it. */
  ghost predicate GoesOn(s: State) {
    Inv(s) && VerdictOf(s.outputs) == Streaming && !s.released
  }

  /** A poll of the body that has checked and finds the finish ends the stream. */
  lemma LastReceived(s: State)
    requires GoesOn(s) && s.checked && s.queue != [] && s.queue[0].Last?
    ensures EndReachable(s)
  {
    hide Inv, VerdictOf;
    var output := if s.queue[0].trailers == [] then End else Trailers(s.queue[0].trailers);
    OutputAppend(s.outputs, output);
    ReachedNow(StepOf(s, BodyReceive));
    StepReaches(s, BodyReceive);
  }

  lemma DataReceived(s: State)
    requires GoesOn(s) && s.checked && s.queue != [] && s.queue[0].Data?
    ensures var n := StepOf(s, BodyReceive);
            GoesOn(n) && n.queue == s.queue[1..] && n.error == s.error && n.finish == s.finish && n.sender == s.sender
            && n.holder == s.holder && n.tasks == s.tasks && !n.checked
  {
    hide Inv, VerdictOf;
    OutputAppend(s.outputs, Chunk(s.queue[0].bytes));
    StepInv(s, BodyReceive);
  }

  lemma Checks(s: State)
    requires GoesOn(s) && s.error.None?
    ensures GoesOn(s.(checked := true)) && (!s.checked ==> StepOf(s, BodyBegin) == s.(checked := true))
  {
    hide Inv, VerdictOf;
    CheckedOpen(s);
    if !s.checked {
      StepInv(s, BodyBegin);
    } else {
      assert s == s.(checked := true);
    }
  }

  /** Without a failure, a queue that holds the finish drains to it. */
  lemma {:induction false} Drains(s: State)
    requires GoesOn(s) && s.error.None? && s.finish.Some?
    ensures EndReachable(s)
    decreases |s.queue|
  {
    Checks(s);
    var c := s.(checked := true);
    CheckedOpen(c);
    hide GoesOn, EndReachable, StepOf;
    assert s.queue != [];
    if s.queue[0].Last? {
      LastReceived(c);
    } else {
      DataReceived(c);
      Drains(StepOf(c, BodyReceive));
      StepReaches(c, BodyReceive);
    }
    if !s.checked {
      StepReaches(s, BodyBegin);
    } else {
      assert s == c;
    }
  }

  /** The holder's poll is over and it is dropped: the lock goes, and the upload has not failed yet. */
  function Relinquished(s: State, h: nat): State
    requires h in s.tasks
  {
    s.(tasks := s.tasks[h := Task(s.tasks[h].work, Dropping, false)], holder := None)
  }

  lemma YieldAndAbandon(s: State, h: nat)
    requires s.holder == Some(h) && h in s.tasks && s.tasks[h].phase.Writing?
    ensures StepOf(StepOf(s, Yield(h)), Abandon(h)) == Relinquished(s, h)
  {
    var a := s.(tasks := s.tasks[h := s.tasks[h].(polling := false)]);
    assert StepOf(s, Yield(h)) == a;
    assert a.tasks[h := Task(s.tasks[h].work, Dropping, false)] == s.tasks[h := Task(s.tasks[h].work, Dropping, false)];
  }

  /** A call that holds the lock can be dropped, which gives the lock up before it fails the upload. */
  lemma LockGivenUp(s: State, h: nat)
    requires GoesOn(s) && s.holder == Some(h)
    ensures h in s.tasks && s.tasks[h].phase.Writing?
    ensures GoesOn(Relinquished(s, h)) && (EndReachable(Relinquished(s, h)) ==> EndReachable(s))
  {
    hide Inv, VerdictOf, EndReachable, StepOf;
    HolderWrites(s, h);
    YieldAndAbandon(s, h);
    StepInv(s, Yield(h));
    StepInv(StepOf(s, Yield(h)), Abandon(h));
    if EndReachable(Relinquished(s, h)) {
      StepReaches(StepOf(s, Yield(h)), Abandon(h));
      StepReaches(s, Yield(h));
    }
  }

  lemma HolderWrites(s: State, h: nat)
    requires Inv(s) && s.holder == Some(h)
    ensures h in s.tasks && s.tasks[h].phase.Writing?
  {
    hide TurnsOk, FinishOk, CutOk, QueueOk, FlowOk, BodyOk, HolderOk;
  }

  predicate IsFinishPolled(task: Task) {
    task.work.Finish? && task.polling && Live(task.phase)
  }

  /** A finish that holds the lock puts its frame into the empty queue. */
  lemma FinishActs(s: State, t: nat)
    requires GoesOn(s) && t in s.tasks && IsFinishPolled(s.tasks[t]) && s.holder == Some(t) && s.queue == []
    ensures var n := StepOf(s, Act(t));
            GoesOn(n) && n.checked == s.checked && n.error == s.error && n.finish.Some? && n.queue != [] && n.queue[0].Last?
  {
    hide Inv, VerdictOf;
    HolderWrites(s, t);
    CheckedOpen(s);
    StepInv(s, Act(t));
  }

  lemma FinishAcquires(s: State, t: nat)
    requires GoesOn(s) && t in s.tasks && IsFinishPolled(s.tasks[t]) && s.tasks[t].phase.Waiting? && s.holder.None? && s.sender
    ensures var n := StepOf(s, Acquire(t));
            && GoesOn(n) && n.checked == s.checked && n.error == s.error && n.queue == s.queue && n.holder == Some(t)
            && t in n.tasks && IsFinishPolled(n.tasks[t])
  {
    StepInv(s, Acquire(t));
    hide Inv, VerdictOf;
  }

  lemma HoldingFinishEnds(s: State, t: nat)
    requires GoesOn(s) && s.queue == [] && t in s.tasks && IsFinishPolled(s.tasks[t]) && s.holder == Some(t)
    requires s.checked || s.error.None?
    ensures EndReachable(s)
  {
    hide GoesOn, EndReachable, StepOf;
    FinishActs(s, t);
    if s.checked {
      LastReceived(StepOf(s, Act(t)));
    } else {
      Drains(StepOf(s, Act(t)));
    }
    StepReaches(s, Act(t));
  }

  lemma WaitingFinishEnds(s: State, t: nat)
    requires GoesOn(s) && s.queue == [] && s.sender && t in s.tasks && IsFinishPolled(s.tasks[t]) && s.tasks[t].phase.Waiting?
    requires s.holder.None? && (s.checked || s.error.None?)
    ensures EndReachable(s)
  {
    hide GoesOn, EndReachable, StepOf;
    FinishAcquires(s, t);
    HoldingFinishEnds(StepOf(s, Acquire(t)), t);
    StepReaches(s, Acquire(t));
  }

  /** A finish that is being polled can get past whoever holds the lock. */
  lemma PolledFinishEnds(s: State, t: nat)
    requires GoesOn(s) && s.queue == [] && s.sender && t in s.tasks && IsFinishPolled(s.tasks[t])
    requires s.checked || s.error.None?
    ensures EndReachable(s)
  {
    if s.tasks[t].phase.Writing? {
      WritingHolds(s, t);
    }
    hide GoesOn, EndReachable;
    if s.holder == Some(t) {
      HoldingFinishEnds(s, t);
    } else if s.holder.None? {
      WaitingFinishEnds(s, t);
    } else {
      var h := s.holder.value;
      LockGivenUp(s, h);
      WaitingFinishEnds(Relinquished(s, h), t);
    }
  }

  lemma WritingHolds(s: State, t: nat)
    requires Inv(s) && t in s.tasks && s.tasks[t].phase.Writing?
    ensures s.holder == Some(t)
  {
    hide TurnsOk, FinishOk, CutOk, QueueOk, FlowOk, BodyOk, HolderOk;
  }

  lemma Unused(ids: set<nat>) returns (next: nat)
    ensures forall i | i in ids :: i < next
    decreases |ids|
  {
    if ids == {} {
      next := 0;
    } else {
      var id :| id in ids;
      var above := Unused(ids - {id});
      next := if id < above then above else id + 1;
      assert forall i | i in ids :: i == id || i in ids - {id};
    }
  }

  lemma FinishStarts(s: State, t: nat)
    requires GoesOn(s) && s.sender && s.error.None? && t !in s.tasks
    ensures var n := StepOf(StepOf(s, Start(t, Finish([]))), Begin(t));
            && GoesOn(n) && n.queue == s.queue && n.sender && n.error.None? && t in n.tasks && IsFinishPolled(n.tasks[t])
  {
    hide Inv, VerdictOf;
    CheckedOpen(s);
    StepInv(s, Start(t, Finish([])));
    StepInv(StepOf(s, Start(t, Finish([]))), Begin(t));
    var a := s.(tasks := s.tasks[t := Task(Finish([]), Waiting, false)]);
    assert StepOf(s, Start(t, Finish([]))) == a;
    PollStarts(a, t);
    hide StepOf;
  }

  lemma PollStarts(s: State, t: nat)
    requires t in s.tasks && s.tasks[t].phase.Waiting? && !s.tasks[t].polling && s.error.None?
    ensures StepOf(s, Begin(t)) == s.(tasks := s.tasks[t := s.tasks[t].(polling := true)])
  {
  }

  /** Without a failure a writer that has its sender can finish the stream, once what waits has been received. */
  lemma {:induction false} FinishingEnds(s: State)
    requires GoesOn(s) && s.error.None? && s.sender
    ensures EndReachable(s)
    decreases |s.queue|
  {
    if s.queue == [] {
      hide GoesOn, EndReachable, StepOf;
      var t := Unused(s.tasks.Keys);
      FinishStarts(s, t);
      var a := StepOf(s, Start(t, Finish([])));
      PolledFinishEnds(StepOf(a, Begin(t)), t);
      StepReaches(a, Begin(t));
      StepReaches(s, Start(t, Finish([])));
    } else {
      Checks(s);
      var c := s.(checked := true);
      CheckedOpen(c);
      hide GoesOn, EndReachable, StepOf;
      DataReceived(c);
      FinishingEnds(StepOf(c, BodyReceive));
      StepReaches(c, BodyReceive);
      if !s.checked {
        StepReaches(s, BodyBegin);
      } else {
        assert s == c;
      }
    }
  }

  // ----- exactly when

  lemma MayEndReaches(s: State)
    requires Inv(s) && MayEnd(s)
    ensures EndReachable(s)
  {
    hide Inv, VerdictOf, EndReachable;
    assert GoesOn(s);
    if s.error.None? {
      if s.finish.Some? {
        Drains(s);
      } else {
        FinishingEnds(s);
      }
    } else if s.queue != [] {
      LastReceived(s);
    } else {
      var t :| t in s.tasks && s.tasks[t].work.Finish? && s.tasks[t].polling && Live(s.tasks[t].phase);
      PolledFinishEnds(s, t);
    }
  }

  lemma ReachableExactly(s: State)
    requires Inv(s)
    ensures (exists more :: EndedCleanly(RunOf(s, more).outputs)) <==> EndedCleanly(s.outputs) || MayEnd(s)
  {
    hide Inv, VerdictOf, MayEnd, RunOf, EndedCleanly;
    forall more ensures EndedCleanly(RunOf(s, more).outputs) <==> VerdictOf(RunOf(s, more).outputs) == Clean {
      RunInv(s, more);
      CleanMeans(RunOf(s, more));
    }
    CleanMeans(s);
    if VerdictOf(s.outputs) == Clean {
      ReachedNow(s);
      var more :| VerdictOf(RunOf(s, more).outputs) == Clean;
      assert EndedCleanly(RunOf(s, more).outputs);
    } else if MayEnd(s) {
      MayEndReaches(s);
      var more :| VerdictOf(RunOf(s, more).outputs) == Clean;
      assert EndedCleanly(RunOf(s, more).outputs);
    } else {
      forall more ensures VerdictOf(RunOf(s, more).outputs) != Clean {
        LostRun(s, more);
      }
    }
  }

  lemma CleanMeans(s: State)
    requires Inv(s)
    ensures EndedCleanly(s.outputs) <==> VerdictOf(s.outputs) == Clean
  {
    hide WritersOk, QueueOk, FlowOk, VerdictOf, EndedCleanly;
    VerdictMeans(s.outputs);
  }

  /** In every reachable state, some continuation ends the stream cleanly exactly when it has ended so or still may. */
  lemma CleanEndReachableExactly(steps: seq<Step>)
    ensures var s := RunOf(START, steps);
            (exists more :: EndedCleanly(RunOf(s, more).outputs)) <==> EndedCleanly(s.outputs) || MayEnd(s)
  {
    hide Inv, RunOf, MayEnd;
    StartInv();
    RunInv(START, steps);
    ReachableExactly(RunOf(START, steps));
  }

  // ----- a send that is dropped midway

  /** A call that is over has written what it has, and the lock is not its own. */
  ghost predicate CutAt(s: State, t: nat, work: Work, k: nat, turn: Turn) {
    t in s.tasks && !Live(s.tasks[t].phase) && s.tasks[t].work == work && turn.task == t && k < |s.turns| && s.turns[k] == turn
  }

  lemma BodyKeepsTurns(s: State, step: Step)
    requires OfBody(step)
    ensures StepOf(s, step).tasks == s.tasks && StepOf(s, step).turns == s.turns
  {
    if step.BodyReceive? && s.queue != [] && s.queue[0].Data? {
    }
  }

  lemma CutStep(s: State, step: Step, t: nat, work: Work, k: nat, turn: Turn)
    requires Inv(s) && CutAt(s, t, work, k, turn)
    ensures CutAt(StepOf(s, step), t, work, k, turn)
  {
    hide Inv, StepOf, FinishPolled, QueueMoves;
    if s.holder.Some? {
      HolderWrites(s, s.holder.value);
    }
    if OfBody(step) {
      BodyKeepsTurns(s, step);
    } else {
      WritersMove(s, step);
    }
  }

  lemma {:induction false} CutRun(s: State, steps: seq<Step>, t: nat, work: Work, k: nat, turn: Turn)
    requires Inv(s) && CutAt(s, t, work, k, turn)
    ensures CutAt(RunOf(s, steps), t, work, k, turn)
    decreases |steps|
  {
    hide Inv, CutAt, StepOf;
    if steps != [] {
      StepInv(s, steps[0]);
      CutStep(s, steps[0], t, work, k, turn);
      CutRun(StepOf(s, steps[0]), steps[1..], t, work, k, turn);
    }
  }

  /** A send that holds the lock, is not being polled and has bytes left, on a stream that goes on without a failure. */
  ghost predicate Midway(s: State, t: nat) {
    && t in s.tasks && s.tasks[t].work.Send? && s.tasks[t].phase.Writing? && s.tasks[t].phase.left != [] && !s.tasks[t].polling
    && s.error.None? && VerdictOf(s.outputs) == Streaming
  }

  lemma MidwayHolds(s: State, t: nat)
    requires Inv(s) && Midway(s, t)
    ensures s.holder == Some(t) && s.sender && s.finish.None?
    ensures s.turns != [] && s.turns[|s.turns| - 1].task == t && s.turns[|s.turns| - 1].bytes < s.tasks[t].work.bytes
  {
    hide FinishOk, CutOk, QueueOk, FlowOk, BodyOk, VerdictOf, TurnsOk;
    HolderSends(s, t);
    var turn := s.turns[|s.turns| - 1];
    assert HolderOk(s.turns, t, s.tasks[t]);
    assert turn.bytes + s.tasks[t].phase.left == s.tasks[t].work.bytes;
  }

  lemma DroppedStates(s: State, t: nat)
    requires Midway(s, t) && s.holder == Some(t)
    ensures StepOf(s, Abandon(t)) == Relinquished(s, t)
    ensures StepOf(Relinquished(s, t), AbandonFail(t)) ==
            s.(tasks := s.tasks[t := Task(s.tasks[t].work, Dropped, false)], holder := None, error := Some(Cancelled))
  {
    hide VerdictOf;
    var a := Relinquished(s, t);
    assert a.tasks[t := Task(s.tasks[t].work, Dropped, false)] == s.tasks[t := Task(s.tasks[t].work, Dropped, false)];
  }

  lemma OtherFinishes(tasks: Tasks, t: nat, phase: Phase)
    requires t in tasks && tasks[t].work.Send?
    ensures FinishPolled(tasks[t := Task(tasks[t].work, phase, false)]) <==> FinishPolled(tasks)
  {
    var after := tasks[t := Task(tasks[t].work, phase, false)];
    if u :| u in tasks && IsFinishPolled(tasks[u]) {
      assert u in after && IsFinishPolled(after[u]);
    }
    if u :| u in after && IsFinishPolled(after[u]) {
      assert u in tasks && IsFinishPolled(tasks[u]);
    }
  }

  /**
   A send dropped midway fails the whole upload for certain, once the drop is complete, exactly unless the body was past
   its check with nothing waiting and a finish was being polled for the lock at the same time. Between the two halves of
   the drop a clean end can still be reached while the body is there. In any case the send stays cut short.
   */
  lemma MidwayDropFails(steps: seq<Step>, t: nat)
    requires Midway(RunOf(START, steps), t)
    ensures var s := RunOf(START, steps);
            var a := StepOf(s, Abandon(t));
            var b := StepOf(a, AbandonFail(t));
            && ((exists more :: EndedCleanly(RunOf(a, more).outputs)) <==> !s.released)
            && ((exists more :: EndedCleanly(RunOf(b, more).outputs)) <==> s.checked && s.queue == [] && FinishPolled(s.tasks))
            && forall more :: !Whole(RunOf(a, more))
  {
    hide Inv, RunOf, StepOf, EndedCleanly, Midway, Whole;
    StartInv();
    RunInv(START, steps);
    var s := RunOf(START, steps);
    var a := StepOf(s, Abandon(t));
    StepInv(s, Abandon(t));
    StepInv(a, AbandonFail(t));
    MidwayReaches(s, t);
    ReachableExactly(a);
    ReachableExactly(StepOf(a, AbandonFail(t)));
    forall more ensures !Whole(RunOf(a, more)) {
      MidwayIsCut(s, t, more);
    }
  }

  lemma MidwayReaches(s: State, t: nat)
    requires Inv(s) && Midway(s, t)
    ensures var a := StepOf(s, Abandon(t));
            var b := StepOf(a, AbandonFail(t));
            && !EndedCleanly(a.outputs) && !EndedCleanly(b.outputs)
            && (MayEnd(a) <==> !s.released)
            && (MayEnd(b) <==> s.checked && s.queue == [] && FinishPolled(s.tasks))
  {
    hide Inv, StepOf, EndedCleanly, VerdictOf, FinishPolled;
    MidwayHolds(s, t);
    DroppedStates(s, t);
    CleanMeans(s);
    CheckedOpen(s);
    OtherFinishes(s.tasks, t, Dropped);
  }

  lemma MidwayIsCut(s: State, t: nat, more: seq<Step>)
    requires Inv(s) && Midway(s, t)
    ensures !Whole(RunOf(StepOf(s, Abandon(t)), more))
  {
    hide Inv, StepOf, RunOf, VerdictOf;
    MidwayHolds(s, t);
    DroppedStates(s, t);
    StepInv(s, Abandon(t));
    var a, k := StepOf(s, Abandon(t)), |s.turns| - 1;
    CutRun(a, more, t, s.tasks[t].work, k, s.turns[k]);
    assert CutAt(RunOf(a, more), t, s.tasks[t].work, k, s.turns[k]);
  }
}
