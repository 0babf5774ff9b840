/**
 The upload bridge: writers take turns under a lock and enqueue chunks into a channel of four places; the body delivers
 them in order. Futures are polled and dropped in any interleaving: a poll checks for cancellation when it begins and
 acts later, and a dropped future gives up the lock before it fails the upload.
 */
module UploadModel {
  import opened Wrappers
  import opened Streams

  const CHUNK_BYTES := 16 * 1024
  const QUEUED_CHUNKS := 4

  datatype Work = Send(bytes: seq<byte>) | Finish(trailers: Fields)

  datatype Phase = Waiting | Writing(left: seq<byte>) | Succeeded | Failed(error: Error) | Dropping | Dropped

  /** A call of `send` or `finish`; `polling` while its future is being polled. */
  datatype Task = Task(work: Work, phase: Phase, polling: bool)

  datatype Frame = Data(bytes: seq<byte>) | Last(trailers: Fields)

  /** What a poll of the body came up with, when it was ready. */
  datatype Output = Chunk(bytes: seq<byte>) | Trailers(fields: Fields) | Failure(error: Error) | End

  /** What a send has enqueued since it took the lock. */
  datatype Turn = Turn(task: nat, bytes: seq<byte>)

  datatype Finishing = Finishing(task: nat, trailers: Fields)

  /**
   `open` while the receiver accepts frames, `released` once the body is dropped, `sender` while the writer has its
   sender, `checked` between the two halves of a poll of the body. `turns` with their index by task,
   `outputs`, and the call that `finish`ed are the history.
   */
  datatype State = State(
    queue: seq<Frame>, open: bool, released: bool, sender: bool, holder: Option<nat>, tasks: map<nat, Task>,
    writerDropped: bool, error: Option<Error>, checked: bool, ended: bool,
    turns: seq<Turn>, turnOf: map<nat, nat>, outputs: seq<Output>, finish: Option<Finishing>)

  const START := State([], true, false, true, None, map[], false, None, false, false, [], map[], [], None)

  datatype Step =
    | Start(task: nat, work: Work)
    | Begin(task: nat)
    | Acquire(task: nat)
    | Act(task: nat)
    | Yield(task: nat)
    | Abandon(task: nat)
    | AbandonFail(task: nat)
    | Fail(error: Error)
    | DropWriter
    | BodyBegin
    | BodyReceive
    | DropBody

  predicate Pending(s: State, t: nat) {
    t in s.tasks && (s.tasks[t].phase.Waiting? || s.tasks[t].phase.Writing?)
  }

  /** The first failure is kept. */
  function WithFailure(s: State, error: Error): State {
    if s.error.Some? then s else s.(error := Some(error))
  }

  /** A task goes on to another phase and its poll is over; the lock it may hold is given up. */
  function Settled(s: State, t: nat, phase: Phase): State
    requires t in s.tasks
  {
    s.(tasks := s.tasks[t := s.tasks[t].(phase := phase, polling := false)],
       holder := if s.holder == Some(t) then None else s.holder)
  }

  function Polling(s: State, t: nat, polling: bool): State
    requires t in s.tasks
  {
    s.(tasks := s.tasks[t := s.tasks[t].(polling := polling)])
  }

  function Begun(s: State, t: nat): State {
    if !Pending(s, t) || s.tasks[t].polling then s
    else if s.error.Some? then Settled(s, t, Failed(s.error.value))
    else Polling(s, t, true)
  }

  function Acquired(s: State, t: nat): State {
    if t !in s.tasks || !s.tasks[t].phase.Waiting? || !s.tasks[t].polling || s.holder.Some? then s
    else if !s.sender then Settled(s, t, Failed(Closed))
    else
      match s.tasks[t].work
      case Send(bytes) =>
        s.(tasks := s.tasks[t := s.tasks[t].(phase := Writing(bytes))], holder := Some(t),
            turns := s.turns + [Turn(t, [])], turnOf := s.turnOf[t := |s.turns|])
      case Finish(_) =>
        s.(tasks := s.tasks[t := s.tasks[t].(phase := Writing([]))], holder := Some(t))
  }

  function ChunkOf(bytes: seq<byte>): seq<byte> {
    if |bytes| <= CHUNK_BYTES then bytes else bytes[..CHUNK_BYTES]
  }

  function Enqueued(s: State, t: nat, left: seq<byte>): State
    requires t in s.tasks && s.turns != []
  {
    var chunk, n := ChunkOf(left), |s.turns| - 1;
    s.(queue := s.queue + [Data(chunk)],
       tasks := s.tasks[t := s.tasks[t].(phase := Writing(left[|chunk|..]))],
       turns := s.turns[n := Turn(s.turns[n].task, s.turns[n].bytes + chunk)])
  }

  /** One chunk, the finish, or the end of the call; nothing while the queue is full. */
  function Acted(s: State, t: nat): State {
    if t !in s.tasks || !s.tasks[t].phase.Writing? || !s.tasks[t].polling || s.holder != Some(t) then s
    else
      match s.tasks[t].work
      case Send(_) =>
        var left := s.tasks[t].phase.left;
        if left == [] then Settled(s, t, Succeeded)
        else if !s.open then Settled(s, t, Failed(Closed))
        else if |s.queue| >= QUEUED_CHUNKS || s.turns == [] then s
        else Enqueued(s, t, left)
      case Finish(trailers) =>
        if !s.open then Settled(s, t, Failed(Closed))
        else if |s.queue| >= QUEUED_CHUNKS then s
        else Settled(s, t, Succeeded).(queue := s.queue + [Last(trailers)], sender := false, finish := Some(Finishing(t, trailers)))
  }

  function Yielded(s: State, t: nat): State {
    if t in s.tasks then Polling(s, t, false) else s
  }

  /** A future is dropped while pending: first the lock goes, then the upload fails. */
  function Abandoned(s: State, t: nat): State {
    if !Pending(s, t) || s.tasks[t].polling then s else Settled(s, t, Dropping)
  }

  function AbandonFailed(s: State, t: nat): State {
    if t !in s.tasks || !s.tasks[t].phase.Dropping? then s else WithFailure(Settled(s, t, Dropped), Cancelled)
  }

  predicate Idle(s: State) {
    forall t | t in s.tasks :: !Pending(s, t) && !s.tasks[t].phase.Dropping?
  }

  /** The writer goes away once no call borrows it. */
  function WriterDropped(s: State): State {
    if Idle(s) then s.(writerDropped := true, sender := false) else s
  }

  function BodyBegun(s: State): State {
    if s.released || s.checked then s
    else if s.ended then s.(outputs := s.outputs + [End])
    else if s.error.Some? then s.(ended := true, open := false, outputs := s.outputs + [Failure(s.error.value)])
    else s.(checked := true)
  }

  function BodyReceived(s: State): State {
    if s.released || !s.checked then s
    else if s.queue != [] then
      var rest := s.(checked := false, queue := s.queue[1..]);
      match s.queue[0]
      case Data(bytes) => rest.(outputs := s.outputs + [Chunk(bytes)])
      case Last(trailers) =>
        rest.(ended := true, open := false, outputs := s.outputs + [if trailers == [] then End else Trailers(trailers)])
    else if s.sender then s.(checked := false)
    else s.(checked := false, ended := true, outputs := s.outputs + [Failure(Producer)])
  }

  function BodyDropped(s: State): State {
    if s.checked then s else s.(released := true, open := false, queue := [])
  }

  function StepOf(s: State, step: Step): State {
    match step
    case Start(t, work) => if t in s.tasks || s.writerDropped then s else s.(tasks := s.tasks[t := Task(work, Waiting, false)])
    case Begin(t) => Begun(s, t)
    case Acquire(t) => Acquired(s, t)
    case Act(t) => Acted(s, t)
    case Yield(t) => Yielded(s, t)
    case Abandon(t) => Abandoned(s, t)
    case AbandonFail(t) => AbandonFailed(s, t)
    case Fail(error) => WithFailure(s, error)
    case DropWriter => WriterDropped(s)
    case BodyBegin => BodyBegun(s)
    case BodyReceive => BodyReceived(s)
    case DropBody => BodyDropped(s)
  }

  function RunOf(s: State, steps: seq<Step>): State
    decreases |steps|
  {
    if steps == [] then s else RunOf(StepOf(s, steps[0]), steps[1..])
  }

  // ----- what was enqueued, what was delivered, and how the body ended

  function FrameBytes(frame: Frame): seq<byte> {
    if frame.Data? then frame.bytes else []
  }

  function Waits(queue: seq<Frame>): seq<byte> {
    if queue == [] then [] else FrameBytes(queue[0]) + Waits(queue[1..])
  }

  function Delivered(outputs: seq<Output>): seq<byte> {
    if outputs == [] then []
    else
      var n := |outputs| - 1;
      Delivered(outputs[..n]) + if outputs[n].Chunk? then outputs[n].bytes else []
  }

  /** Bytes in the order in which senders held the lock. */
  function Written(turns: seq<Turn>): seq<byte> {
    if turns == [] then [] else Written(turns[..|turns| - 1]) + turns[|turns| - 1].bytes
  }

  datatype Verdict = Streaming | Clean | Errored | Broken

  /** Data, then one clean end or one error, then only ends. */
  function VerdictOf(outputs: seq<Output>): Verdict {
    if outputs == [] then Streaming
    else
      var n := |outputs| - 1;
      match VerdictOf(outputs[..n])
      case Streaming => if outputs[n].Chunk? then Streaming else if outputs[n].Failure? then Errored else Clean
      case Clean => if outputs[n] == End then Clean else Broken
      case Errored => if outputs[n] == End then Errored else Broken
      case Broken => Broken
  }

  lemma WaitsAppend(queue: seq<Frame>, frame: Frame)
    ensures Waits(queue + [frame]) == Waits(queue) + FrameBytes(frame)
  {
    if queue != [] {
      assert (queue + [frame])[1..] == queue[1..] + [frame];
      WaitsAppend(queue[1..], frame);
    }
  }

  lemma OutputAppend(outputs: seq<Output>, output: Output)
    ensures Delivered(outputs + [output]) == Delivered(outputs) + if output.Chunk? then output.bytes else []
    ensures VerdictOf(outputs + [output]) ==
            match VerdictOf(outputs)
            case Streaming => if output.Chunk? then Streaming else if output.Failure? then Errored else Clean
            case Clean => if output == End then Clean else Broken
            case Errored => if output == End then Errored else Broken
            case Broken => Broken
  {
    assert (outputs + [output])[..|outputs|] == outputs;
  }

  lemma TurnAppend(turns: seq<Turn>, turn: Turn)
    ensures Written(turns + [turn]) == Written(turns) + turn.bytes
  {
    assert (turns + [turn])[..|turns|] == turns;
  }

  lemma TurnGrows(turns: seq<Turn>, chunk: seq<byte>)
    requires turns != []
    ensures var n := |turns| - 1;
            Written(turns[n := Turn(turns[n].task, turns[n].bytes + chunk)]) == Written(turns) + chunk
  {
    var n := |turns| - 1;
    assert turns[n := Turn(turns[n].task, turns[n].bytes + chunk)][..n] == turns[..n];
  }

  /** The fields of a trailers frame, if one was delivered. */
  function DeliveredFields(outputs: seq<Output>): Fields {
    if outputs == [] then []
    else
      var n := |outputs| - 1;
      if outputs[n].Trailers? then outputs[n].fields else DeliveredFields(outputs[..n])
  }
}

/** What every run of the upload bridge keeps. */
module UploadSafety {
  import opened Wrappers
  import opened Streams
  import opened UploadModel

  type Tasks = map<nat, Task>

  predicate FrameOk(frame: Frame) {
    frame.Data? ==> 1 <= |frame.bytes| <= CHUNK_BYTES
  }

  /** At most four chunks of at most 16384 bytes wait, and the finish comes after all of them. */
  ghost predicate QueueOk(queue: seq<Frame>, finish: Option<Finishing>) {
    && |queue| <= QUEUED_CHUNKS
    && (forall i | 0 <= i < |queue| :: FrameOk(queue[i]))
    && (forall i | 0 <= i < |queue| - 1 :: queue[i].Data?)
    && (queue != [] && queue[|queue| - 1].Last? ==> finish.Some? && queue[|queue| - 1] == Last(finish.value.trailers))
  }

  /** Only the holder of the lock writes, and what it wrote and what is left make up its bytes. */
  ghost predicate LockOk(tasks: Tasks, holder: Option<nat>, sender: bool, turns: seq<Turn>) {
    && (forall t | t in tasks :: tasks[t].phase.Writing? ==> holder == Some(t))
    && (holder.Some? ==>
          && sender && holder.value in tasks && tasks[holder.value].phase.Writing?
          && (tasks[holder.value].work.Send? ==> HolderOk(turns, holder.value, tasks[holder.value])))
  }

  ghost predicate HolderOk(turns: seq<Turn>, t: nat, task: Task)
    requires task.work.Send? && task.phase.Writing?
  {
    turns != [] && turns[|turns| - 1].task == t && turns[|turns| - 1].bytes + task.phase.left == task.work.bytes
  }

  ghost predicate TurnOk(tasks: Tasks, turn: Turn) {
    && turn.task in tasks && tasks[turn.task].work.Send? && !tasks[turn.task].phase.Waiting?
    && turn.bytes <= tasks[turn.task].work.bytes
    && (tasks[turn.task].phase.Succeeded? ==> turn.bytes == tasks[turn.task].work.bytes)
  }

  predicate HadTurn(task: Task) {
    task.work.Send? && (task.phase.Succeeded? || task.phase.Writing?)
  }

  /** Every send takes one turn, and a successful one has written all its bytes in it. */
  ghost predicate TurnsOk(tasks: Tasks, turns: seq<Turn>, turnOf: map<nat, nat>) {
    && (forall i | 0 <= i < |turns| :: TurnOk(tasks, turns[i]))
    && (forall i | 0 <= i < |turns| :: turns[i].task in turnOf && turnOf[turns[i].task] == i)
    && (forall t | t in turnOf :: turnOf[t] < |turns| && turns[turnOf[t]].task == t)
    && (forall t | t in tasks && HadTurn(tasks[t]) :: t in turnOf)
  }

  ghost predicate FinishOk(tasks: Tasks, sender: bool, writerDropped: bool, finish: Option<Finishing>) {
    && (finish.Some? ==>
          && !sender && finish.value.task in tasks
          && tasks[finish.value.task].work == Finish(finish.value.trailers) && tasks[finish.value.task].phase.Succeeded?)
    && (forall t | t in tasks && tasks[t].work.Finish? && tasks[t].phase.Succeeded? :: finish.Some? && finish.value.task == t)
    && (writerDropped ==> !sender && forall t | t in tasks :: Over(tasks[t].phase))
    && (!sender ==> finish.Some? || writerDropped)
  }

  predicate Over(phase: Phase) {
    !phase.Waiting? && !phase.Writing? && !phase.Dropping?
  }

  predicate Uncut(phase: Phase) {
    phase.Writing? || phase.Succeeded? || phase.Dropping?
  }

  /** A turn is cut short only by a failure, recorded or about to be, or because the receiver closed without a finish. */
  ghost predicate CutOk(tasks: Tasks, turns: seq<Turn>, excused: bool) {
    excused || forall i | 0 <= i < |turns| && turns[i].task in tasks :: Uncut(tasks[turns[i].task].phase)
  }

  predicate Excused(s: State) {
    s.error.Some? || (s.finish.None? && !s.open)
  }

  ghost predicate FlowOk(queue: seq<Frame>, released: bool, turns: seq<Turn>, outputs: seq<Output>) {
    if released then Delivered(outputs) <= Written(turns) else Written(turns) == Delivered(outputs) + Waits(queue)
  }

  ghost predicate BodyOk(s: State) {
    && VerdictOf(s.outputs) != Broken && (s.ended <==> VerdictOf(s.outputs) != Streaming)
    && (s.released ==> !s.open && s.queue == [])
    && (s.ended && s.open ==> !s.sender)
    && (!s.open ==> s.ended || s.released)
    && (s.checked ==> !s.ended && !s.released)
    && (!s.ended && s.finish.Some? && !s.released ==> s.queue != [] && s.queue[|s.queue| - 1].Last?)
    && (!s.ended ==> DeliveredFields(s.outputs) == [])
    && (VerdictOf(s.outputs) == Clean ==>
          && s.finish.Some? && DeliveredFields(s.outputs) == s.finish.value.trailers && s.queue == []
          && Delivered(s.outputs) == Written(s.turns))
  }

  ghost predicate WritersOk(s: State) {
    && LockOk(s.tasks, s.holder, s.sender, s.turns) && TurnsOk(s.tasks, s.turns, s.turnOf)
    && FinishOk(s.tasks, s.sender, s.writerDropped, s.finish) && CutOk(s.tasks, s.turns, Excused(s))
  }

  ghost predicate Inv(s: State) {
    WritersOk(s) && QueueOk(s.queue, s.finish) && FlowOk(s.queue, s.released, s.turns, s.outputs) && BodyOk(s)
  }

  lemma StartInv()
    ensures Inv(START)
  {
  }

  // ----- steps that change one task only

  predicate MayBecome(tasks: Tasks, t: nat, task: Task, excused: bool, writerDropped: bool)
    requires t in tasks
  {
    && task.work == tasks[t].work
    && (task.phase == tasks[t].phase
        || (task.phase == Failed(Closed) && tasks[t].phase.Waiting?)
        || ((task.phase.Failed? || task.phase.Dropped?) && excused && !tasks[t].phase.Succeeded?)
        || (task.phase.Failed? && task.work.Finish? && !tasks[t].phase.Succeeded?)
        || (task.phase.Dropping? && !writerDropped && !tasks[t].phase.Succeeded?)
        || (task.phase.Succeeded? && task.work.Send? && tasks[t].phase == Writing([])))
  }

  function Released(holder: Option<nat>, t: nat, task: Task): Option<nat> {
    if holder == Some(t) && !task.phase.Writing? then None else holder
  }

  lemma TaskLock(tasks: Tasks, holder: Option<nat>, sender: bool, turns: seq<Turn>, t: nat, task: Task)
    requires LockOk(tasks, holder, sender, turns) && t in tasks && task.work == tasks[t].work
    requires task.phase.Writing? ==> task.phase == tasks[t].phase
    ensures LockOk(tasks[t := task], Released(holder, t, task), sender, turns)
  {
  }

  lemma LastTurn(tasks: Tasks, holder: Option<nat>, sender: bool, turns: seq<Turn>, t: nat)
    requires LockOk(tasks, holder, sender, turns) && t in tasks && tasks[t].work.Send? && tasks[t].phase == Writing([])
    ensures turns != [] && turns[|turns| - 1].task == t && turns[|turns| - 1].bytes == tasks[t].work.bytes
  {
  }

  lemma TaskTurns(
      tasks: Tasks, holder: Option<nat>, sender: bool, turns: seq<Turn>, turnOf: map<nat, nat>, t: nat, task: Task)
    requires LockOk(tasks, holder, sender, turns) && TurnsOk(tasks, turns, turnOf)
    requires t in tasks && task.work == tasks[t].work && (task.phase.Waiting? ==> tasks[t].phase.Waiting?)
    requires task.phase == tasks[t].phase || (!task.phase.Writing? && (task.phase.Succeeded? ==> task.work.Send? ==> tasks[t].phase == Writing([])))
    ensures TurnsOk(tasks[t := task], turns, turnOf)
  {
    if task.phase.Succeeded? && task.work.Send? && tasks[t].phase == Writing([]) {
      LastTurn(tasks, holder, sender, turns, t);
    }
    hide HolderOk;
  }

  lemma TaskFinish(tasks: Tasks, sender: bool, writerDropped: bool, finish: Option<Finishing>, t: nat, task: Task)
    requires FinishOk(tasks, sender, writerDropped, finish) && t in tasks && task.work == tasks[t].work
    requires task.phase == tasks[t].phase || (!tasks[t].phase.Succeeded? && !(task.work.Finish? && task.phase.Succeeded?))
    requires writerDropped ==> Over(task.phase)
    ensures FinishOk(tasks[t := task], sender, writerDropped, finish)
  {
  }

  lemma TaskCut(tasks: Tasks, turns: seq<Turn>, turnOf: map<nat, nat>, excused: bool, t: nat, task: Task)
    requires CutOk(tasks, turns, excused) && TurnsOk(tasks, turns, turnOf) && t in tasks
    requires task.phase == tasks[t].phase || excused || Uncut(task.phase) || tasks[t].phase.Waiting? || tasks[t].work.Finish?
    ensures CutOk(tasks[t := task], turns, excused)
  {
  }

  lemma OverWhenDropped(tasks: Tasks, sender: bool, writerDropped: bool, finish: Option<Finishing>, t: nat)
    requires FinishOk(tasks, sender, writerDropped, finish) && t in tasks
    ensures writerDropped ==> Over(tasks[t].phase)
  {
  }

  /** Giving a call another phase: it may end in any way that its turn allows. */
  lemma TaskInv(s: State, t: nat, task: Task)
    requires Inv(s) && t in s.tasks && MayBecome(s.tasks, t, task, Excused(s), s.writerDropped)
    ensures Inv(s.(tasks := s.tasks[t := task], holder := Released(s.holder, t, task)))
  {
    hide LockOk, TurnsOk, FinishOk, CutOk, QueueOk, FlowOk, Delivered, Written, VerdictOf, DeliveredFields;
    OverWhenDropped(s.tasks, s.sender, s.writerDropped, s.finish, t);
    TaskLock(s.tasks, s.holder, s.sender, s.turns, t, task);
    TaskTurns(s.tasks, s.holder, s.sender, s.turns, s.turnOf, t, task);
    TaskFinish(s.tasks, s.sender, s.writerDropped, s.finish, t, task);
    TaskCut(s.tasks, s.turns, s.turnOf, Excused(s), t, task);
  }

  lemma SettledInv(s: State, t: nat, phase: Phase)
    requires Inv(s) && t in s.tasks && !phase.Writing?
    requires MayBecome(s.tasks, t, s.tasks[t].(phase := phase, polling := false), Excused(s), s.writerDropped)
    ensures Inv(Settled(s, t, phase))
  {
    hide Inv, MayBecome;
    TaskInv(s, t, s.tasks[t].(phase := phase, polling := false));
  }

  lemma PollingInv(s: State, t: nat, polling: bool)
    requires Inv(s) && t in s.tasks
    ensures Inv(Polling(s, t, polling))
  {
    var task := s.tasks[t].(polling := polling);
    assert Released(s.holder, t, task) == s.holder by {
      hide HolderOk, TurnsOk, FinishOk, CutOk, QueueOk, FlowOk, BodyOk;
    }
    hide Inv;
    TaskInv(s, t, task);
  }

  lemma FailureInv(s: State, error: Error)
    requires Inv(s)
    ensures Inv(WithFailure(s, error))
  {
    hide LockOk, TurnsOk, FinishOk, QueueOk, FlowOk, Delivered, Written, VerdictOf, DeliveredFields;
  }

  lemma StartedInv(s: State, t: nat, work: Work)
    requires Inv(s) && t !in s.tasks && !s.writerDropped
    ensures Inv(s.(tasks := s.tasks[t := Task(work, Waiting, false)]))
  {
    hide QueueOk, FlowOk, LockOk, TurnsOk, FinishOk, CutOk, Delivered, Written, VerdictOf, DeliveredFields;
    var task := Task(work, Waiting, false);
    NewTask(s.tasks, s.holder, s.sender, s.turns, s.turnOf, t, task);
    NewTaskEnds(s, t, task);
  }

  lemma NewTaskEnds(s: State, t: nat, task: Task)
    requires FinishOk(s.tasks, s.sender, s.writerDropped, s.finish) && TurnsOk(s.tasks, s.turns, s.turnOf)
    requires CutOk(s.tasks, s.turns, Excused(s)) && t !in s.tasks && !s.writerDropped && task.phase.Waiting?
    ensures FinishOk(s.tasks[t := task], s.sender, s.writerDropped, s.finish)
    ensures CutOk(s.tasks[t := task], s.turns, Excused(s))
  {
  }

  lemma NewTask(
      tasks: Tasks, holder: Option<nat>, sender: bool, turns: seq<Turn>, turnOf: map<nat, nat>, t: nat, task: Task)
    requires LockOk(tasks, holder, sender, turns) && TurnsOk(tasks, turns, turnOf) && t !in tasks && task.phase.Waiting?
    ensures LockOk(tasks[t := task], holder, sender, turns) && TurnsOk(tasks[t := task], turns, turnOf)
  {
    hide HolderOk;
  }

  lemma BegunInv(s: State, t: nat)
    requires Inv(s)
    ensures Inv(Begun(s, t))
  {
    hide Inv;
    if Pending(s, t) && !s.tasks[t].polling {
      if s.error.Some? {
        SettledInv(s, t, Failed(s.error.value));
      } else {
        PollingInv(s, t, true);
      }
    }
  }

  lemma NotDropped(s: State, t: nat)
    requires Inv(s) && t in s.tasks && !Over(s.tasks[t].phase)
    ensures !s.writerDropped
  {
    hide LockOk, TurnsOk, CutOk, QueueOk, FlowOk, BodyOk;
  }

  lemma AbandonedInv(s: State, t: nat)
    requires Inv(s)
    ensures Inv(Abandoned(s, t))
  {
    hide Inv;
    if Pending(s, t) && !s.tasks[t].polling {
      NotDropped(s, t);
      SettledInv(s, t, Dropping);
    }
  }

  lemma AbandonFailedInv(s: State, t: nat)
    requires Inv(s)
    ensures Inv(AbandonFailed(s, t))
  {
    hide Inv, Settled, WithFailure, MayBecome;
    if t in s.tasks && s.tasks[t].phase.Dropping? {
      var failed := WithFailure(s, Cancelled);
      FailureInv(s, Cancelled);
      FailureCommutes(s, t);
      FailureExcuses(s);
      DroppedMay(failed.tasks, t, failed.writerDropped);
      SettledInv(failed, t, Dropped);
    }
  }

  lemma FailureExcuses(s: State)
    ensures var failed := WithFailure(s, Cancelled); Excused(failed) && failed.tasks == s.tasks
  {
  }

  lemma DroppedMay(tasks: Tasks, t: nat, writerDropped: bool)
    requires t in tasks && tasks[t].phase.Dropping?
    ensures MayBecome(tasks, t, tasks[t].(phase := Dropped, polling := false), true, writerDropped)
  {
  }

  lemma FailureCommutes(s: State, t: nat)
    requires t in s.tasks
    ensures WithFailure(Settled(s, t, Dropped), Cancelled) == Settled(WithFailure(s, Cancelled), t, Dropped)
  {
  }

  // ----- taking the lock and writing

  lemma TakenTurns(tasks: Tasks, turns: seq<Turn>, turnOf: map<nat, nat>, t: nat, task: Task)
    requires TurnsOk(tasks, turns, turnOf) && t in tasks && tasks[t].phase.Waiting? && tasks[t].work.Send?
    requires task.work == tasks[t].work && task.phase == Writing(task.work.bytes)
    ensures TurnsOk(tasks[t := task], turns + [Turn(t, [])], turnOf[t := |turns|])
  {
    var after := turns + [Turn(t, [])];
    assert forall i | 0 <= i < |turns| :: after[i] == turns[i] && turns[i].task != t;
  }

  lemma TakenLock(tasks: Tasks, sender: bool, turns: seq<Turn>, t: nat, task: Task)
    requires LockOk(tasks, None, sender, turns) && sender && t in tasks
    requires task.phase == if task.work.Send? then Writing(task.work.bytes) else Writing([])
    ensures LockOk(tasks[t := task], Some(t), sender, if task.work.Send? then turns + [Turn(t, [])] else turns)
  {
  }

  lemma TakenCut(tasks: Tasks, turns: seq<Turn>, turnOf: map<nat, nat>, excused: bool, t: nat, task: Task)
    requires CutOk(tasks, turns, excused) && TurnsOk(tasks, turns, turnOf) && t in tasks && task.phase.Writing?
    ensures CutOk(tasks[t := task], turns + [Turn(t, [])], excused) && CutOk(tasks[t := task], turns, excused)
  {
  }

  lemma AcquiredInv(s: State, t: nat)
    requires Inv(s)
    ensures Inv(Acquired(s, t))
  {
    if t in s.tasks && s.tasks[t].phase.Waiting? && s.tasks[t].polling && s.holder.None? {
      hide Inv;
      if !s.sender {
        SettledInv(s, t, Failed(Closed));
      } else if s.tasks[t].work.Send? {
        SendTurnInv(s, t);
      } else {
        FinishTurnInv(s, t);
      }
    }
  }

  lemma SendTurnInv(s: State, t: nat)
    requires Inv(s) && t in s.tasks && s.tasks[t].phase.Waiting? && s.tasks[t].polling && s.holder.None? && s.sender
    requires s.tasks[t].work.Send?
    ensures Inv(Acquired(s, t))
  {
    hide LockOk, TurnsOk, FinishOk, CutOk, QueueOk, Delivered, Written, VerdictOf, DeliveredFields, Waits;
    var task := s.tasks[t].(phase := Writing(s.tasks[t].work.bytes));
    TakenTurns(s.tasks, s.turns, s.turnOf, t, task);
    TakenLock(s.tasks, s.sender, s.turns, t, task);
    TakenCut(s.tasks, s.turns, s.turnOf, Excused(s), t, task);
    NotDroppedSender(s);
    TaskFinish(s.tasks, s.sender, s.writerDropped, s.finish, t, task);
    TurnAppend(s.turns, Turn(t, []));
  }

  lemma NotDroppedSender(s: State)
    requires Inv(s) && s.sender
    ensures !s.writerDropped && s.finish.None?
  {
    hide LockOk, TurnsOk, CutOk, QueueOk, FlowOk, BodyOk;
  }

  lemma FinishTurnInv(s: State, t: nat)
    requires Inv(s) && t in s.tasks && s.tasks[t].phase.Waiting? && s.tasks[t].polling && s.holder.None? && s.sender
    requires s.tasks[t].work.Finish?
    ensures Inv(Acquired(s, t))
  {
    hide LockOk, TurnsOk, FinishOk, CutOk, QueueOk, FlowOk, BodyOk;
    var task := s.tasks[t].(phase := Writing([]));
    TaskTurnsOther(s.tasks, s.turns, s.turnOf, t, task);
    TakenLock(s.tasks, s.sender, s.turns, t, task);
    TakenCut(s.tasks, s.turns, s.turnOf, Excused(s), t, task);
    NotDroppedSender(s);
    TaskFinish(s.tasks, s.sender, s.writerDropped, s.finish, t, task);
    BodySame(s, Acquired(s, t));
  }

  lemma BodySame(s: State, n: State)
    requires BodyOk(s) && n == s.(tasks := n.tasks, holder := n.holder)
    ensures BodyOk(n)
  {
    hide Delivered, Written, VerdictOf, DeliveredFields;
  }

  /** A call that is not a send takes no turn. */
  lemma TaskTurnsOther(tasks: Tasks, turns: seq<Turn>, turnOf: map<nat, nat>, t: nat, task: Task)
    requires TurnsOk(tasks, turns, turnOf) && t in tasks && task.work == tasks[t].work && task.work.Finish?
    ensures TurnsOk(tasks[t := task], turns, turnOf)
  {
  }

  /** Whoever holds the lock found the writer's sender, and nobody has finished. */
  lemma HolderSends(s: State, t: nat)
    requires Inv(s) && s.holder == Some(t)
    ensures s.sender && s.finish.None? && !s.writerDropped
  {
    hide TurnsOk, CutOk, QueueOk, FlowOk, BodyOk, HolderOk;
  }

  lemma EnqueuedInv(s: State, t: nat)
    requires Inv(s) && s.holder == Some(t) && t in s.tasks && s.tasks[t].work.Send? && s.tasks[t].phase.Writing?
    requires s.tasks[t].phase.left != [] && s.open && |s.queue| < QUEUED_CHUNKS && s.turns != []
    ensures Inv(Enqueued(s, t, s.tasks[t].phase.left))
  {
    hide LockOk, TurnsOk, FinishOk, CutOk, QueueOk, Delivered, Written, VerdictOf, DeliveredFields, Waits;
    HolderSends(s, t);
    var left, chunk, k := s.tasks[t].phase.left, ChunkOf(s.tasks[t].phase.left), |s.turns| - 1;
    var task := s.tasks[t].(phase := Writing(left[|chunk|..]));
    var turns := s.turns[k := Turn(s.turns[k].task, s.turns[k].bytes + chunk)];
    WritingLock(s.tasks, s.holder, s.sender, s.turns, t, chunk);
    WritingTurns(s.tasks, s.holder, s.sender, s.turns, s.turnOf, t, chunk);
    WritingCut(s.tasks, s.turns, turns, Excused(s), t, task);
    NotDroppedSender(s);
    TaskFinish(s.tasks, s.sender, s.writerDropped, s.finish, t, task);
    TurnGrows(s.turns, chunk);
    WaitsAppend(s.queue, Data(chunk));
    QueueGrows(s.queue, s.finish, Data(chunk));
  }

  lemma QueueGrows(queue: seq<Frame>, finish: Option<Finishing>, frame: Frame)
    requires QueueOk(queue, finish) && finish.None? && |queue| < QUEUED_CHUNKS && FrameOk(frame)
    ensures frame.Data? ==> QueueOk(queue + [frame], finish)
    ensures frame.Last? ==> forall t :: QueueOk(queue + [frame], Some(Finishing(t, frame.trailers)))
  {
  }

  lemma WritingLock(tasks: Tasks, holder: Option<nat>, sender: bool, turns: seq<Turn>, t: nat, chunk: seq<byte>)
    requires LockOk(tasks, holder, sender, turns) && holder == Some(t) && tasks[t].work.Send? && turns != []
    requires chunk <= tasks[t].phase.left
    ensures var k := |turns| - 1;
            LockOk(tasks[t := tasks[t].(phase := Writing(tasks[t].phase.left[|chunk|..]))], holder, sender,
                   turns[k := Turn(turns[k].task, turns[k].bytes + chunk)])
  {
    var k, left := |turns| - 1, tasks[t].phase.left;
    assert left == chunk + left[|chunk|..];
    assert turns[k].bytes + left == (turns[k].bytes + chunk) + left[|chunk|..];
  }

  lemma WritingTurns(
      tasks: Tasks, holder: Option<nat>, sender: bool, turns: seq<Turn>, turnOf: map<nat, nat>, t: nat, chunk: seq<byte>)
    requires LockOk(tasks, holder, sender, turns) && TurnsOk(tasks, turns, turnOf)
    requires holder == Some(t) && tasks[t].work.Send? && turns != [] && chunk <= tasks[t].phase.left
    ensures var k := |turns| - 1;
            TurnsOk(tasks[t := tasks[t].(phase := Writing(tasks[t].phase.left[|chunk|..]))],
                    turns[k := Turn(turns[k].task, turns[k].bytes + chunk)], turnOf)
  {
    var k := |turns| - 1;
    var after := turns[k := Turn(turns[k].task, turns[k].bytes + chunk)];
    assert turns[k].bytes + chunk <= tasks[t].work.bytes;
    assert forall i | 0 <= i < k :: after[i] == turns[i] && turns[i].task != t;
  }

  lemma WritingCut(tasks: Tasks, turns: seq<Turn>, after: seq<Turn>, excused: bool, t: nat, task: Task)
    requires CutOk(tasks, turns, excused) && t in tasks && task.phase.Writing?
    requires |turns| == |after| && forall i | 0 <= i < |turns| :: after[i].task == turns[i].task
    ensures CutOk(tasks[t := task], after, excused)
  {
  }

  lemma NoHolderNoSender(tasks: Tasks, sender: bool, turns: seq<Turn>)
    requires LockOk(tasks, None, sender, turns)
    ensures LockOk(tasks, None, false, turns)
  {
  }

  lemma FinishRecorded(tasks: Tasks, sender: bool, writerDropped: bool, t: nat, task: Task)
    requires FinishOk(tasks, sender, writerDropped, None) && !writerDropped && t in tasks
    requires task.work.Finish? && task.phase.Succeeded?
    ensures FinishOk(tasks[t := task], false, writerDropped, Some(Finishing(t, task.work.trailers)))
  {
  }

  lemma FinishedInv(s: State, t: nat)
    requires Inv(s) && s.holder == Some(t) && t in s.tasks && s.tasks[t].work.Finish? && s.tasks[t].polling
    requires s.tasks[t].phase.Writing? && s.open && |s.queue| < QUEUED_CHUNKS
    ensures Inv(Acted(s, t))
  {
    hide LockOk, TurnsOk, FinishOk, CutOk, QueueOk, Delivered, Written, VerdictOf, DeliveredFields, Waits;
    HolderSends(s, t);
    var trailers, n := s.tasks[t].work.trailers, Acted(s, t);
    var task := s.tasks[t].(phase := Succeeded, polling := false);
    TaskLock(s.tasks, s.holder, s.sender, s.turns, t, task);
    NoHolderNoSender(s.tasks[t := task], s.sender, s.turns);
    TaskTurnsOther(s.tasks, s.turns, s.turnOf, t, task);
    assert n.tasks == s.tasks[t := task];
    FinishRecorded(s.tasks, s.sender, s.writerDropped, t, task);
    TaskCut(s.tasks, s.turns, s.turnOf, Excused(s), t, task);
    WaitsAppend(s.queue, Last(trailers));
    QueueGrows(s.queue, s.finish, Last(trailers));
  }

  lemma ActedInv(s: State, t: nat)
    requires Inv(s)
    ensures Inv(Acted(s, t))
  {
    if t in s.tasks && s.tasks[t].phase.Writing? && s.tasks[t].polling && s.holder == Some(t) {
      var sends, left := s.tasks[t].work.Send?, s.tasks[t].phase.left;
      assert sends || s.finish.None? by {
        hide TurnsOk, CutOk, QueueOk, FlowOk, BodyOk, HolderOk;
      }
      assert s.finish.None? by {
        hide TurnsOk, CutOk, QueueOk, FlowOk, BodyOk, HolderOk;
      }
      hide Inv;
      if sends && left == [] {
        SettledInv(s, t, Succeeded);
      } else if !s.open {
        SettledInv(s, t, Failed(Closed));
      } else if |s.queue| < QUEUED_CHUNKS {
        if !sends {
          FinishedInv(s, t);
        } else if s.turns != [] {
          EnqueuedInv(s, t);
        }
      }
    }
  }

  lemma WriterDroppedInv(s: State)
    requires Inv(s)
    ensures Inv(WriterDropped(s))
  {
    hide TurnsOk, CutOk, QueueOk, FlowOk, HolderOk, Delivered, Written, VerdictOf, DeliveredFields;
  }

  // ----- the body

  lemma FieldsAppend(outputs: seq<Output>, output: Output)
    ensures DeliveredFields(outputs + [output]) == if output.Trailers? then output.fields else DeliveredFields(outputs)
  {
    assert (outputs + [output])[..|outputs|] == outputs;
  }

  lemma BodyBegunInv(s: State)
    requires Inv(s)
    ensures Inv(BodyBegun(s))
  {
    hide LockOk, TurnsOk, FinishOk, CutOk, QueueOk, Delivered, Written, VerdictOf, DeliveredFields, Waits;
    if !s.released && !s.checked {
      var output := if s.ended then End else Failure(if s.error.Some? then s.error.value else Cancelled);
      OutputAppend(s.outputs, output);
      FieldsAppend(s.outputs, output);
      CutExcused(s.tasks, s.turns);
    }
  }

  lemma CutExcused(tasks: Tasks, turns: seq<Turn>)
    ensures CutOk(tasks, turns, true)
  {
  }

  lemma QueueShrinks(queue: seq<Frame>, finish: Option<Finishing>)
    requires QueueOk(queue, finish) && queue != []
    ensures QueueOk(queue[1..], finish) && Waits(queue) == FrameBytes(queue[0]) + Waits(queue[1..])
    ensures |queue| > 1 ==> queue[0].Data? && queue[1..][|queue| - 2] == queue[|queue| - 1]
    ensures queue[0].Last? ==> |queue| == 1 && finish.Some? && queue[0] == Last(finish.value.trailers)
  {
  }

  lemma ChunkInv(s: State)
    requires Inv(s) && !s.released && s.checked && s.queue != [] && s.queue[0].Data?
    ensures Inv(BodyReceived(s))
  {
    hide LockOk, TurnsOk, FinishOk, CutOk, QueueOk, Delivered, Written, VerdictOf, DeliveredFields, Waits;
    QueueShrinks(s.queue, s.finish);
    OutputAppend(s.outputs, Chunk(s.queue[0].bytes));
    FieldsAppend(s.outputs, Chunk(s.queue[0].bytes));
  }

  lemma NothingWaits()
    ensures Waits([]) == []
  {
  }

  lemma LastInv(s: State)
    requires Inv(s) && !s.released && s.checked && s.queue != [] && s.queue[0].Last?
    ensures Inv(BodyReceived(s))
  {
    hide LockOk, TurnsOk, FinishOk, CutOk, QueueOk, Delivered, Written, VerdictOf, DeliveredFields, Waits;
    NothingWaits();
    var trailers := s.queue[0].trailers;
    var output := if trailers == [] then End else Trailers(trailers);
    QueueShrinks(s.queue, s.finish);
    assert s.queue[1..] == [];
    OutputAppend(s.outputs, output);
    FieldsAppend(s.outputs, output);
  }

  lemma NoSenderInv(s: State)
    requires Inv(s) && !s.released && s.checked && s.queue == [] && !s.sender
    ensures Inv(BodyReceived(s))
  {
    hide LockOk, TurnsOk, FinishOk, CutOk, QueueOk, Delivered, Written, VerdictOf, DeliveredFields, Waits;
    OutputAppend(s.outputs, Failure(Producer));
    FieldsAppend(s.outputs, Failure(Producer));
  }

  lemma BodyReceivedInv(s: State)
    requires Inv(s)
    ensures Inv(BodyReceived(s))
  {
    if !s.released && s.checked {
      if s.queue != [] {
        hide Inv, BodyReceived;
        if s.queue[0].Data? {
          ChunkInv(s);
        } else {
          LastInv(s);
        }
      } else if s.sender {
        hide LockOk, TurnsOk, FinishOk, CutOk, QueueOk, Delivered, Written, VerdictOf, DeliveredFields, Waits;
      } else {
        hide Inv, BodyReceived;
        NoSenderInv(s);
      }
    }
  }

  lemma BodyDroppedInv(s: State)
    requires Inv(s)
    ensures Inv(BodyDropped(s))
  {
    hide LockOk, TurnsOk, FinishOk, Delivered, Written, VerdictOf, DeliveredFields, Waits;
  }

  lemma StepInv(s: State, step: Step)
    requires Inv(s)
    ensures Inv(StepOf(s, step))
  {
    hide Inv, Begun, Acquired, Acted, Abandoned, AbandonFailed, WithFailure, WriterDropped, BodyBegun, BodyReceived, BodyDropped;
    match step
    case Start(t, work) => if t !in s.tasks && !s.writerDropped { StartedInv(s, t, work); }
    case Begin(t) => BegunInv(s, t);
    case Acquire(t) => AcquiredInv(s, t);
    case Act(t) => ActedInv(s, t);
    case Yield(t) => if t in s.tasks { PollingInv(s, t, false); }
    case Abandon(t) => AbandonedInv(s, t);
    case AbandonFail(t) => AbandonFailedInv(s, t);
    case Fail(error) => FailureInv(s, error);
    case DropWriter => WriterDroppedInv(s);
    case BodyBegin => BodyBegunInv(s);
    case BodyReceive => BodyReceivedInv(s);
    case DropBody => BodyDroppedInv(s);
  }

  lemma {:induction false} RunInv(s: State, steps: seq<Step>)
    requires Inv(s)
    ensures Inv(RunOf(s, steps))
    decreases |steps|
  {
    hide Inv, StepOf;
    if steps != [] {
      StepInv(s, steps[0]);
      RunInv(StepOf(s, steps[0]), steps[1..]);
    }
  }
}

/** What readers and writers of an upload may rely on. */
module UploadPromises {
  import opened Wrappers
  import opened Streams
  import opened UploadModel
  import opened UploadSafety

  /** Data, then at most one other outcome, then only ends. */
  ghost predicate EndsOnce(outputs: seq<Output>) {
    forall i, j | 0 <= i < j < |outputs| :: outputs[i].Chunk? || outputs[j] == End
  }

  ghost predicate SawFailure(outputs: seq<Output>) {
    exists i | 0 <= i < |outputs| :: outputs[i].Failure?
  }

  /** The stream was over for the reader, and without an error. */
  ghost predicate EndedCleanly(outputs: seq<Output>) {
    !SawFailure(outputs) && exists i | 0 <= i < |outputs| :: !outputs[i].Chunk?
  }

  lemma {:induction false} VerdictMeans(outputs: seq<Output>)
    requires VerdictOf(outputs) != Broken
    ensures EndsOnce(outputs)
    ensures VerdictOf(outputs) == Clean <==> EndedCleanly(outputs)
    ensures VerdictOf(outputs) == Errored <==> SawFailure(outputs)
    ensures VerdictOf(outputs) == Streaming ==> forall i | 0 <= i < |outputs| :: outputs[i].Chunk?
    decreases |outputs|
  {
    if outputs != [] {
      var n := |outputs| - 1;
      VerdictMeans(outputs[..n]);
      assert forall i | 0 <= i < n :: outputs[..n][i] == outputs[i];
      assert SawFailure(outputs) <==> SawFailure(outputs[..n]) || outputs[n].Failure?;
    }
  }

  /**
   In every interleaving, what was delivered is a prefix of what was enqueued in the order in which senders held the
   lock; at most four chunks of at most 16384 bytes wait; the stream ends once; and each send has written a prefix of
   its bytes, all of them when it succeeded.
   */
  lemma DeliveredInLockOrder(steps: seq<Step>)
    ensures var s := RunOf(START, steps);
            && Delivered(s.outputs) <= Written(s.turns)
            && |s.queue| <= 4 && (forall i | 0 <= i < |s.queue| && s.queue[i].Data? :: |s.queue[i].bytes| <= 16384)
            && EndsOnce(s.outputs)
            && (forall i | 0 <= i < |s.turns| ::
                  s.turns[i].task in s.tasks && s.tasks[s.turns[i].task].work.Send?
                  && s.turns[i].bytes <= s.tasks[s.turns[i].task].work.bytes)
            && (forall i, j | 0 <= i < j < |s.turns| :: s.turns[i].task != s.turns[j].task)
            && (forall t | t in s.tasks && s.tasks[t].work.Send? && s.tasks[t].phase.Succeeded? ::
                  t in s.turnOf && s.turnOf[t] < |s.turns| && s.turns[s.turnOf[t]] == Turn(t, s.tasks[t].work.bytes))
  {
    hide RunOf, Delivered, Written, Waits, VerdictOf;
    StartInv();
    RunInv(START, steps);
    var s := RunOf(START, steps);
    VerdictMeans(s.outputs);
    forall i | 0 <= i < |s.queue| && s.queue[i].Data? ensures |s.queue[i].bytes| <= 16384 {
      assert FrameOk(s.queue[i]);
    }
  }

  /** Every turn took all the bytes of its send. */
  ghost predicate Whole(s: State) {
    forall i | 0 <= i < |s.turns| && s.turns[i].task in s.tasks && s.tasks[s.turns[i].task].work.Send? ::
      s.turns[i].bytes == s.tasks[s.turns[i].task].work.bytes
  }

  ghost predicate Unwinding(s: State) {
    exists t | t in s.tasks :: s.tasks[t].phase.Dropping?
  }

  /**
   A clean end is seen only after a call of `finish` that succeeded, with its trailers and with all that was enqueued,
   which is every byte of every successful send. Where no failure is recorded and no dropped call is unwinding, no send
   was cut short either.
   */
  lemma CleanEndIsComplete(steps: seq<Step>)
    requires EndedCleanly(RunOf(START, steps).outputs)
    ensures var s := RunOf(START, steps);
            && s.finish.Some? && s.finish.value.task in s.tasks
            && s.tasks[s.finish.value.task].work == Finish(DeliveredFields(s.outputs))
            && s.tasks[s.finish.value.task].phase.Succeeded?
            && Delivered(s.outputs) == Written(s.turns)
            && (forall t | t in s.tasks && s.tasks[t].work.Send? && s.tasks[t].phase.Succeeded? ::
                  t in s.turnOf && s.turnOf[t] < |s.turns| && s.turns[s.turnOf[t]] == Turn(t, s.tasks[t].work.bytes))
            && (s.error.None? && !Unwinding(s) ==> Whole(s))
  {
    hide RunOf, Delivered, Written, Waits, VerdictOf, DeliveredFields;
    StartInv();
    RunInv(START, steps);
    var s := RunOf(START, steps);
    VerdictMeans(s.outputs);
    if s.error.None? && !Unwinding(s) {
      CleanIsWhole(s);
    }
  }

  lemma CleanIsWhole(s: State)
    requires Inv(s) && VerdictOf(s.outputs) == Clean && s.error.None? && !Unwinding(s)
    ensures Whole(s)
  {
    hide Delivered, Written, Waits, VerdictOf, DeliveredFields, HolderOk;
    forall i | 0 <= i < |s.turns| && s.turns[i].task in s.tasks && s.tasks[s.turns[i].task].work.Send?
      ensures s.turns[i].bytes == s.tasks[s.turns[i].task].work.bytes
    {
      assert TurnOk(s.tasks, s.turns[i]) && Uncut(s.tasks[s.turns[i].task].phase);
    }
  }

  // ----- a send dropped while a finish is being polled

  lemma {:induction false} RunIsTrace(s: State, steps: seq<Step>, states: seq<State>)
    requires |states| == |steps| + 1 && states[0] == s
    requires forall i | 0 <= i < |steps| :: states[i + 1] == StepOf(states[i], steps[i])
    ensures RunOf(s, steps) == states[|steps|]
    decreases |steps|
  {
    hide StepOf;
    if steps != [] {
      assert states[1] == StepOf(states[0], steps[0]);
      forall i | 0 <= i < |steps[1..]| ensures states[1..][i + 1] == StepOf(states[1..][i], steps[1..][i]) {
        assert states[i + 2] == StepOf(states[i + 1], steps[i + 1]);
      }
      RunIsTrace(states[1], steps[1..], states[1..]);
    }
  }

  lemma RunAppend(s: State, first: seq<Step>, second: seq<Step>)
    ensures RunOf(s, first + second) == RunOf(RunOf(s, first), second)
    decreases |first|
  {
    if first == [] {
      assert first + second == second;
    } else {
      assert (first + second)[1..] == first[1..] + second;
      RunAppend(StepOf(s, first[0]), first[1..], second);
    }
  }

  /** A send of one byte more than a chunk, and a finish. */
  function Both(first: Phase, polledFirst: bool, second: Phase, polledSecond: bool, bytes: seq<byte>): map<nat, Task> {
    map[0 := Task(Send(bytes), first, polledFirst), 1 := Task(Finish([]), second, polledSecond)]
  }

  lemma BothUpdated(t: nat, task: Task, first: Phase, polledFirst: bool, second: Phase, polledSecond: bool, bytes: seq<byte>)
    requires t == 0 || t == 1
    ensures t == 0 && task.work == Send(bytes) ==>
              Both(first, polledFirst, second, polledSecond, bytes)[0 := task] == Both(task.phase, task.polling, second, polledSecond, bytes)
    ensures t == 1 && task.work == Finish([]) ==>
              Both(first, polledFirst, second, polledSecond, bytes)[1 := task] == Both(first, polledFirst, task.phase, task.polling, bytes)
  {
  }

  /** The send has enqueued its first chunk, and the finish is being polled beside it. */
  function BothWriting(bytes: seq<byte>): State
    requires |bytes| == CHUNK_BYTES + 1
  {
    START.(queue := [Data(bytes[..CHUNK_BYTES])], holder := Some(0),
           tasks := Both(Writing(bytes[CHUNK_BYTES..]), false, Waiting, true, bytes),
           turns := [Turn(0, bytes[..CHUNK_BYTES])], turnOf := map[0 := 0])
  }

  const APPROACH: seq<Step> := [Begin(0), Acquire(0), Act(0), Yield(0), Begin(1)]

  lemma BothWritingReached(bytes: seq<byte>)
    requires |bytes| == CHUNK_BYTES + 1
    ensures RunOf(START, [Start(0, Send(bytes)), Start(1, Finish([]))] + APPROACH) == BothWriting(bytes)
  {
    var first := [Start(0, Send(bytes)), Start(1, Finish([]))];
    var s0 := START.(tasks := Both(Waiting, false, Waiting, false, bytes));
    RunIsTrace(START, first, [START, StepOf(START, first[0]), s0]);
    RunAppend(START, first, APPROACH);
    ApproachRuns(bytes);
  }

  lemma ApproachRuns(bytes: seq<byte>)
    requires |bytes| == CHUNK_BYTES + 1
    ensures RunOf(START.(tasks := Both(Waiting, false, Waiting, false, bytes)), APPROACH) == BothWriting(bytes)
  {
    hide Both, Begun, Acquired, Acted, Yielded;
    var s0 := START.(tasks := Both(Waiting, false, Waiting, false, bytes));
    var s1 := s0.(tasks := Both(Waiting, true, Waiting, false, bytes));
    var s2 := s1.(tasks := Both(Writing(bytes), true, Waiting, false, bytes), holder := Some(0), turns := [Turn(0, [])], turnOf := map[0 := 0]);
    var chunk := bytes[..CHUNK_BYTES];
    var s3 := s2.(tasks := Both(Writing(bytes[CHUNK_BYTES..]), true, Waiting, false, bytes), queue := [Data(chunk)], turns := [Turn(0, chunk)]);
    var s4 := s3.(tasks := Both(Writing(bytes[CHUNK_BYTES..]), false, Waiting, false, bytes));
    FirstBegins(s0, bytes);
    SendTakesLock(s1, bytes);
    SendEnqueues(s2, bytes);
    SendYields(s3, bytes);
    SecondBegins(s4, bytes);
    assert StepOf(s0, Begin(0)) == s1 && StepOf(s1, Acquire(0)) == s2 && StepOf(s2, Act(0)) == s3 && StepOf(s3, Yield(0)) == s4;
    assert StepOf(s4, Begin(1)) == BothWriting(bytes);
    hide StepOf;
    RunIsTrace(s0, APPROACH, [s0, s1, s2, s3, s4, BothWriting(bytes)]);
  }

  lemma FirstBegins(s: State, bytes: seq<byte>)
    requires s.error.None? && s.tasks == Both(Waiting, false, Waiting, false, bytes)
    ensures Begun(s, 0) == s.(tasks := Both(Waiting, true, Waiting, false, bytes))
  {
  }

  lemma SecondBegins(s: State, bytes: seq<byte>)
    requires |bytes| == CHUNK_BYTES + 1
    requires s.error.None? && s.tasks == Both(Writing(bytes[CHUNK_BYTES..]), false, Waiting, false, bytes)
    ensures Begun(s, 1) == s.(tasks := Both(Writing(bytes[CHUNK_BYTES..]), false, Waiting, true, bytes))
  {
  }

  lemma SendTakesLock(s: State, bytes: seq<byte>)
    requires s.tasks == Both(Waiting, true, Waiting, false, bytes) && s.holder.None? && s.sender && s.turns == [] && s.turnOf == map[]
    ensures Acquired(s, 0) ==
            s.(tasks := Both(Writing(bytes), true, Waiting, false, bytes), holder := Some(0), turns := [Turn(0, [])], turnOf := map[0 := 0])
  {
  }

  lemma SendEnqueues(s: State, bytes: seq<byte>)
    requires |bytes| == CHUNK_BYTES + 1 && s.tasks == Both(Writing(bytes), true, Waiting, false, bytes)
    requires s.holder == Some(0) && s.open && s.queue == [] && s.turns == [Turn(0, [])]
    ensures var chunk := bytes[..CHUNK_BYTES];
            Acted(s, 0) == s.(tasks := Both(Writing(bytes[CHUNK_BYTES..]), true, Waiting, false, bytes),
                              queue := [Data(chunk)], turns := [Turn(0, chunk)])
  {
    var chunk := bytes[..CHUNK_BYTES];
    assert [] + chunk == chunk && s.queue + [Data(chunk)] == [Data(chunk)];
    assert s.turns[0 := Turn(0, chunk)] == [Turn(0, chunk)];
    BothUpdated(0, Task(Send(bytes), Writing(bytes[CHUNK_BYTES..]), true), Writing(bytes), true, Waiting, false, bytes);
    assert 0 in s.tasks && s.tasks[0] == Task(Send(bytes), Writing(bytes), true);
    hide Both;
  }

  lemma SendYields(s: State, bytes: seq<byte>)
    requires |bytes| == CHUNK_BYTES + 1 && s.tasks == Both(Writing(bytes[CHUNK_BYTES..]), true, Waiting, false, bytes)
    ensures Yielded(s, 0) == s.(tasks := Both(Writing(bytes[CHUNK_BYTES..]), false, Waiting, false, bytes))
  {
  }

  /** The send is dropped, and before that fails the upload the finish takes the lock it gave up. */
  const RACE: seq<Step> := [Abandon(0), Acquire(1), Act(1), BodyBegin, BodyReceive, BodyBegin, BodyReceive, AbandonFail(0)]

  function Raced(bytes: seq<byte>): State
    requires |bytes| == CHUNK_BYTES + 1
  {
    BothWriting(bytes).(
      queue := [], open := false, sender := false, holder := None, tasks := Both(Dropped, false, Succeeded, false, bytes),
      error := Some(Cancelled), ended := true, outputs := [Chunk(bytes[..CHUNK_BYTES]), End], finish := Some(Finishing(1, [])))
  }

  /** The finish has overtaken the dropped send, which has not failed the upload yet. */
  function Overtaken(bytes: seq<byte>): State
    requires |bytes| == CHUNK_BYTES + 1
  {
    BothWriting(bytes).(
      holder := None, tasks := Both(Dropping, false, Succeeded, false, bytes), queue := [Data(bytes[..CHUNK_BYTES]), Last([])],
      sender := false, finish := Some(Finishing(1, [])))
  }

  lemma OvertakingRuns(bytes: seq<byte>)
    requires |bytes| == CHUNK_BYTES + 1
    ensures RunOf(BothWriting(bytes), [Abandon(0), Acquire(1), Act(1)]) == Overtaken(bytes)
  {
    hide Both, Abandoned, Acquired, Acted;
    var s0 := BothWriting(bytes);
    var s1 := s0.(holder := None, tasks := Both(Dropping, false, Waiting, true, bytes));
    var s2 := s1.(holder := Some(1), tasks := Both(Dropping, false, Writing([]), true, bytes));
    SendDropped(s0, bytes);
    FinishTakesLock(s1, bytes);
    FinishEnqueues(s2, bytes, bytes[..CHUNK_BYTES]);
    assert StepOf(s0, Abandon(0)) == s1 && StepOf(s1, Acquire(1)) == s2 && StepOf(s2, Act(1)) == Overtaken(bytes);
    hide StepOf;
    RunIsTrace(s0, [Abandon(0), Acquire(1), Act(1)], [s0, s1, s2, Overtaken(bytes)]);
  }

  lemma DrainingRuns(bytes: seq<byte>)
    requires |bytes| == CHUNK_BYTES + 1
    ensures RunOf(Overtaken(bytes), [BodyBegin, BodyReceive, BodyBegin, BodyReceive, AbandonFail(0)]) == Raced(bytes)
  {
    hide Both, BodyBegun, BodyReceived, AbandonFailed;
    var chunk, s3 := bytes[..CHUNK_BYTES], Overtaken(bytes);
    var s5 := s3.(queue := [Last([])], outputs := [Chunk(chunk)]);
    var s7 := s5.(queue := [], outputs := [Chunk(chunk), End], ended := true, open := false);
    BodyDrains(s3, chunk);
    UploadFails(s7, bytes);
    var s4, s6 := s3.(checked := true), s5.(checked := true);
    assert StepOf(s3, BodyBegin) == s4 && StepOf(s4, BodyReceive) == s5 && StepOf(s5, BodyBegin) == s6;
    assert StepOf(s6, BodyReceive) == s7 && StepOf(s7, AbandonFail(0)) == Raced(bytes);
    hide StepOf;
    RunIsTrace(s3, [BodyBegin, BodyReceive, BodyBegin, BodyReceive, AbandonFail(0)], [s3, s4, s5, s6, s7, Raced(bytes)]);
  }

  lemma RaceRuns(bytes: seq<byte>)
    requires |bytes| == CHUNK_BYTES + 1
    ensures RunOf(BothWriting(bytes), RACE) == Raced(bytes)
  {
    hide StepOf, BothWriting, Raced, Overtaken;
    OvertakingRuns(bytes);
    DrainingRuns(bytes);
    assert RACE == [Abandon(0), Acquire(1), Act(1)] + [BodyBegin, BodyReceive, BodyBegin, BodyReceive, AbandonFail(0)];
    RunAppend(BothWriting(bytes), [Abandon(0), Acquire(1), Act(1)], [BodyBegin, BodyReceive, BodyBegin, BodyReceive, AbandonFail(0)]);
  }

  lemma SendDropped(s: State, bytes: seq<byte>)
    requires |bytes| == CHUNK_BYTES + 1 && s.holder == Some(0)
    requires s.tasks == Both(Writing(bytes[CHUNK_BYTES..]), false, Waiting, true, bytes)
    ensures Abandoned(s, 0) == s.(holder := None, tasks := Both(Dropping, false, Waiting, true, bytes))
  {
  }

  lemma FinishTakesLock(s: State, bytes: seq<byte>)
    requires s.holder.None? && s.sender && s.tasks == Both(Dropping, false, Waiting, true, bytes)
    ensures Acquired(s, 1) == s.(holder := Some(1), tasks := Both(Dropping, false, Writing([]), true, bytes))
  {
  }

  lemma FinishEnqueues(s: State, bytes: seq<byte>, chunk: seq<byte>)
    requires s.holder == Some(1) && s.open && s.queue == [Data(chunk)] && s.tasks == Both(Dropping, false, Writing([]), true, bytes)
    ensures Acted(s, 1) == s.(holder := None, tasks := Both(Dropping, false, Succeeded, false, bytes), queue := [Data(chunk), Last([])],
                              sender := false, finish := Some(Finishing(1, [])))
  {
  }

  lemma BodyDrains(s: State, chunk: seq<byte>)
    requires s.queue == [Data(chunk), Last([])] && s.outputs == [] && s.error.None? && !s.checked && !s.ended && !s.released && s.open
    ensures BodyBegun(s) == s.(checked := true)
    ensures var s5 := s.(queue := [Last([])], outputs := [Chunk(chunk)]);
            && BodyReceived(s.(checked := true)) == s5
            && BodyBegun(s5) == s5.(checked := true)
            && BodyReceived(s5.(checked := true)) ==
               s5.(queue := [], outputs := [Chunk(chunk), End], ended := true, open := false)
  {
  }

  lemma UploadFails(s: State, bytes: seq<byte>)
    requires s.tasks == Both(Dropping, false, Succeeded, false, bytes) && s.error.None? && s.holder.None?
    ensures AbandonFailed(s, 0) == s.(tasks := Both(Dropped, false, Succeeded, false, bytes), error := Some(Cancelled))
  {
  }

  /**
   The documented promise that a write cancelled midway fails the whole upload does not hold in every interleaving: the
   body can end cleanly, and the finish succeed, with the send cut short.
   */
  lemma DroppedSendCanBeTruncated(bytes: seq<byte>)
    requires |bytes| == CHUNK_BYTES + 1
    ensures var s := RunOf(START, [Start(0, Send(bytes)), Start(1, Finish([]))] + APPROACH + RACE);
            && EndedCleanly(s.outputs) && 1 in s.tasks && s.tasks[1] == Task(Finish([]), Succeeded, false)
            && Delivered(s.outputs) == bytes[..CHUNK_BYTES] && !Whole(s)
  {
    hide StepOf, RunOf, Raced, EndedCleanly, Whole;
    RunAppend(START, [Start(0, Send(bytes)), Start(1, Finish([]))] + APPROACH, RACE);
    BothWritingReached(bytes);
    RaceRuns(bytes);
    RacedOutcome(bytes);
  }

  lemma RacedOutcome(bytes: seq<byte>)
    requires |bytes| == CHUNK_BYTES + 1
    ensures var s := Raced(bytes);
            && EndedCleanly(s.outputs) && 1 in s.tasks && s.tasks[1] == Task(Finish([]), Succeeded, false)
            && Delivered(s.outputs) == bytes[..CHUNK_BYTES] && !Whole(s)
  {
    var s := Raced(bytes);
    assert !s.outputs[1].Chunk?;
    assert s.outputs == [Chunk(bytes[..CHUNK_BYTES])] + [End];
    OutputAppend([], Chunk(bytes[..CHUNK_BYTES]));
    OutputAppend([Chunk(bytes[..CHUNK_BYTES])], End);
    assert [] + [Chunk(bytes[..CHUNK_BYTES])] == [Chunk(bytes[..CHUNK_BYTES])];
    assert s.turns[0].bytes != s.tasks[0].work.bytes;
  }

  // ----- polls and drops that do not overlap

  /** What an executor does that runs one thing at a time: whole polls and whole drops. */
  datatype Move =
    | Call(task: nat, work: Work)
    | PollCall(task: nat)
    | DropCall(task: nat)
    | Report(error: Error)
    | LetWriterGo
    | PollBody
    | LetBodyGo

  function StepsOf(move: Move): seq<Step> {
    match move
    case Call(t, work) => [Start(t, work)]
    case PollCall(t) => [Begin(t), Acquire(t), Act(t), Act(t), Act(t), Act(t), Act(t), Yield(t)]
    case DropCall(t) => [Abandon(t), AbandonFail(t)]
    case Report(error) => [Fail(error)]
    case LetWriterGo => [DropWriter]
    case PollBody => [BodyBegin, BodyReceive]
    case LetBodyGo => [DropBody]
  }

  function Expand(moves: seq<Move>): seq<Step>
    decreases |moves|
  {
    if moves == [] then [] else StepsOf(moves[0]) + Expand(moves[1..])
  }

  ghost predicate Calm(s: State) {
    !Unwinding(s) && !s.checked
  }

  predicate OfWriters(step: Step) {
    !step.BodyBegin? && !step.BodyReceive?
  }

  /** What a step of the writers leaves alone; only an abandoned call starts to unwind. */
  ghost predicate TasksTouched(tasks: Tasks, after: Tasks, step: Step) {
    && (forall t | t in tasks :: t in after && after[t].work == tasks[t].work)
    && (forall t | t in after && after[t].phase.Dropping? :: step == Abandon(t) || (t in tasks && tasks[t].phase.Dropping?))
  }

  ghost predicate Touched(s: State, n: State, step: Step) {
    && n.outputs == s.outputs && n.checked == s.checked && TasksTouched(s.tasks, n.tasks, step)
    && (s.holder.None? && !s.sender ==> n.turns == s.turns)
  }

  lemma Untouched(s: State, step: Step)
    ensures Touched(s, s, step)
  {
  }

  lemma SettledTouches(s: State, t: nat, phase: Phase, step: Step)
    requires t in s.tasks && (phase.Dropping? ==> step == Abandon(t))
    ensures Touched(s, Settled(s, t, phase), step)
    ensures !phase.Dropping? ==> !Settled(s, t, phase).tasks[t].phase.Dropping?
  {
  }

  lemma PollingTouches(s: State, t: nat, polling: bool, step: Step)
    requires t in s.tasks
    ensures Touched(s, Polling(s, t, polling), step)
  {
  }

  lemma BegunTouches(s: State, t: nat)
    ensures Touched(s, Begun(s, t), Begin(t))
  {
    hide Touched, Settled, Polling;
    Untouched(s, Begin(t));
    if Pending(s, t) && !s.tasks[t].polling {
      if s.error.Some? {
        SettledTouches(s, t, Failed(s.error.value), Begin(t));
      } else {
        PollingTouches(s, t, true, Begin(t));
      }
    }
  }

  lemma SendTakenTouches(s: State, t: nat, bytes: seq<byte>)
    requires t in s.tasks && s.sender
    ensures Touched(s, s.(tasks := s.tasks[t := s.tasks[t].(phase := Writing(bytes))], holder := Some(t),
                          turns := s.turns + [Turn(t, [])], turnOf := s.turnOf[t := |s.turns|]), Acquire(t))
  {
  }

  lemma FinishTakenTouches(s: State, t: nat)
    requires t in s.tasks
    ensures Touched(s, s.(tasks := s.tasks[t := s.tasks[t].(phase := Writing([]))], holder := Some(t)), Acquire(t))
  {
  }

  lemma AcquiredTouches(s: State, t: nat)
    ensures Touched(s, Acquired(s, t), Acquire(t))
  {
    hide Touched, Settled;
    Untouched(s, Acquire(t));
    if t in s.tasks {
      SettledTouches(s, t, Failed(Closed), Acquire(t));
      FinishTakenTouches(s, t);
      if s.sender && s.tasks[t].work.Send? {
        SendTakenTouches(s, t, s.tasks[t].work.bytes);
      }
    }
  }

  lemma EnqueuedTouches(s: State, t: nat, left: seq<byte>)
    requires t in s.tasks && s.turns != [] && s.holder.Some?
    ensures Touched(s, Enqueued(s, t, left), Act(t))
  {
  }

  lemma FinishTouches(s: State, t: nat, trailers: Fields)
    requires t in s.tasks
    ensures Touched(s, Settled(s, t, Succeeded).(queue := s.queue + [Last(trailers)], sender := false, finish := Some(Finishing(t, trailers))), Act(t))
  {
  }

  lemma ActedTouches(s: State, t: nat)
    ensures Touched(s, Acted(s, t), Act(t))
  {
    hide Touched, Settled, Enqueued;
    Untouched(s, Act(t));
    if t in s.tasks && s.tasks[t].phase.Writing? && s.tasks[t].polling && s.holder == Some(t) {
      SettledTouches(s, t, Succeeded, Act(t));
      SettledTouches(s, t, Failed(Closed), Act(t));
      if s.tasks[t].work.Finish? {
        FinishTouches(s, t, s.tasks[t].work.trailers);
      } else if s.turns != [] {
        EnqueuedTouches(s, t, s.tasks[t].phase.left);
      }
    }
  }

  lemma AbandonedTouches(s: State, t: nat)
    ensures Touched(s, Abandoned(s, t), Abandon(t))
  {
    hide Touched, Settled;
    Untouched(s, Abandon(t));
    if Pending(s, t) && !s.tasks[t].polling {
      SettledTouches(s, t, Dropping, Abandon(t));
    }
  }

  lemma FailureTouches(s: State, n: State, error: Error, step: Step)
    requires Touched(s, n, step)
    ensures Touched(s, WithFailure(n, error), step) && WithFailure(n, error).tasks == n.tasks
  {
    hide TasksTouched;
  }

  lemma AbandonFailedTouches(s: State, t: nat)
    ensures Touched(s, AbandonFailed(s, t), AbandonFail(t))
    ensures t in AbandonFailed(s, t).tasks ==> !AbandonFailed(s, t).tasks[t].phase.Dropping?
  {
    hide Touched, Settled, WithFailure;
    Untouched(s, AbandonFail(t));
    if t in s.tasks && s.tasks[t].phase.Dropping? {
      SettledTouches(s, t, Dropped, AbandonFail(t));
      FailureTouches(s, Settled(s, t, Dropped), Cancelled, AbandonFail(t));
    }
  }

  lemma StepTouches(s: State, step: Step)
    requires OfWriters(step)
    ensures Touched(s, StepOf(s, step), step)
  {
    hide Touched, Begun, Acquired, Acted, Polling, Abandoned, AbandonFailed, WithFailure;
    Untouched(s, step);
    match step
    case Begin(t) => BegunTouches(s, t);
    case Acquire(t) => AcquiredTouches(s, t);
    case Act(t) => ActedTouches(s, t);
    case Abandon(t) => AbandonedTouches(s, t);
    case AbandonFail(t) => AbandonFailedTouches(s, t);
    case Start(t, work) => StartTouches(s, t, work);
    case Yield(t) =>
      if t in s.tasks {
        PollingTouches(s, t, false, step);
      }
    case Fail(error) => FailureTouches(s, s, error, step);
    case DropWriter => DropTouches(s, step);
    case DropBody => DropTouches(s, step);
  }

  lemma StartTouches(s: State, t: nat, work: Work)
    ensures Touched(s, s.(tasks := s.tasks[t := Task(work, Waiting, false)]), Start(t, work)) || t in s.tasks
  {
  }

  lemma DropTouches(s: State, step: Step)
    ensures Touched(s, WriterDropped(s), step) && Touched(s, BodyDropped(s), step)
  {
    hide Idle;
  }

  lemma CalmStep(s: State, step: Step)
    requires Calm(s) && OfWriters(step) && !step.Abandon?
    ensures Calm(StepOf(s, step)) && StepOf(s, step).outputs == s.outputs
  {
    hide StepOf;
    StepTouches(s, step);
  }

  lemma {:induction false} CalmRun(s: State, steps: seq<Step>)
    requires Calm(s) && forall i | 0 <= i < |steps| :: OfWriters(steps[i]) && !steps[i].Abandon?
    ensures Calm(RunOf(s, steps)) && RunOf(s, steps).outputs == s.outputs
    decreases |steps|
  {
    hide StepOf, Calm;
    if steps != [] {
      CalmStep(s, steps[0]);
      CalmRun(StepOf(s, steps[0]), steps[1..]);
    }
  }

  lemma CalmDrop(s: State, t: nat)
    requires Calm(s)
    ensures Calm(RunOf(s, [Abandon(t), AbandonFail(t)])) && RunOf(s, [Abandon(t), AbandonFail(t)]).outputs == s.outputs
  {
    hide Abandoned, AbandonFailed;
    var a, b := Abandoned(s, t), AbandonFailed(Abandoned(s, t), t);
    AbandonedTouches(s, t);
    AbandonFailedTouches(a, t);
    assert Calm(b) && b.outputs == s.outputs;
    assert StepOf(s, Abandon(t)) == a && StepOf(a, AbandonFail(t)) == b;
    hide StepOf, Calm;
    RunIsTrace(s, [Abandon(t), AbandonFail(t)], [s, a, b]);
  }

  /** The turns and what each call has to write are the same. */
  ghost predicate SameTurns(s: State, n: State) {
    && n.turns == s.turns && n.outputs == s.outputs
    && forall t | t in s.tasks :: t in n.tasks && n.tasks[t].work == s.tasks[t].work
  }

  lemma CleanIsSettled(s: State)
    requires Inv(s) && VerdictOf(s.outputs) == Clean
    ensures s.holder.None? && !s.sender
  {
    hide TurnsOk, CutOk, QueueOk, FlowOk, Delivered, Written, VerdictOf, DeliveredFields, HolderOk;
  }

  lemma FrozenStep(s: State, step: Step)
    requires s.holder.None? && !s.sender && OfWriters(step)
    ensures SameTurns(s, StepOf(s, step))
  {
    hide StepOf;
    StepTouches(s, step);
  }

  lemma {:induction false} FrozenRun(s: State, steps: seq<Step>)
    requires Inv(s) && VerdictOf(s.outputs) == Clean && forall i | 0 <= i < |steps| :: OfWriters(steps[i])
    ensures SameTurns(s, RunOf(s, steps))
    decreases |steps|
  {
    hide StepOf, Inv, VerdictOf;
    if steps != [] {
      CleanIsSettled(s);
      FrozenStep(s, steps[0]);
      StepInv(s, steps[0]);
      FrozenRun(StepOf(s, steps[0]), steps[1..]);
    }
  }

  lemma WholeStays(s: State, n: State)
    requires Inv(s) && Whole(s) && SameTurns(s, n)
    ensures Whole(n)
  {
    hide LockOk, FinishOk, CutOk, QueueOk, FlowOk, BodyOk;
    forall i | 0 <= i < |n.turns| && n.turns[i].task in n.tasks && n.tasks[n.turns[i].task].work.Send?
      ensures n.turns[i].bytes == n.tasks[n.turns[i].task].work.bytes
    {
      assert TurnOk(s.tasks, s.turns[i]);
    }
  }

  lemma SameIsWhole(s: State, n: State)
    requires Whole(s) && n.turns == s.turns && n.tasks == s.tasks
    ensures Whole(n)
  {
  }

  lemma BodyPolled(s: State)
    requires Inv(s) && Calm(s) && (VerdictOf(s.outputs) == Clean ==> Whole(s))
    ensures var n := RunOf(s, [BodyBegin, BodyReceive]); Calm(n) && (VerdictOf(n.outputs) == Clean ==> Whole(n))
  {
    hide Inv, VerdictOf, Whole, BodyBegun, BodyReceived;
    var a := BodyBegun(s);
    var n := BodyReceived(a);
    BodyTouches(s);
    BodyBegunInv(s);
    BodyReceivedInv(a);
    if VerdictOf(n.outputs) == Clean {
      if n.error.None? {
        CleanIsWhole(n);
      } else {
        ErrorEndsStream(s);
        SameIsWhole(s, n);
      }
    }
    assert StepOf(s, BodyBegin) == a && StepOf(a, BodyReceive) == n;
    hide StepOf;
    RunIsTrace(s, [BodyBegin, BodyReceive], [s, a, n]);
  }

  lemma BodyTouches(s: State)
    requires !s.checked
    ensures var n := BodyReceived(BodyBegun(s)); n.tasks == s.tasks && n.turns == s.turns && n.error == s.error && !n.checked
  {
    if !s.released {
      if s.ended {
      } else if s.error.Some? {
      } else if s.queue != [] {
        if s.queue[0].Data? {
        } else {
        }
      } else if s.sender {
      } else {
      }
    }
  }

  /** With a failure recorded, a poll of the body does not turn a stream that goes on into one that ended cleanly. */
  lemma ErrorEndsStream(s: State)
    requires Inv(s) && !s.checked && s.error.Some?
    ensures VerdictOf(BodyReceived(BodyBegun(s)).outputs) == Clean ==> VerdictOf(s.outputs) == Clean
  {
    hide WritersOk, QueueOk, FlowOk, VerdictOf, Delivered, Written, DeliveredFields;
    if !s.released {
      var output := if s.ended then End else Failure(s.error.value);
      OutputAppend(s.outputs, output);
    }
  }

  lemma MoveKeeps(s: State, move: Move)
    requires Inv(s) && Calm(s) && (VerdictOf(s.outputs) == Clean ==> Whole(s))
    ensures var n := RunOf(s, StepsOf(move)); Inv(n) && Calm(n) && (VerdictOf(n.outputs) == Clean ==> Whole(n))
  {
    hide Inv, Calm, VerdictOf, Whole, RunOf;
    var steps := StepsOf(move);
    RunInv(s, steps);
    if move.PollBody? {
      BodyPolled(s);
    } else {
      if move.DropCall? {
        CalmDrop(s, move.task);
      } else {
        CalmRun(s, steps);
      }
      if VerdictOf(s.outputs) == Clean {
        FrozenRun(s, steps);
        WholeStays(s, RunOf(s, steps));
      }
    }
  }

  lemma {:induction false} MovesKeep(s: State, moves: seq<Move>)
    requires Inv(s) && Calm(s) && (VerdictOf(s.outputs) == Clean ==> Whole(s))
    ensures var n := RunOf(s, Expand(moves)); Inv(n) && (VerdictOf(n.outputs) == Clean ==> Whole(n))
    decreases |moves|
  {
    hide Inv, Calm, VerdictOf, Whole, StepsOf;
    if moves != [] {
      MoveKeeps(s, moves[0]);
      RunAppend(s, StepsOf(moves[0]), Expand(moves[1..]));
      MovesKeep(RunOf(s, StepsOf(moves[0])), moves[1..]);
    }
  }

  /** Where polls and drops do not overlap, the promise holds: a clean end never hides a send that was cut short. */
  lemma SerialRunsLoseNothing(moves: seq<Move>)
    requires EndedCleanly(RunOf(START, Expand(moves)).outputs)
    ensures Whole(RunOf(START, Expand(moves)))
  {
    assert VerdictOf(START.outputs) == Streaming && Calm(START);
    hide RunOf, Expand, Whole, VerdictOf;
    StartInv();
    MovesKeep(START, moves);
    VerdictMeans(RunOf(START, Expand(moves)).outputs);
  }

  // ----- from the end of the stream on

  /** The turns and what each call has to write are the same, and the stream has ended cleanly still. */
  ghost predicate StillClean(s: State, n: State) {
    && n.turns == s.turns && (forall t | t in s.tasks :: t in n.tasks && n.tasks[t].work == s.tasks[t].work)
    && VerdictOf(n.outputs) == Clean
  }

  lemma BodyStaysClean(s: State, step: Step)
    requires Inv(s) && VerdictOf(s.outputs) == Clean && !OfWriters(step)
    ensures StillClean(s, StepOf(s, step))
  {
    hide WritersOk, QueueOk, FlowOk, VerdictOf, Delivered, Written, DeliveredFields;
    assert s.ended && !s.checked;
    OutputAppend(s.outputs, End);
  }

  lemma CleanStays(s: State, step: Step)
    requires Inv(s) && VerdictOf(s.outputs) == Clean
    ensures StillClean(s, StepOf(s, step))
  {
    hide Inv, VerdictOf, StepOf;
    if OfWriters(step) {
      CleanIsSettled(s);
      FrozenStep(s, step);
    } else {
      BodyStaysClean(s, step);
    }
  }

  lemma {:induction false} CleanRun(s: State, steps: seq<Step>)
    requires Inv(s) && VerdictOf(s.outputs) == Clean && Whole(s)
    ensures Whole(RunOf(s, steps))
    decreases |steps|
  {
    hide Inv, VerdictOf, StepOf, Whole;
    if steps != [] {
      CleanStays(s, steps[0]);
      StepInv(s, steps[0]);
      StillWhole(s, StepOf(s, steps[0]));
      CleanRun(StepOf(s, steps[0]), steps[1..]);
    }
  }

  lemma StillWhole(s: State, n: State)
    requires Inv(s) && Whole(s) && StillClean(s, n)
    ensures Whole(n)
  {
    hide LockOk, FinishOk, CutOk, QueueOk, FlowOk, BodyOk, VerdictOf;
    forall i | 0 <= i < |n.turns| && n.turns[i].task in n.tasks && n.tasks[n.turns[i].task].work.Send?
      ensures n.turns[i].bytes == n.tasks[n.turns[i].task].work.bytes
    {
      assert TurnOk(s.tasks, s.turns[i]);
    }
  }

  /**
   If no failure is recorded and no dropped call is unwinding when the end is given, no send was cut short, and whatever
   fails later changes nothing about it.
   */
  lemma WholeFromItsEndOn(before: seq<Step>, step: Step, later: seq<Step>)
    requires var s := RunOf(START, before);
             && VerdictOf(s.outputs) == Streaming && VerdictOf(StepOf(s, step).outputs) == Clean
             && s.error.None? && !Unwinding(s)
    ensures Whole(RunOf(START, before + [step] + later))
  {
    hide RunOf, StepOf, Whole, VerdictOf, Inv;
    var s := RunOf(START, before);
    StartInv();
    RunInv(START, before);
    StepInv(s, step);
    EndingKeepsCalm(s, step);
    CleanIsWhole(StepOf(s, step));
    CleanRun(StepOf(s, step), later);
    RunAppend(START, before, [step]);
    RunAppend(START, before + [step], later);
    OneStep(s, step);
  }

  lemma OneStep(s: State, step: Step)
    ensures RunOf(s, [step]) == StepOf(s, step)
  {
    hide StepOf;
    assert [step][1..] == [];
  }

  /** Only the body ends the stream, and it records no failure. */
  lemma EndingKeepsCalm(s: State, step: Step)
    requires VerdictOf(s.outputs) == Streaming && VerdictOf(StepOf(s, step).outputs) == Clean && s.error.None? && !Unwinding(s)
    ensures StepOf(s, step).error.None? && !Unwinding(StepOf(s, step))
  {
    hide VerdictOf;
    if OfWriters(step) {
      hide StepOf;
      StepTouches(s, step);
      assert false;
    } else {
      BodyKeepsTasks(s);
      hide BodyBegun, BodyReceived;
    }
  }

  lemma BodyKeepsTasks(s: State)
    ensures BodyBegun(s).tasks == s.tasks && BodyBegun(s).error == s.error
    ensures BodyReceived(s).tasks == s.tasks && BodyReceived(s).error == s.error
  {
    if s.checked && s.queue != [] {
      if s.queue[0].Data? {
      } else {
      }
    }
  }

  // ----- an abandoned writer

  function BodyPolls(s: State, n: nat): State
    decreases n
  {
    if n == 0 then s else BodyPolls(BodyReceived(BodyBegun(s)), n - 1)
  }

  function Chunks(queue: seq<Frame>): seq<Output>
    requires forall i | 0 <= i < |queue| :: queue[i].Data?
  {
    seq(|queue|, i requires 0 <= i < |queue| => Chunk(queue[i].bytes))
  }

  function Ends(n: nat): seq<Output> {
    seq(n, _ => End)
  }

  lemma {:induction false} OverForGood(s: State, n: nat)
    requires s.ended && !s.released && !s.checked
    ensures BodyPolls(s, n).outputs == s.outputs + Ends(n)
    decreases n
  {
    if n > 0 {
      OverForGood(s.(outputs := s.outputs + [End]), n - 1);
      assert Ends(n) == [End] + Ends(n - 1);
    }
  }

  /** One poll of a body whose writer is gone. */
  lemma PolledAlone(s: State)
    requires !s.released && !s.checked && !s.ended && !s.sender && forall i | 0 <= i < |s.queue| :: s.queue[i].Data?
    ensures BodyReceived(BodyBegun(s)) ==
            if s.error.Some? then s.(ended := true, open := false, outputs := s.outputs + [Failure(s.error.value)])
            else if s.queue == [] then s.(ended := true, outputs := s.outputs + [Failure(Producer)])
            else s.(queue := s.queue[1..], outputs := s.outputs + [Chunk(s.queue[0].bytes)])
  {
    if s.error.Some? {
      var a := s.(ended := true, open := false, outputs := s.outputs + [Failure(s.error.value)]);
      assert BodyBegun(s) == a && BodyReceived(a) == a;
      hide BodyBegun, BodyReceived;
    } else {
      var a := s.(checked := true);
      assert BodyBegun(s) == a;
      hide BodyBegun;
      if s.queue == [] {
        assert BodyReceived(a) == s.(ended := true, outputs := s.outputs + [Failure(Producer)]);
        hide BodyReceived;
      } else {
        assert BodyReceived(a) == s.(queue := s.queue[1..], outputs := s.outputs + [Chunk(s.queue[0].bytes)]);
        hide BodyReceived;
      }
    }
  }

  /**
   A writer dropped without finishing: however often the body is polled, it yields what waits, exactly one error, and
   then nothing. A failure that is recorded comes at once.
   */
  lemma {:induction false} AbandonedWriterFailsOnce(s: State, extra: nat)
    requires Inv(s) && s.writerDropped && s.finish.None? && !s.ended && !s.released && !s.checked
    ensures (forall i | 0 <= i < |s.queue| :: s.queue[i].Data?)
            && if s.error.Some? then
              BodyPolls(s, 1 + extra).outputs == s.outputs + [Failure(s.error.value)] + Ends(extra)
            else
              BodyPolls(s, |s.queue| + 1 + extra).outputs == s.outputs + Chunks(s.queue) + [Failure(Producer)] + Ends(extra)
  {
    assert !s.sender && forall i | 0 <= i < |s.queue| :: s.queue[i].Data? by {
      hide LockOk, TurnsOk, CutOk, FlowOk, BodyOk;
    }
    hide Inv;
    if s.error.Some? {
      PolledAlone(s);
      hide BodyBegun, BodyReceived;
      OverForGood(BodyReceived(BodyBegun(s)), extra);
    } else {
      Drained(s, extra);
    }
  }

  lemma {:induction false} Drained(s: State, extra: nat)
    requires !s.released && !s.checked && !s.ended && !s.sender && s.error.None?
    requires forall i | 0 <= i < |s.queue| :: s.queue[i].Data?
    ensures BodyPolls(s, |s.queue| + 1 + extra).outputs == s.outputs + Chunks(s.queue) + [Failure(Producer)] + Ends(extra)
    decreases |s.queue|
  {
    hide BodyBegun, BodyReceived, Chunks, Ends;
    PolledAlone(s);
    var next := BodyReceived(BodyBegun(s));
    if s.queue == [] {
      OverForGood(next, extra);
      NoChunks();
    } else {
      Drained(next, extra);
      ChunksCons(s.queue);
      OneFirst(s.outputs, Chunk(s.queue[0].bytes), Chunks(next.queue), [Failure(Producer)], Ends(extra));
    }
  }

  lemma OneFirst(before: seq<Output>, output: Output, chunks: seq<Output>, failure: seq<Output>, ends: seq<Output>)
    ensures before + [output] + chunks + failure + ends == before + ([output] + chunks) + failure + ends
  {
  }

  lemma NoChunks()
    ensures Chunks([]) == []
  {
  }

  lemma ChunksCons(queue: seq<Frame>)
    requires queue != [] && forall i | 0 <= i < |queue| :: queue[i].Data?
    ensures Chunks(queue) == [Chunk(queue[0].bytes)] + Chunks(queue[1..])
  {
  }
}
