/**
 The receive bridge: a worker polls the native body only when a read demands it, and answers reads through a channel of
 one place. Polls check for cancellation when they begin and act later; calls and the worker may be dropped at any time.
 */
module ReaderModel {
  import opened Wrappers
  import opened Streams

  /** What the native body yields: data, trailer fields, some other frame, or an error. After the last comes its end. */
  datatype Native = Data(bytes: seq<byte>) | FieldsFrame(fields: Fields) | Unknown | Broken(error: Error)

  datatype Answer = Chunk(bytes: seq<byte>) | Finished | Failure(error: Error)

  datatype Phase = Asking | Waiting | Returned(answer: Answer) | Dropping | Gone

  datatype Call = Call(phase: Phase, polling: bool)

  datatype Worker = Idle | Serving(reader: nat) | Ending(reader: nat) | Stopped

  /**
   `native` is what the body still has, `active` while the worker is being polled. The history: what was `consumed`, the
   calls whose commands were `sent` and `served` with their `place`, and the data in the `answers` that were heard.
   */
  datatype State = State(
    native: seq<Native>, command: Option<nat>, worker: Worker, active: bool, trailers: Fields,
    completion: Option<Result<Fields, Error>>, error: Option<Error>, ownerCancelled: bool,
    reading: Option<nat>, calls: map<nat, Call>, replies: map<nat, Answer>, readerDropped: bool,
    consumed: seq<Native>, sent: seq<nat>, served: seq<nat>, place: map<nat, nat>, answers: seq<seq<byte>>)

  function StartOf(script: seq<Native>): State {
    State(script, None, Idle, false, [], None, None, false, None, map[], map[], false, [], [], [], map[], [])
  }

  datatype Step =
    | Next(call: nat)
    | CallBegin(call: nat)
    | CallAct(call: nat)
    | CallYield(call: nat)
    | CallDrop(call: nat)
    | CallDropFail(call: nat)
    | WorkerBegin
    | WorkerAct
    | WorkerYield
    | WorkerDrop
    | Fail(error: Error)
    | OwnerCancel
    | DropReader

  predicate IsCancelled(s: State) {
    s.error.Some? || s.ownerCancelled
  }

  /** The first failure, or why there is none. */
  function ErrorOf(s: State): Error {
    if s.error.Some? then s.error.value else if s.ownerCancelled then Closed else Cancelled
  }

  function FirstOf(kept: Option<Error>, error: Error): Option<Error> {
    if kept.Some? then kept else Some(error)
  }

  predicate Busy(phase: Phase) {
    phase.Asking? || phase.Waiting?
  }

  predicate Pending(s: State, t: nat) {
    t in s.calls && Busy(s.calls[t].phase)
  }

  function WithCall(s: State, t: nat, phase: Phase, polling: bool): State {
    s.(calls := s.calls[t := Call(phase, polling)])
  }

  /** A call returns: its poll is over and another read may begin. */
  function Answered(s: State, t: nat, answer: Answer): State {
    s.(calls := s.calls[t := Call(Returned(answer), false)], reading := if s.reading == Some(t) then None else s.reading)
  }

  function CompletionAnswer(completion: Result<Fields, Error>): Answer {
    match completion
    case Ok(_) => Finished
    case Err(error) => Failure(error)
  }

  function NextCalled(s: State, t: nat): State {
    if t in s.calls || s.readerDropped then s
    else if s.reading.Some? then Answered(s, t, Failure(BodyInUse))
    else if s.completion.Some? then Answered(s, t, CompletionAnswer(s.completion.value))
    else WithCall(s, t, Asking, false).(reading := Some(t))
  }

  function CallBegun(s: State, t: nat): State {
    if !Pending(s, t) || s.calls[t].polling then s
    else if IsCancelled(s) then Answered(s, t, Failure(ErrorOf(s)))
    else WithCall(s, t, s.calls[t].phase, true)
  }

  function CommandSent(s: State, t: nat): State {
    WithCall(s, t, Waiting, true).(command := Some(t), sent := s.sent + [t], place := s.place[t := |s.sent|])
  }

  /** Send the command, or take the reply; both ends of a channel are gone once the worker stopped. */
  function CallActed(s: State, t: nat): State {
    if !Pending(s, t) || !s.calls[t].polling then s
    else if s.calls[t].phase.Asking? then
      if s.worker.Stopped? then Answered(s, t, Failure(ErrorOf(s)))
      else if s.command.Some? then s
      else CommandSent(s, t)
    else if t in s.replies then Answered(s, t, s.replies[t])
    else if s.worker.Stopped? then Answered(s, t, Failure(ErrorOf(s)))
    else s
  }

  function CallYielded(s: State, t: nat): State {
    if Pending(s, t) then WithCall(s, t, s.calls[t].phase, false) else s
  }

  function CallDropped(s: State, t: nat): State {
    if !Pending(s, t) || s.calls[t].polling then s else WithCall(s, t, Dropping, false)
  }

  function CallDropFailed(s: State, t: nat): State {
    if t !in s.calls || !s.calls[t].phase.Dropping? then s
    else WithCall(s, t, Gone, false).(error := FirstOf(s.error, Cancelled), reading := if s.reading == Some(t) then None else s.reading)
  }

  /** The worker ends with an error: it fails the operation and completes with the error. */
  function WorkerFailed(s: State, error: Error): State {
    s.(worker := Stopped, active := false, error := FirstOf(s.error, error), completion := Some(Err(error)))
  }

  function WorkerBegun(s: State): State {
    if s.worker.Stopped? || s.active then s
    else if IsCancelled(s) then WorkerFailed(s, ErrorOf(s))
    else s.(active := true)
  }

  predicate Hears(s: State, t: nat) {
    t in s.calls && s.calls[t].phase.Waiting?
  }

  function CommandTaken(s: State): State {
    if s.command.Some? then s.(command := None, worker := Serving(s.command.value), served := s.served + [s.command.value])
    else if s.readerDropped then WorkerFailed(s, Cancelled)
    else s
  }

  function Replied(s: State, t: nat, answer: Answer): State {
    if Hears(s, t) then s.(replies := s.replies[t := answer]) else s
  }

  function Consumed(s: State): State
    requires s.native != []
  {
    s.(native := s.native[1..], consumed := s.consumed + [s.native[0]])
  }

  function DataServed(s: State, t: nat, bytes: seq<byte>): State {
    if Hears(s, t) then Replied(s, t, Chunk(bytes)).(worker := Idle, answers := s.answers + [bytes]) else WorkerFailed(s, Cancelled)
  }

  /** One frame of the native body, for the read that is served. */
  function FrameServed(s: State, t: nat): State
    requires s.native != []
  {
    match s.native[0]
    case Data(bytes) => DataServed(Consumed(s), t, bytes)
    case FieldsFrame(fields) => Consumed(s).(trailers := s.trailers + fields)
    case Unknown => Consumed(s)
    case Broken(error) => WorkerFailed(Replied(Consumed(s), t, Failure(error)), error)
  }

  /** Completion is published before the read is told; a read that does not hear it turns it into a failure. */
  function EndTold(s: State, t: nat): State {
    if Hears(s, t) then Replied(s, t, Finished).(worker := Stopped, active := false) else WorkerFailed(s, Cancelled)
  }

  function WorkerActed(s: State): State {
    if !s.active then s
    else
      match s.worker
      case Idle => CommandTaken(s)
      case Serving(t) => if s.native == [] then s.(worker := Ending(t), completion := Some(Ok(s.trailers))) else FrameServed(s, t)
      case Ending(t) => EndTold(s, t)
      case Stopped => s
  }

  function ReaderDropped(s: State): State {
    if s.readerDropped || s.reading.Some? then s
    else if s.completion.Some? && s.completion.value.Ok? then s.(readerDropped := true)
    else s.(readerDropped := true, error := FirstOf(s.error, Cancelled))
  }

  function StepOf(s: State, step: Step): State {
    match step
    case Next(t) => NextCalled(s, t)
    case CallBegin(t) => CallBegun(s, t)
    case CallAct(t) => CallActed(s, t)
    case CallYield(t) => CallYielded(s, t)
    case CallDrop(t) => CallDropped(s, t)
    case CallDropFail(t) => CallDropFailed(s, t)
    case WorkerBegin => WorkerBegun(s)
    case WorkerAct => WorkerActed(s)
    case WorkerYield => if s.worker.Ending? then s else s.(active := false)
    case WorkerDrop => if s.active then s else s.(worker := Stopped)
    case Fail(error) => s.(error := FirstOf(s.error, error))
    case OwnerCancel => s.(ownerCancelled := true)
    case DropReader => ReaderDropped(s)
  }

  function RunOf(s: State, steps: seq<Step>): State
    decreases |steps|
  {
    if steps == [] then s else RunOf(StepOf(s, steps[0]), steps[1..])
  }

  /** What a call of `trailers` returns, or None while it waits. */
  function TrailersAnswer(s: State): Option<Result<Fields, Error>> {
    if s.completion.Some? then s.completion
    else if IsCancelled(s) || s.worker.Stopped? then Some(Err(ErrorOf(s)))
    else None
  }

  // ----- what the native body carries

  function DataOf(frames: seq<Native>): seq<seq<byte>> {
    if frames == [] then []
    else
      var n := |frames| - 1;
      DataOf(frames[..n]) + if frames[n].Data? then [frames[n].bytes] else []
  }

  /** All trailer fields, in order. */
  function FieldsOf(frames: seq<Native>): Fields {
    if frames == [] then []
    else
      var n := |frames| - 1;
      FieldsOf(frames[..n]) + if frames[n].FieldsFrame? then frames[n].fields else []
  }

  predicate Intact(frames: seq<Native>) {
    forall i | 0 <= i < |frames| :: !frames[i].Broken?
  }

  lemma FrameAppend(frames: seq<Native>, frame: Native)
    ensures DataOf(frames + [frame]) == DataOf(frames) + if frame.Data? then [frame.bytes] else []
    ensures FieldsOf(frames + [frame]) == FieldsOf(frames) + if frame.FieldsFrame? then frame.fields else []
  {
    assert (frames + [frame])[..|frames|] == frames;
  }

  lemma {:induction false} DataPrefix(first: seq<Native>, second: seq<Native>)
    ensures DataOf(first) <= DataOf(first + second)
    decreases |second|
  {
    if second == [] {
      assert first + second == first;
    } else {
      var n := |second| - 1;
      DataPrefix(first, second[..n]);
      assert first + second == (first + second[..n]) + [second[n]];
      FrameAppend(first + second[..n], second[n]);
    }
  }
}

/** What every run of the receive bridge keeps. */
module ReaderSafety {
  import opened Wrappers
  import opened Streams
  import opened ReaderModel

  type Calls = map<nat, Call>

  predicate Locked(phase: Phase) {
    Busy(phase) || phase.Dropping?
  }

  /** One read at a time is under way. */
  ghost predicate LockOk(calls: Calls, reading: Option<nat>) {
    && (forall t | t in calls && Locked(calls[t].phase) :: reading == Some(t))
    && (reading.Some? ==> reading.value in calls && Locked(calls[reading.value].phase))
  }

  /** Commands reach the worker in the order in which they were sent, and a read that waits sent the last one. */
  ghost predicate SentOk(
      calls: Calls, sent: seq<nat>, served: seq<nat>, place: map<nat, nat>, command: Option<nat>, worker: Worker)
  {
    && sent == served + (if command.Some? then [command.value] else [])
    && (forall i | 0 <= i < |sent| :: sent[i] in place && place[sent[i]] == i && sent[i] in calls && !calls[sent[i]].phase.Asking?)
    && (forall t | t in place :: place[t] < |sent| && sent[place[t]] == t)
    && (forall t | t in calls && calls[t].phase.Waiting? :: sent != [] && sent[|sent| - 1] == t)
    && (worker.Serving? || worker.Ending? ==> served != [] && served[|served| - 1] == worker.reader)
  }

  /** The worker takes one data frame for each command, in order, and never skips one that was heard. */
  ghost predicate FlowOk(
      script: seq<Native>, consumed: seq<Native>, native: seq<Native>, trailers: Fields, worker: Worker,
      served: nat, answers: seq<seq<byte>>)
  {
    && script == consumed + native && trailers == FieldsOf(consumed)
    && answers <= DataOf(consumed) && |answers| <= served && |DataOf(consumed)| <= served
    && (!worker.Stopped? ==> Intact(consumed) && answers == DataOf(consumed))
    && (worker.Idle? ==> served == |answers|)
    && (worker.Serving? || worker.Ending? ==> served == |answers| + 1)
    && (worker.Ending? ==> native == [])
  }

  /** The body was read to its end without an error. */
  ghost predicate Exhausted(consumed: seq<Native>, native: seq<Native>, answers: seq<seq<byte>>) {
    native == [] && Intact(consumed) && answers == DataOf(consumed)
  }

  ghost predicate CompletionOk(
      completion: Option<Result<Fields, Error>>, worker: Worker, trailers: Fields, error: Option<Error>, exhausted: bool)
  {
    && (completion.Some? && completion.value.Ok? ==> exhausted && completion.value.value == trailers && (worker.Ending? || worker.Stopped?))
    && (completion.Some? && completion.value.Err? ==> error.Some? && worker.Stopped?)
    && (worker.Idle? || worker.Serving? ==> completion.None?)
    && (worker.Ending? ==> completion.Some? && completion.value.Ok?)
  }

  /** Replies and returned answers carry the data frame that belongs to the place of the read. */
  ghost predicate AnswerOk(answer: Answer, t: nat, place: map<nat, nat>, answers: seq<seq<byte>>, exhausted: bool) {
    match answer
    case Chunk(bytes) => t in place && place[t] < |answers| && answers[place[t]] == bytes
    case Finished => exhausted
    case Failure(_) => true
  }

  ghost predicate RepliesOk(
      calls: Calls, replies: map<nat, Answer>, place: map<nat, nat>, served: nat, answers: seq<seq<byte>>, exhausted: bool)
  {
    && (forall t | t in replies :: t in place && place[t] < served && AnswerOk(replies[t], t, place, answers, exhausted))
    && (forall t | t in calls && calls[t].phase.Returned? :: AnswerOk(calls[t].phase.answer, t, place, answers, exhausted))
  }

  /** What was heard is handed on, unless the operation failed, was cancelled, or is being dropped. */
  ghost predicate HandedOn(calls: Calls, replies: map<nat, Answer>, sent: seq<nat>, answers: seq<seq<byte>>, excused: bool) {
    excused || forall i | 0 <= i < |answers| && i < |sent| && sent[i] in calls :: HandsOn(calls, replies, sent[i], answers[i])
  }

  ghost predicate HandsOn(calls: Calls, replies: map<nat, Answer>, t: nat, bytes: seq<byte>)
    requires t in calls
  {
    match calls[t].phase
    case Returned(answer) => answer == Chunk(bytes)
    case Waiting => t in replies && replies[t] == Chunk(bytes)
    case Dropping => true
    case _ => false
  }

  ghost predicate Inv(script: seq<Native>, s: State) {
    var exhausted := Exhausted(s.consumed, s.native, s.answers);
    && LockOk(s.calls, s.reading) && SentOk(s.calls, s.sent, s.served, s.place, s.command, s.worker)
    && FlowOk(script, s.consumed, s.native, s.trailers, s.worker, |s.served|, s.answers)
    && CompletionOk(s.completion, s.worker, s.trailers, s.error, exhausted)
    && RepliesOk(s.calls, s.replies, s.place, |s.served|, s.answers, exhausted)
    && HandedOn(s.calls, s.replies, s.sent, s.answers, IsCancelled(s))
    && (s.readerDropped ==> s.reading.None?)
  }

  lemma StartInv(script: seq<Native>)
    ensures Inv(script, StartOf(script))
  {
  }

  // ----- one call

  lemma CallLock(calls: Calls, reading: Option<nat>, t: nat, call: Call)
    requires LockOk(calls, reading) && t in calls && Locked(calls[t].phase)
    ensures LockOk(calls[t := call], if Locked(call.phase) then reading else None) && reading == Some(t)
  {
  }

  lemma CallSent(
      calls: Calls, sent: seq<nat>, served: seq<nat>, place: map<nat, nat>, command: Option<nat>, worker: Worker, t: nat, call: Call)
    requires SentOk(calls, sent, served, place, command, worker)
    requires t in calls && (call.phase.Asking? ==> calls[t].phase.Asking?) && (call.phase.Waiting? ==> calls[t].phase.Waiting?)
    ensures SentOk(calls[t := call], sent, served, place, command, worker)
  {
  }

  lemma NewCallSent(
      calls: Calls, sent: seq<nat>, served: seq<nat>, place: map<nat, nat>, command: Option<nat>, worker: Worker, t: nat, call: Call)
    requires SentOk(calls, sent, served, place, command, worker) && t !in calls && !call.phase.Waiting?
    ensures SentOk(calls[t := call], sent, served, place, command, worker) && t !in place
  {
  }

  lemma CallReplies(
      calls: Calls, replies: map<nat, Answer>, place: map<nat, nat>, served: nat, answers: seq<seq<byte>>, exhausted: bool,
      t: nat, call: Call)
    requires RepliesOk(calls, replies, place, served, answers, exhausted)
    requires call.phase.Returned? ==> AnswerOk(call.phase.answer, t, place, answers, exhausted)
    ensures RepliesOk(calls[t := call], replies, place, served, answers, exhausted)
  {
    hide AnswerOk;
  }

  lemma CallHanded(
      calls: Calls, replies: map<nat, Answer>, sent: seq<nat>, answers: seq<seq<byte>>, excused: bool, t: nat, call: Call)
    requires HandedOn(calls, replies, sent, answers, excused)
    requires t in calls ==> excused || (forall i | 0 <= i < |answers| && i < |sent| && sent[i] == t ::
               HandsOn(calls[t := call], replies, t, answers[i]))
    requires t !in calls ==> t !in sent
    ensures HandedOn(calls[t := call], replies, sent, answers, excused)
  {
    hide HandsOn;
    if !excused {
      forall i | 0 <= i < |answers| && i < |sent| && sent[i] in calls[t := call]
        ensures HandsOn(calls[t := call], replies, sent[i], answers[i])
      {
        if sent[i] != t {
          assert HandsOn(calls, replies, sent[i], answers[i]);
          OtherHandsOn(calls, calls[t := call], replies, replies, sent[i], answers[i]);
        }
      }
    }
  }

  lemma OtherHandsOn(calls: Calls, other: Calls, replies: map<nat, Answer>, more: map<nat, Answer>, t: nat, bytes: seq<byte>)
    requires t in calls && t in other && calls[t] == other[t] && HandsOn(calls, replies, t, bytes)
    requires t in replies ==> t in more && more[t] == replies[t]
    ensures HandsOn(other, more, t, bytes)
  {
  }

  /** How the phase of a call may change without touching the channels. */
  lemma PhaseInv(script: seq<Native>, s: State, t: nat, phase: Phase, polling: bool)
    requires Inv(script, s) && t in s.calls && Locked(s.calls[t].phase)
    requires phase == s.calls[t].phase || phase.Dropping?
    ensures Inv(script, WithCall(s, t, phase, polling))
  {
    hide LockOk, SentOk, FlowOk, CompletionOk, RepliesOk, HandedOn, Exhausted;
    var call := Call(phase, polling);
    CallLock(s.calls, s.reading, t, call);
    CallSent(s.calls, s.sent, s.served, s.place, s.command, s.worker, t, call);
    CallReplies(s.calls, s.replies, s.place, |s.served|, s.answers, Exhausted(s.consumed, s.native, s.answers), t, call);
    SamePhaseHands(s, t, call);
    CallHanded(s.calls, s.replies, s.sent, s.answers, IsCancelled(s), t, call);
  }

  lemma SamePhaseHands(s: State, t: nat, call: Call)
    requires t in s.calls && HandedOn(s.calls, s.replies, s.sent, s.answers, IsCancelled(s))
    requires call.phase == s.calls[t].phase || call.phase.Dropping?
    ensures IsCancelled(s) || (forall i | 0 <= i < |s.answers| && i < |s.sent| && s.sent[i] == t ::
               HandsOn(s.calls[t := call], s.replies, t, s.answers[i]))
  {
  }

  /** A call returns with what it heard, or with a failure once there is a reason for it. */
  lemma AnsweredInv(script: seq<Native>, s: State, t: nat, answer: Answer)
    requires Inv(script, s) && Pending(s, t)
    requires AnswerOk(answer, t, s.place, s.answers, Exhausted(s.consumed, s.native, s.answers))
    requires IsCancelled(s) || s.calls[t].phase.Asking? || (t in s.replies && s.replies[t] == answer)
             || (t in s.place ==> |s.answers| <= s.place[t])
    ensures Inv(script, Answered(s, t, answer))
  {
    var call := Call(Returned(answer), false);
    AnswerHands(script, s, t, call);
    hide LockOk, SentOk, FlowOk, CompletionOk, RepliesOk, HandedOn, Exhausted;
    CallLock(s.calls, s.reading, t, call);
    CallSent(s.calls, s.sent, s.served, s.place, s.command, s.worker, t, call);
    CallReplies(s.calls, s.replies, s.place, |s.served|, s.answers, Exhausted(s.consumed, s.native, s.answers), t, call);
    CallHanded(s.calls, s.replies, s.sent, s.answers, IsCancelled(s), t, call);
  }

  lemma AnswerHands(script: seq<Native>, s: State, t: nat, call: Call)
    requires Inv(script, s) && Pending(s, t) && call.phase.Returned?
    requires IsCancelled(s) || s.calls[t].phase.Asking? || (t in s.replies && s.replies[t] == call.phase.answer)
             || (t in s.place ==> |s.answers| <= s.place[t])
    ensures IsCancelled(s) || (forall i | 0 <= i < |s.answers| && i < |s.sent| && s.sent[i] == t ::
               HandsOn(s.calls[t := call], s.replies, t, s.answers[i]))
  {
    hide LockOk, FlowOk, CompletionOk, RepliesOk, Exhausted;
    if !IsCancelled(s) {
      forall i | 0 <= i < |s.answers| && i < |s.sent| && s.sent[i] == t
        ensures HandsOn(s.calls[t := call], s.replies, t, s.answers[i])
      {
        assert s.place[t] == i;
        assert HandsOn(s.calls, s.replies, t, s.answers[i]);
      }
    }
  }

  lemma NextInv(script: seq<Native>, s: State, t: nat)
    requires Inv(script, s)
    ensures Inv(script, NextCalled(s, t))
  {
    if t !in s.calls && !s.readerDropped {
      if s.reading.Some? {
        NewCallInv(script, s, t, Call(Returned(Failure(BodyInUse)), false), s.reading);
        assert s.reading != Some(t);
      } else if s.completion.Some? {
        NewCallInv(script, s, t, Call(Returned(CompletionAnswer(s.completion.value)), false), None);
      } else {
        NewCallInv(script, s, t, Call(Asking, false), Some(t));
      }
      hide Inv;
    }
  }

  lemma NewCallInv(script: seq<Native>, s: State, t: nat, call: Call, reading: Option<nat>)
    requires Inv(script, s) && t !in s.calls && !s.readerDropped
    requires if call.phase.Asking? then s.reading.None? && reading == Some(t) else call.phase.Returned? && reading == s.reading
    requires call.phase == Returned(Finished) ==> s.completion.Some? && s.completion.value.Ok?
    requires call.phase.Returned? ==> !call.phase.answer.Chunk?
    ensures Inv(script, s.(calls := s.calls[t := call], reading := reading))
  {
    var exhausted := Exhausted(s.consumed, s.native, s.answers);
    assert call.phase == Returned(Finished) ==> exhausted by {
      hide LockOk, SentOk, FlowOk, RepliesOk, HandedOn, Exhausted;
    }
    assert LockOk(s.calls[t := call], reading) by {
      hide SentOk, FlowOk, RepliesOk, HandedOn, Exhausted, CompletionOk;
    }
    assert t !in s.sent by {
      hide LockOk, FlowOk, RepliesOk, HandedOn, Exhausted, CompletionOk;
    }
    hide LockOk, SentOk, FlowOk, CompletionOk, RepliesOk, HandedOn, Exhausted;
    NewCallSent(s.calls, s.sent, s.served, s.place, s.command, s.worker, t, call);
    CallReplies(s.calls, s.replies, s.place, |s.served|, s.answers, exhausted, t, call);
    CallHanded(s.calls, s.replies, s.sent, s.answers, IsCancelled(s), t, call);
  }

  lemma CallBegunInv(script: seq<Native>, s: State, t: nat)
    requires Inv(script, s)
    ensures Inv(script, CallBegun(s, t))
  {
    hide Inv;
    if Pending(s, t) && !s.calls[t].polling {
      if IsCancelled(s) {
        AnsweredInv(script, s, t, Failure(ErrorOf(s)));
      } else {
        PhaseInv(script, s, t, s.calls[t].phase, true);
      }
    }
  }

  lemma SentLock(calls: Calls, reading: Option<nat>, t: nat)
    requires LockOk(calls, reading) && t in calls && calls[t].phase.Asking?
    ensures LockOk(calls[t := Call(Waiting, true)], reading)
    ensures forall u | u in calls && calls[u].phase.Waiting? :: false
  {
  }

  lemma SentSent(
      calls: Calls, reading: Option<nat>, sent: seq<nat>, served: seq<nat>, place: map<nat, nat>, worker: Worker, t: nat)
    requires SentOk(calls, sent, served, place, None, worker) && t in calls && calls[t].phase.Asking?
    requires forall u | u in calls && calls[u].phase.Waiting? :: false
    ensures SentOk(calls[t := Call(Waiting, true)], sent + [t], served, place[t := |sent|], Some(t), worker)
    ensures t !in place && t !in sent
  {
    assert t !in sent;
  }

  lemma SentReplies(
      calls: Calls, replies: map<nat, Answer>, place: map<nat, nat>, served: nat, answers: seq<seq<byte>>, exhausted: bool,
      t: nat, last: nat)
    requires RepliesOk(calls, replies, place, served, answers, exhausted) && t !in place
    ensures RepliesOk(calls[t := Call(Waiting, true)], replies, place[t := last], served, answers, exhausted)
  {
  }

  lemma SentHanded(calls: Calls, replies: map<nat, Answer>, sent: seq<nat>, answers: seq<seq<byte>>, excused: bool, t: nat)
    requires HandedOn(calls, replies, sent, answers, excused) && |answers| <= |sent| && t !in sent && t in calls
    ensures HandedOn(calls[t := Call(Waiting, true)], replies, sent + [t], answers, excused)
  {
    hide HandsOn;
    var more, after := sent + [t], calls[t := Call(Waiting, true)];
    if !excused {
      forall i | 0 <= i < |answers| && i < |more| && more[i] in after ensures HandsOn(after, replies, more[i], answers[i]) {
        assert more[i] == sent[i] && sent[i] != t;
        assert HandsOn(calls, replies, sent[i], answers[i]);
        OtherHandsOn(calls, after, replies, replies, sent[i], answers[i]);
      }
    }
  }

  lemma AnswersBehind(script: seq<Native>, s: State)
    requires Inv(script, s)
    ensures |s.answers| <= |s.served| <= |s.sent|
  {
    hide LockOk, CompletionOk, RepliesOk, HandedOn, Exhausted;
  }

  lemma CommandSentInv(script: seq<Native>, s: State, t: nat)
    requires Inv(script, s) && t in s.calls && s.calls[t].phase.Asking? && s.command.None?
    ensures Inv(script, CommandSent(s, t))
  {
    AnswersBehind(script, s);
    hide LockOk, SentOk, FlowOk, CompletionOk, RepliesOk, HandedOn, Exhausted;
    SentLock(s.calls, s.reading, t);
    SentSent(s.calls, s.reading, s.sent, s.served, s.place, s.worker, t);
    SentReplies(s.calls, s.replies, s.place, |s.served|, s.answers, Exhausted(s.consumed, s.native, s.answers), t, |s.sent|);
    SentHanded(s.calls, s.replies, s.sent, s.answers, IsCancelled(s), t);
  }

  /** A call that waits without a reply has not been answered, as long as the worker has not failed. */
  lemma UnansweredWaits(script: seq<Native>, s: State, t: nat)
    requires Inv(script, s) && t in s.calls && s.calls[t].phase.Waiting? && t !in s.replies
    ensures IsCancelled(s) || (t in s.place ==> |s.answers| <= s.place[t])
  {
    hide LockOk, CompletionOk, RepliesOk, Exhausted;
    AnswersBehind(script, s);
    if !IsCancelled(s) && t in s.place {
      assert s.place[t] < |s.answers| ==> HandsOn(s.calls, s.replies, t, s.answers[s.place[t]]);
    }
  }

  lemma CallActedInv(script: seq<Native>, s: State, t: nat)
    requires Inv(script, s)
    ensures Inv(script, CallActed(s, t))
  {
    if Pending(s, t) && s.calls[t].polling {
      if s.calls[t].phase.Waiting? && t in s.replies {
        assert AnswerOk(s.replies[t], t, s.place, s.answers, Exhausted(s.consumed, s.native, s.answers)) by {
          hide LockOk, SentOk, FlowOk, CompletionOk, HandedOn, Exhausted, AnswerOk;
        }
      }
      assert AnswerOk(Failure(ErrorOf(s)), t, s.place, s.answers, Exhausted(s.consumed, s.native, s.answers));
      hide Inv, AnswerOk;
      if s.calls[t].phase.Asking? {
        if s.worker.Stopped? {
          AnsweredInv(script, s, t, Failure(ErrorOf(s)));
        } else if s.command.None? {
          CommandSentInv(script, s, t);
        }
      } else if t in s.replies {
        AnsweredInv(script, s, t, s.replies[t]);
      } else if s.worker.Stopped? {
        UnansweredWaits(script, s, t);
        AnsweredInv(script, s, t, Failure(ErrorOf(s)));
      }
    }
  }

  lemma CallYieldedInv(script: seq<Native>, s: State, t: nat)
    requires Inv(script, s)
    ensures Inv(script, CallYielded(s, t))
  {
    hide Inv;
    if Pending(s, t) {
      PhaseInv(script, s, t, s.calls[t].phase, false);
    }
  }

  lemma CallDroppedInv(script: seq<Native>, s: State, t: nat)
    requires Inv(script, s)
    ensures Inv(script, CallDropped(s, t))
  {
    hide Inv;
    if Pending(s, t) && !s.calls[t].polling {
      PhaseInv(script, s, t, Dropping, false);
    }
  }

  lemma FailureInv(script: seq<Native>, s: State, error: Error)
    requires Inv(script, s)
    ensures Inv(script, s.(error := FirstOf(s.error, error)))
  {
    hide LockOk, SentOk, FlowOk, RepliesOk, Exhausted;
  }

  lemma CallDropFailedInv(script: seq<Native>, s: State, t: nat)
    requires Inv(script, s)
    ensures Inv(script, CallDropFailed(s, t))
  {
    if t in s.calls && s.calls[t].phase.Dropping? {
      FailureInv(script, s, Cancelled);
      var call := Call(Gone, false);
      hide LockOk, SentOk, FlowOk, RepliesOk, HandedOn, Exhausted;
      CallLock(s.calls, s.reading, t, call);
      CallSent(s.calls, s.sent, s.served, s.place, s.command, s.worker, t, call);
      CallReplies(s.calls, s.replies, s.place, |s.served|, s.answers, Exhausted(s.consumed, s.native, s.answers), t, call);
      ExcusedHands(s.calls[t := call], s.replies, s.sent, s.answers);
    }
  }

  lemma ExcusedHands(calls: Calls, replies: map<nat, Answer>, sent: seq<nat>, answers: seq<seq<byte>>)
    ensures HandedOn(calls, replies, sent, answers, true)
  {
  }

  // ----- the worker

  lemma WorkerFailedInv(script: seq<Native>, s: State, error: Error)
    requires LockOk(s.calls, s.reading) && SentOk(s.calls, s.sent, s.served, s.place, s.command, s.worker)
    requires FlowOk(script, s.consumed, s.native, s.trailers, Stopped, |s.served|, s.answers)
    requires RepliesOk(s.calls, s.replies, s.place, |s.served|, s.answers, Exhausted(s.consumed, s.native, s.answers))
    requires s.readerDropped ==> s.reading.None?
    ensures Inv(script, WorkerFailed(s, error))
  {
    assert SentOk(s.calls, s.sent, s.served, s.place, s.command, Stopped) by {
      hide LockOk, FlowOk, RepliesOk, Exhausted;
    }
    hide LockOk, SentOk, FlowOk, RepliesOk, HandedOn, Exhausted;
    ExcusedHands(s.calls, s.replies, s.sent, s.answers);
  }

  lemma StoppedFlow(
      script: seq<Native>, consumed: seq<Native>, native: seq<Native>, trailers: Fields, worker: Worker,
      served: nat, answers: seq<seq<byte>>)
    requires FlowOk(script, consumed, native, trailers, worker, served, answers)
    ensures FlowOk(script, consumed, native, trailers, Stopped, served, answers)
  {
  }

  lemma WorkerBegunInv(script: seq<Native>, s: State)
    requires Inv(script, s)
    ensures Inv(script, WorkerBegun(s))
  {
    hide LockOk, SentOk, FlowOk, RepliesOk, HandedOn, Exhausted, WorkerFailed, CompletionOk;
    if !s.worker.Stopped? && !s.active && IsCancelled(s) {
      StoppedFlow(script, s.consumed, s.native, s.trailers, s.worker, |s.served|, s.answers);
      WorkerFailedInv(script, s, ErrorOf(s));
    }
  }

  lemma TakenSent(calls: Calls, sent: seq<nat>, served: seq<nat>, place: map<nat, nat>, t: nat, worker: Worker)
    requires SentOk(calls, sent, served, place, Some(t), worker)
    ensures SentOk(calls, sent, served + [t], place, None, Serving(t))
  {
  }

  lemma MoreServed(
      calls: Calls, replies: map<nat, Answer>, place: map<nat, nat>, served: nat, answers: seq<seq<byte>>, exhausted: bool, more: bool)
    requires RepliesOk(calls, replies, place, served, answers, exhausted) && (exhausted ==> more)
    ensures RepliesOk(calls, replies, place, served + 1, answers, more) && RepliesOk(calls, replies, place, served, answers, more)
  {
  }

  /** The worker that has no read to serve any more. */
  lemma IdleSent(calls: Calls, sent: seq<nat>, served: seq<nat>, place: map<nat, nat>, command: Option<nat>, worker: Worker)
    requires SentOk(calls, sent, served, place, command, worker)
    ensures SentOk(calls, sent, served, place, command, Idle) && SentOk(calls, sent, served, place, command, Stopped)
  {
  }

  lemma TakenFlow(
      script: seq<Native>, consumed: seq<Native>, native: seq<Native>, trailers: Fields, served: nat, answers: seq<seq<byte>>, t: nat)
    requires FlowOk(script, consumed, native, trailers, Idle, served, answers)
    ensures FlowOk(script, consumed, native, trailers, Serving(t), served + 1, answers)
  {
    hide DataOf, FieldsOf;
  }

  lemma CommandTakenInv(script: seq<Native>, s: State)
    requires Inv(script, s) && s.worker.Idle? && s.active
    ensures Inv(script, CommandTaken(s))
  {
    hide LockOk, SentOk, FlowOk, RepliesOk, HandedOn, Exhausted, WorkerFailed;
    if s.command.Some? {
      TakenSent(s.calls, s.sent, s.served, s.place, s.command.value, s.worker);
      TakenFlow(script, s.consumed, s.native, s.trailers, |s.served|, s.answers, s.command.value);
      var exhausted := Exhausted(s.consumed, s.native, s.answers);
      MoreServed(s.calls, s.replies, s.place, |s.served|, s.answers, exhausted, exhausted);
    } else if s.readerDropped {
      StoppedFlow(script, s.consumed, s.native, s.trailers, s.worker, |s.served|, s.answers);
      WorkerFailedInv(script, s, Cancelled);
    }
  }

  /** The flow after one more frame was consumed; a data frame counts once it was heard. */
  lemma ConsumedFlow(script: seq<Native>, s: State, t: nat)
    requires FlowOk(script, s.consumed, s.native, s.trailers, Serving(t), |s.served|, s.answers) && s.native != []
    ensures var n, frame := Consumed(s), s.native[0];
            && (frame.Data? ==>
                  && FlowOk(script, n.consumed, n.native, s.trailers, Idle, |s.served|, s.answers + [frame.bytes])
                  && FlowOk(script, n.consumed, n.native, s.trailers, Stopped, |s.served|, s.answers))
            && (frame.FieldsFrame? ==> FlowOk(script, n.consumed, n.native, s.trailers + frame.fields, Serving(t), |s.served|, s.answers))
            && (frame.Unknown? ==> FlowOk(script, n.consumed, n.native, s.trailers, Serving(t), |s.served|, s.answers))
            && (frame.Broken? ==> FlowOk(script, n.consumed, n.native, s.trailers, Stopped, |s.served|, s.answers))
  {
    FrameAppend(s.consumed, s.native[0]);
    assert s.consumed + s.native == (s.consumed + [s.native[0]]) + s.native[1..];
  }

  /** A reply for the read that is served, whose place is the last. */
  lemma RepliedReplies(
      calls: Calls, replies: map<nat, Answer>, place: map<nat, nat>, served: nat, answers: seq<seq<byte>>, exhausted: bool,
      t: nat, answer: Answer, more: seq<seq<byte>>)
    requires RepliesOk(calls, replies, place, served, answers, exhausted) && answers <= more
    requires t in place && place[t] < served && AnswerOk(answer, t, place, more, exhausted)
    ensures RepliesOk(calls, replies[t := answer], place, served, more, exhausted)
  {
  }

  lemma RepliedHanded(
      calls: Calls, replies: map<nat, Answer>, sent: seq<nat>, answers: seq<seq<byte>>, excused: bool, t: nat, answer: Answer, k: nat)
    requires HandedOn(calls, replies, sent, answers, excused) && t in calls && calls[t].phase.Waiting?
    requires k < |sent| && sent[k] == t && (forall i | 0 <= i < |sent| && i != k :: sent[i] != t) && |answers| <= k
    ensures HandedOn(calls, replies[t := answer], sent, answers, excused)
    ensures answer.Chunk? && |answers| == k ==> HandedOn(calls, replies[t := answer], sent, answers + [answer.bytes], excused)
  {
    assert answer.Chunk? ==> HandsOn(calls, replies[t := answer], t, answer.bytes);
    hide HandsOn;
    if !excused {
      forall i | 0 <= i < |answers| && sent[i] in calls ensures HandsOn(calls, replies[t := answer], sent[i], answers[i]) {
        assert HandsOn(calls, replies, sent[i], answers[i]);
        OtherHandsOn(calls, calls, replies, replies[t := answer], sent[i], answers[i]);
      }
    }
  }

  /** The read that is served has the last place among those served. */
  lemma ServedPlace(script: seq<Native>, s: State, t: nat)
    requires Inv(script, s) && (s.worker == Serving(t) || s.worker == Ending(t))
    ensures t in s.place && s.place[t] == |s.served| - 1 == |s.answers| && s.served != []
    ensures |s.served| - 1 < |s.sent| && s.sent[|s.served| - 1] == t
    ensures forall i | 0 <= i < |s.sent| && i != |s.served| - 1 :: s.sent[i] != t
  {
    hide LockOk, CompletionOk, RepliesOk, HandedOn, Exhausted;
    assert s.sent[|s.served| - 1] == s.served[|s.served| - 1];
  }

  lemma NotExhausted(s: State)
    requires s.native != []
    ensures !Exhausted(s.consumed, s.native, s.answers)
  {
  }

  lemma DataHeardInv(script: seq<Native>, s: State, t: nat)
    requires Inv(script, s) && s.worker == Serving(t) && s.native != [] && s.native[0].Data? && Hears(s, t)
    ensures Inv(script, FrameServed(s, t))
  {
    hide LockOk, SentOk, FlowOk, RepliesOk, HandedOn, Exhausted;
    var n, bytes, k := Consumed(s), s.native[0].bytes, |s.served| - 1;
    ServedPlace(script, s, t);
    ConsumedFlow(script, s, t);
    NotExhausted(s);
    IdleSent(s.calls, s.sent, s.served, s.place, s.command, s.worker);
    var exhausted := Exhausted(n.consumed, n.native, s.answers + [bytes]);
    MoreServed(s.calls, s.replies, s.place, |s.served|, s.answers, false, exhausted);
    ChunkReplies(s, t, bytes, exhausted);
    RepliedHanded(s.calls, s.replies, s.sent, s.answers, IsCancelled(s), t, Chunk(bytes), k);
  }

  lemma ChunkReplies(s: State, t: nat, bytes: seq<byte>, exhausted: bool)
    requires RepliesOk(s.calls, s.replies, s.place, |s.served|, s.answers, exhausted)
    requires t in s.place && s.place[t] == |s.served| - 1 == |s.answers|
    ensures RepliesOk(s.calls, s.replies[t := Chunk(bytes)], s.place, |s.served|, s.answers + [bytes], exhausted)
  {
    hide RepliesOk;
    assert AnswerOk(Chunk(bytes), t, s.place, s.answers + [bytes], exhausted);
    RepliedReplies(s.calls, s.replies, s.place, |s.served|, s.answers, exhausted, t, Chunk(bytes), s.answers + [bytes]);
  }

  lemma DataLostInv(script: seq<Native>, s: State, t: nat)
    requires Inv(script, s) && s.worker == Serving(t) && s.native != [] && s.native[0].Data? && !Hears(s, t)
    ensures Inv(script, FrameServed(s, t))
  {
    var n := Consumed(s);
    ConsumedFlow(script, s, t);
    assert !Exhausted(s.consumed, s.native, s.answers);
    hide LockOk, SentOk, FlowOk, RepliesOk, HandedOn, Exhausted, WorkerFailed;
    MoreServed(s.calls, s.replies, s.place, |s.served|, s.answers, false, Exhausted(n.consumed, n.native, n.answers));
    WorkerFailedInv(script, n, Cancelled);
  }

  lemma BrokenInv(script: seq<Native>, s: State, t: nat)
    requires Inv(script, s) && s.worker == Serving(t) && s.native != [] && s.native[0].Broken?
    ensures Inv(script, FrameServed(s, t))
  {
    var n, answer := Consumed(s), Failure(s.native[0].error);
    ConsumedFlow(script, s, t);
    ServedPlace(script, s, t);
    assert !Exhausted(s.consumed, s.native, s.answers);
    hide LockOk, SentOk, FlowOk, RepliesOk, HandedOn, Exhausted, WorkerFailed;
    var exhausted := Exhausted(n.consumed, n.native, n.answers);
    MoreServed(s.calls, s.replies, s.place, |s.served|, s.answers, false, exhausted);
    RepliedReplies(s.calls, s.replies, s.place, |s.served|, s.answers, exhausted, t, answer, s.answers);
    WorkerFailedInv(script, Replied(n, t, answer), s.native[0].error);
  }

  lemma OtherFrameInv(script: seq<Native>, s: State, t: nat)
    requires Inv(script, s) && s.worker == Serving(t) && s.native != [] && (s.native[0].FieldsFrame? || s.native[0].Unknown?)
    ensures Inv(script, FrameServed(s, t))
  {
    var n := Consumed(s);
    ConsumedFlow(script, s, t);
    assert !Exhausted(s.consumed, s.native, s.answers);
    hide LockOk, SentOk, FlowOk, RepliesOk, HandedOn, Exhausted;
    MoreServed(s.calls, s.replies, s.place, |s.served|, s.answers, false, Exhausted(n.consumed, n.native, n.answers));
  }

  lemma EndReachedInv(script: seq<Native>, s: State, t: nat)
    requires Inv(script, s) && s.worker == Serving(t) && s.native == []
    ensures Inv(script, s.(worker := Ending(t), completion := Some(Ok(s.trailers))))
  {
    hide LockOk, RepliesOk, HandedOn;
  }

  lemma FinishedReplies(script: seq<Native>, s: State, t: nat)
    requires Inv(script, s) && s.worker == Ending(t) && t in s.place && s.place[t] < |s.served|
    ensures RepliesOk(s.calls, s.replies[t := Finished], s.place, |s.served|, s.answers, Exhausted(s.consumed, s.native, s.answers))
  {
    hide LockOk, SentOk, FlowOk, RepliesOk, HandedOn, Exhausted;
    RepliedReplies(s.calls, s.replies, s.place, |s.served|, s.answers, Exhausted(s.consumed, s.native, s.answers), t, Finished, s.answers);
  }

  lemma EndToldInv(script: seq<Native>, s: State, t: nat)
    requires Inv(script, s) && s.worker == Ending(t)
    ensures Inv(script, EndTold(s, t))
  {
    hide LockOk, SentOk, FlowOk, RepliesOk, HandedOn, Exhausted, WorkerFailed;
    ServedPlace(script, s, t);
    StoppedFlow(script, s.consumed, s.native, s.trailers, s.worker, |s.served|, s.answers);
    if Hears(s, t) {
      IdleSent(s.calls, s.sent, s.served, s.place, s.command, s.worker);
      FinishedReplies(script, s, t);
      RepliedHanded(s.calls, s.replies, s.sent, s.answers, IsCancelled(s), t, Finished, |s.served| - 1);
    } else {
      WorkerFailedInv(script, s, Cancelled);
    }
  }

  lemma WorkerActedInv(script: seq<Native>, s: State)
    requires Inv(script, s)
    ensures Inv(script, WorkerActed(s))
  {
    hide Inv, CommandTaken, FrameServed, EndTold;
    if s.active {
      match s.worker
      case Idle => CommandTakenInv(script, s);
      case Serving(t) =>
        if s.native == [] {
          EndReachedInv(script, s, t);
        } else if s.native[0].Data? {
          if Hears(s, t) {
            DataHeardInv(script, s, t);
          } else {
            DataLostInv(script, s, t);
          }
        } else if s.native[0].Broken? {
          BrokenInv(script, s, t);
        } else {
          OtherFrameInv(script, s, t);
        }
      case Ending(t) => EndToldInv(script, s, t);
      case Stopped =>
    }
  }

  lemma WorkerDroppedInv(script: seq<Native>, s: State)
    requires Inv(script, s)
    ensures Inv(script, s.(worker := Stopped))
  {
    hide LockOk, SentOk, FlowOk, RepliesOk, HandedOn, Exhausted;
    IdleSent(s.calls, s.sent, s.served, s.place, s.command, s.worker);
    StoppedFlow(script, s.consumed, s.native, s.trailers, s.worker, |s.served|, s.answers);
  }

  lemma ReaderGoneInv(script: seq<Native>, s: State)
    requires Inv(script, s) && s.reading.None?
    ensures Inv(script, s.(readerDropped := true))
  {
    hide LockOk, SentOk, FlowOk, RepliesOk, HandedOn, Exhausted, CompletionOk;
  }

  lemma ReaderDroppedInv(script: seq<Native>, s: State)
    requires Inv(script, s)
    ensures Inv(script, ReaderDropped(s))
  {
    hide Inv;
    if !s.readerDropped && s.reading.None? {
      ReaderGoneInv(script, s);
      FailureInv(script, s.(readerDropped := true), Cancelled);
    }
  }

  lemma OwnerCancelInv(script: seq<Native>, s: State)
    requires Inv(script, s)
    ensures Inv(script, s.(ownerCancelled := true))
  {
    hide LockOk, SentOk, FlowOk, RepliesOk, HandedOn, Exhausted, CompletionOk;
    ExcusedHands(s.calls, s.replies, s.sent, s.answers);
  }

  lemma StepInv(script: seq<Native>, s: State, step: Step)
    requires Inv(script, s)
    ensures Inv(script, StepOf(s, step))
  {
    hide NextCalled, CallBegun, CallActed, CallYielded, CallDropped, CallDropFailed, WorkerBegun, WorkerActed, ReaderDropped;
    match step
    case Next(t) => NextInv(script, s, t);
    case CallBegin(t) => CallBegunInv(script, s, t);
    case CallAct(t) => CallActedInv(script, s, t);
    case CallYield(t) => CallYieldedInv(script, s, t);
    case CallDrop(t) => CallDroppedInv(script, s, t);
    case CallDropFail(t) => CallDropFailedInv(script, s, t);
    case WorkerBegin => WorkerBegunInv(script, s);
    case WorkerAct => WorkerActedInv(script, s);
    case WorkerYield =>
      assert Inv(script, s.(active := false)) by {
        hide LockOk, SentOk, FlowOk, RepliesOk, HandedOn, Exhausted, CompletionOk;
      }
      hide Inv;
    case WorkerDrop => WorkerDroppedInv(script, s);
      hide Inv;
    case Fail(error) => FailureInv(script, s, error);
      hide Inv;
    case OwnerCancel => OwnerCancelInv(script, s);
      hide Inv;
    case DropReader => ReaderDroppedInv(script, s);
      hide Inv;
  }

  lemma {:induction false} RunInv(script: seq<Native>, s: State, steps: seq<Step>)
    requires Inv(script, s)
    ensures Inv(script, RunOf(s, steps))
    decreases |steps|
  {
    hide Inv, StepOf;
    if steps != [] {
      StepInv(script, s, steps[0]);
      RunInv(script, StepOf(s, steps[0]), steps[1..]);
    }
  }
}

/** What callers of `next` and `trailers` may rely on. */
module ReaderPromises {
  import opened Wrappers
  import opened Streams
  import opened ReaderModel
  import opened ReaderSafety

  lemma DataWithin(script: seq<Native>, s: State)
    requires Inv(script, s)
    ensures s.answers <= DataOf(s.consumed) <= DataOf(script) && |s.answers| <= |s.served| <= |s.sent|
  {
    hide LockOk, CompletionOk, RepliesOk, HandedOn, Exhausted, DataOf;
    DataPrefix(s.consumed, s.native);
  }

  /**
   Reads are demand-driven and one at a time: no more data frames were taken from the native body than reads were served,
   and of all calls under way at most one is neither returned nor dropped.
   */
  lemma ReadsOnDemand(script: seq<Native>, steps: seq<Step>)
    ensures var s := RunOf(StartOf(script), steps);
            && script == s.consumed + s.native && |DataOf(s.consumed)| <= |s.served| && s.served <= s.sent
            && (s.worker.Idle? ==> |DataOf(s.consumed)| == |s.served|)
            && (forall t, u | t in s.calls && u in s.calls && Locked(s.calls[t].phase) && Locked(s.calls[u].phase) :: t == u)
  {
    StartInv(script);
    RunInv(script, StartOf(script), steps);
    hide RunOf, CompletionOk, RepliesOk, HandedOn, Exhausted, DataOf;
  }

  /**
   Successive reads return the data frames in order, without loss or repetition: the read whose command was sent i-th
   can return only the i-th frame, and as long as nothing failed, was cancelled or is being dropped, every heard frame
   was returned, or is about to be by the read that waits for it.
   */
  lemma ReadsInOrder(script: seq<Native>, steps: seq<Step>)
    ensures var s := RunOf(StartOf(script), steps);
            && (forall i, j | 0 <= i < j < |s.sent| :: s.sent[i] != s.sent[j])
            && (forall t, bytes | t in s.calls && s.calls[t].phase == Returned(Chunk(bytes)) ::
                  exists i | 0 <= i < |s.sent| && i < |DataOf(script)| :: s.sent[i] == t && DataOf(script)[i] == bytes)
            && (!IsCancelled(s) ==>
                  forall i | 0 <= i < |s.answers| && i < |s.sent| && i < |DataOf(script)| && s.sent[i] in s.calls ::
                    s.calls[s.sent[i]].phase in {Returned(Chunk(DataOf(script)[i])), Waiting, Dropping})
  {
    StartInv(script);
    RunInv(script, StartOf(script), steps);
    var s := RunOf(StartOf(script), steps);
    DataWithin(script, s);
    hide RunOf, DataOf, LockOk, FlowOk, CompletionOk, Exhausted;
    forall t, bytes | t in s.calls && s.calls[t].phase == Returned(Chunk(bytes))
      ensures exists i | 0 <= i < |s.sent| && i < |DataOf(script)| :: s.sent[i] == t && DataOf(script)[i] == bytes
    {
      assert AnswerOk(Chunk(bytes), t, s.place, s.answers, Exhausted(s.consumed, s.native, s.answers));
      var i := s.place[t];
      assert s.sent[i] == t && DataOf(script)[i] == bytes;
    }
    if !IsCancelled(s) {
      forall i | 0 <= i < |s.answers| && i < |s.sent| && i < |DataOf(script)| && s.sent[i] in s.calls
        ensures s.calls[s.sent[i]].phase in {Returned(Chunk(DataOf(script)[i])), Waiting, Dropping}
      {
        assert HandsOn(s.calls, s.replies, s.sent[i], s.answers[i]);
      }
    }
  }

  /** Once a read returned the end, the native body was read whole, without an error, and each frame was answered. */
  lemma EndMeansAll(script: seq<Native>, steps: seq<Step>)
    ensures var s := RunOf(StartOf(script), steps);
            (exists t | t in s.calls :: s.calls[t].phase == Returned(Finished)) ==>
              s.native == [] && s.consumed == script && Intact(script) && s.answers == DataOf(script)
  {
    StartInv(script);
    RunInv(script, StartOf(script), steps);
    var s := RunOf(StartOf(script), steps);
    hide RunOf, DataOf, LockOk, SentOk, CompletionOk, HandedOn;
    if t :| t in s.calls && s.calls[t].phase == Returned(Finished) {
      assert AnswerOk(Finished, t, s.place, s.answers, Exhausted(s.consumed, s.native, s.answers));
    }
  }

  /** Successful trailers are all trailer fields of the body in order, and a body that failed never has any. */
  lemma TrailersAreAll(script: seq<Native>, steps: seq<Step>)
    ensures var s := RunOf(StartOf(script), steps);
            var answer := TrailersAnswer(s);
            && (answer.Some? && answer.value.Ok? ==> answer.value.value == FieldsOf(script) && s.consumed == script && Intact(script))
            && (s.completion.Some? && s.completion.value.Err? ==> s.error.Some?)
  {
    StartInv(script);
    RunInv(script, StartOf(script), steps);
    hide RunOf, DataOf, FieldsOf, LockOk, SentOk, RepliesOk, HandedOn;
    var s := RunOf(StartOf(script), steps);
    if s.native == [] {
      assert s.consumed + s.native == s.consumed;
    }
  }

  // ----- the end

  ghost predicate CompletedOk(s: State) {
    s.completion.Some? && s.completion.value.Ok?
  }

  /** The successful completion was told to the read that reached it, and the worker is gone. */
  ghost predicate Settled(s: State) {
    s.worker.Stopped? && CompletedOk(s)
  }

  /** No read was told the end before the completion was settled. */
  ghost predicate ToldOk(replies: map<nat, Answer>, settled: bool) {
    settled || forall t | t in replies :: replies[t] != Finished
  }

  /** A read that sent its command returns the end only as the worker's reply. */
  ghost predicate OwnReply(calls: Calls, place: map<nat, nat>, replies: map<nat, Answer>) {
    forall t | t in calls && t in place && calls[t].phase == Returned(Finished) :: t in replies && replies[t] == Finished
  }

  ghost predicate EndInv(s: State) {
    && (s.worker.Ending? ==> s.active)
    && ToldOk(s.replies, Settled(s))
    && OwnReply(s.calls, s.place, s.replies)
  }

  /** What a step of a call leaves alone. */
  ghost predicate WorkerUntouched(s: State, n: State) {
    n.worker == s.worker && n.active == s.active && n.completion == s.completion && n.replies == s.replies
  }

  lemma OwnCall(calls: Calls, place: map<nat, nat>, replies: map<nat, Answer>, t: nat, call: Call)
    requires OwnReply(calls, place, replies)
    requires call.phase == Returned(Finished) && t in place ==> t in replies && replies[t] == Finished
    ensures OwnReply(calls[t := call], place, replies)
  {
  }

  lemma AnsweredEnd(s: State, t: nat, answer: Answer)
    requires EndInv(s) && (answer == Finished && t in s.place ==> t in s.replies && s.replies[t] == Finished)
    ensures EndInv(Answered(s, t, answer)) && WorkerUntouched(s, Answered(s, t, answer))
  {
    hide ToldOk, OwnReply;
    OwnCall(s.calls, s.place, s.replies, t, Call(Returned(answer), false));
  }

  lemma PhaseEnd(s: State, t: nat, phase: Phase, polling: bool)
    requires EndInv(s) && !phase.Returned?
    ensures EndInv(WithCall(s, t, phase, polling)) && WorkerUntouched(s, WithCall(s, t, phase, polling))
  {
    hide ToldOk, OwnReply;
    OwnCall(s.calls, s.place, s.replies, t, Call(phase, polling));
  }

  lemma CommandSentEnd(s: State, t: nat)
    requires EndInv(s)
    ensures EndInv(CommandSent(s, t)) && WorkerUntouched(s, CommandSent(s, t))
  {
    hide ToldOk;
  }

  lemma NextEnd(script: seq<Native>, s: State, t: nat)
    requires Inv(script, s) && EndInv(s)
    ensures EndInv(NextCalled(s, t)) && WorkerUntouched(s, NextCalled(s, t))
  {
    hide EndInv, Answered, WithCall, FlowOk, LockOk, CompletionOk, RepliesOk, HandedOn, Exhausted;
    if t !in s.calls && !s.readerDropped {
      assert t !in s.place;
      if s.reading.Some? {
        AnsweredEnd(s, t, Failure(BodyInUse));
      } else if s.completion.Some? {
        AnsweredEnd(s, t, CompletionAnswer(s.completion.value));
      } else {
        AskedEnd(s, t);
      }
    }
  }

  lemma AskedEnd(s: State, t: nat)
    requires EndInv(s)
    ensures var n := WithCall(s, t, Asking, false).(reading := Some(t)); EndInv(n) && WorkerUntouched(s, n)
  {
    hide ToldOk;
  }

  lemma CallActedEnd(s: State, t: nat)
    requires EndInv(s)
    ensures EndInv(CallActed(s, t)) && WorkerUntouched(s, CallActed(s, t))
  {
    hide EndInv, Answered, CommandSent;
    if Pending(s, t) && s.calls[t].polling {
      AnsweredEnd(s, t, Failure(ErrorOf(s)));
      CommandSentEnd(s, t);
      if t in s.replies {
        AnsweredEnd(s, t, s.replies[t]);
      }
    }
  }

  lemma CallEnd(s: State, t: nat)
    requires EndInv(s)
    ensures EndInv(CallBegun(s, t)) && WorkerUntouched(s, CallBegun(s, t))
    ensures EndInv(CallYielded(s, t)) && WorkerUntouched(s, CallYielded(s, t))
    ensures EndInv(CallDropped(s, t)) && WorkerUntouched(s, CallDropped(s, t))
  {
    hide EndInv, Answered, WithCall;
    if Pending(s, t) {
      AnsweredEnd(s, t, Failure(ErrorOf(s)));
      PhaseEnd(s, t, s.calls[t].phase, true);
      PhaseEnd(s, t, s.calls[t].phase, false);
      PhaseEnd(s, t, Dropping, false);
    }
  }

  lemma CallDropFailedEnd(s: State, t: nat)
    requires EndInv(s)
    ensures EndInv(CallDropFailed(s, t)) && WorkerUntouched(s, CallDropFailed(s, t))
  {
    hide ToldOk;
  }

  lemma WorkerFailedEnd(s: State, error: Error)
    requires ToldOk(s.replies, false) && OwnReply(s.calls, s.place, s.replies)
    ensures EndInv(WorkerFailed(s, error))
  {
    hide OwnReply;
  }

  /** A reply goes to a read that waits, and so to none that has returned. */
  lemma RepliedEnd(s: State, t: nat, answer: Answer)
    requires EndInv(s) && !s.worker.Stopped?
    ensures var n := Replied(s, t, answer);
            && (answer != Finished ==> ToldOk(n.replies, false)) && OwnReply(n.calls, n.place, n.replies)
  {
  }

  lemma FrameServedEnd(s: State, t: nat)
    requires EndInv(s) && s.worker == Serving(t) && s.native != []
    ensures EndInv(FrameServed(s, t))
  {
    hide ToldOk, OwnReply, WorkerFailed, Replied;
    var c := Consumed(s);
    assert EndInv(c);
    match s.native[0]
    case Data(bytes) => DataServedEnd(c, t, bytes);
    case FieldsFrame(fields) =>
    case Unknown =>
    case Broken(error) =>
      RepliedEnd(c, t, Failure(error));
      WorkerFailedEnd(Replied(c, t, Failure(error)), error);
  }

  lemma DataServedEnd(s: State, t: nat, bytes: seq<byte>)
    requires EndInv(s) && s.worker == Serving(t)
    ensures EndInv(DataServed(s, t, bytes))
  {
    hide ToldOk, OwnReply, WorkerFailed, Replied;
    RepliedEnd(s, t, Chunk(bytes));
    UntoldYet(s.replies);
    WorkerFailedEnd(s, Cancelled);
  }

  lemma UntoldYet(replies: map<nat, Answer>)
    ensures ToldOk(replies, true)
  {
  }

  lemma EndToldEnd(s: State, t: nat)
    requires EndInv(s) && s.worker == Ending(t) && CompletedOk(s)
    ensures EndInv(EndTold(s, t))
  {
    hide ToldOk, OwnReply, WorkerFailed;
    if Hears(s, t) {
      RepliedEnd(s, t, Finished);
      UntoldYet(Replied(s, t, Finished).replies);
    } else {
      WorkerFailedEnd(s, Cancelled);
    }
  }

  lemma WorkerActedEnd(script: seq<Native>, s: State)
    requires Inv(script, s) && EndInv(s)
    ensures EndInv(WorkerActed(s))
  {
    hide ToldOk, OwnReply, WorkerFailed, FrameServed, EndTold, LockOk, SentOk, FlowOk, RepliesOk, HandedOn, Exhausted;
    if s.active {
      match s.worker
      case Idle => WorkerFailedEnd(s, Cancelled);
      case Serving(t) =>
        if s.native != [] {
          FrameServedEnd(s, t);
        }
      case Ending(t) => EndToldEnd(s, t);
      case Stopped =>
    }
  }

  lemma WorkerBegunEnd(s: State)
    requires EndInv(s)
    ensures EndInv(WorkerBegun(s))
  {
    hide ToldOk, OwnReply, WorkerFailed;
    if !s.worker.Stopped? {
      WorkerFailedEnd(s, ErrorOf(s));
    }
  }

  lemma WorkerDroppedEnd(s: State)
    requires EndInv(s)
    ensures EndInv(s.(worker := Stopped))
  {
  }

  lemma ReaderDroppedEnd(s: State)
    requires EndInv(s)
    ensures EndInv(ReaderDropped(s))
  {
    hide ToldOk, OwnReply;
  }

  lemma EndStep(script: seq<Native>, s: State, step: Step)
    requires Inv(script, s) && EndInv(s)
    ensures EndInv(StepOf(s, step))
  {
    hide Inv, NextCalled, CallBegun, CallActed, CallYielded, CallDropped, CallDropFailed, WorkerBegun, WorkerActed, ReaderDropped;
    hide ToldOk, OwnReply;
    match step
    case Next(t) => NextEnd(script, s, t);
    case CallBegin(t) => CallEnd(s, t);
    case CallAct(t) => CallActedEnd(s, t);
    case CallYield(t) => CallEnd(s, t);
    case CallDrop(t) => CallEnd(s, t);
    case CallDropFail(t) => CallDropFailedEnd(s, t);
    case WorkerBegin => WorkerBegunEnd(s);
    case WorkerAct => WorkerActedEnd(script, s);
    case WorkerYield =>
    case WorkerDrop => WorkerDroppedEnd(s);
    case Fail(error) =>
    case OwnerCancel =>
    case DropReader => ReaderDroppedEnd(s);
  }

  lemma {:induction false} EndRun(script: seq<Native>, s: State, steps: seq<Step>)
    requires Inv(script, s) && EndInv(s)
    ensures EndInv(RunOf(s, steps))
    decreases |steps|
  {
    hide Inv, EndInv, StepOf;
    if steps != [] {
      StepInv(script, s, steps[0]);
      EndStep(script, s, steps[0]);
      EndRun(script, StepOf(s, steps[0]), steps[1..]);
    }
  }

  lemma ReachedEnd(script: seq<Native>, steps: seq<Step>)
    ensures var s := RunOf(StartOf(script), steps); Inv(script, s) && EndInv(s)
  {
    hide Inv, RunOf;
    StartInv(script);
    assert EndInv(StartOf(script));
    hide EndInv;
    RunInv(script, StartOf(script), steps);
    EndRun(script, StartOf(script), steps);
  }

  /** Once it is settled nothing replaces the completion. */
  lemma SettledStep(script: seq<Native>, s: State, step: Step)
    requires Inv(script, s) && EndInv(s) && Settled(s)
    ensures var n := StepOf(s, step); Settled(n) && n.completion == s.completion
  {
    hide Inv, EndInv, NextCalled, CallBegun, CallActed, CallYielded, CallDropped, CallDropFailed, ReaderDropped;
    match step
    case Next(t) => NextEnd(script, s, t);
    case CallBegin(t) => CallEnd(s, t);
    case CallAct(t) => CallActedEnd(s, t);
    case CallYield(t) => CallEnd(s, t);
    case CallDrop(t) => CallEnd(s, t);
    case CallDropFail(t) => CallDropFailedEnd(s, t);
    case WorkerBegin =>
    case WorkerAct =>
    case WorkerYield =>
    case WorkerDrop =>
    case Fail(error) =>
    case OwnerCancel =>
    case DropReader => ReaderDroppedKeeps(s);
  }

  lemma ReaderDroppedKeeps(s: State)
    ensures WorkerUntouched(s, ReaderDropped(s))
  {
  }

  lemma {:induction false} SettledRun(script: seq<Native>, s: State, steps: seq<Step>)
    requires Inv(script, s) && EndInv(s) && Settled(s)
    ensures var n := RunOf(s, steps); Settled(n) && n.completion == s.completion
    decreases |steps|
  {
    hide Inv, EndInv, StepOf;
    if steps != [] {
      StepInv(script, s, steps[0]);
      EndStep(script, s, steps[0]);
      SettledStep(script, s, steps[0]);
      SettledRun(script, StepOf(s, steps[0]), steps[1..]);
    }
  }

  lemma {:induction false} RunIsTrace(s: State, steps: seq<Step>, states: seq<State>)
    requires |states| == |steps| + 1 && states[0] == s
    requires forall i | 0 <= i < |steps| :: states[i + 1] == StepOf(states[i], steps[i])
    ensures RunOf(s, steps) == states[|steps|]
    decreases |steps|
  {
    hide StepOf;
    if steps != [] {
      assert states[1] == StepOf(states[0], steps[0]);
      forall i | 0 <= i < |steps[1..]| ensures states[1..][i + 1] == StepOf(states[1..][i], steps[1..][i]) {
        assert states[i + 2] == StepOf(states[i + 1], steps[i + 1]);
      }
      RunIsTrace(states[1], steps[1..], states[1..]);
    }
  }

  /** Before the read is told, its caller can still drop it, and then the completion becomes an error. */
  lemma UntoldIsLost(s: State, t: nat)
    requires s.worker == Ending(t) && s.active
    ensures !CompletedOk(RunOf(s, [CallYield(t), CallDrop(t), WorkerAct]))
  {
    hide StepOf, EndTold;
    var a := StepOf(s, CallYield(t));
    var b := StepOf(a, CallDrop(t));
    YieldAndDrop(s, t);
    UnheardEnd(b, t);
    RunIsTrace(s, [CallYield(t), CallDrop(t), WorkerAct], [s, a, b, StepOf(b, WorkerAct)]);
  }

  lemma YieldAndDrop(s: State, t: nat)
    ensures var b := StepOf(StepOf(s, CallYield(t)), CallDrop(t)); b.worker == s.worker && b.active == s.active && !Hears(b, t)
  {
  }

  lemma UnheardEnd(s: State, t: nat)
    requires s.worker == Ending(t) && s.active && !Hears(s, t)
    ensures !CompletedOk(StepOf(s, WorkerAct))
  {
  }

  /**
   A successful completion is kept by every continuation exactly when the worker has told it and stopped; until then a
   continuation that drops the read turns it into an error.
   */
  lemma CompletionKeptExactly(script: seq<Native>, steps: seq<Step>)
    ensures var s := RunOf(StartOf(script), steps);
            CompletedOk(s) ==> ((forall more :: CompletedOk(RunOf(s, more))) <==> s.worker.Stopped?)
    ensures var s := RunOf(StartOf(script), steps);
            Settled(s) ==> forall more :: RunOf(s, more).completion == s.completion
  {
    hide RunOf;
    ReachedEnd(script, steps);
    var s := RunOf(StartOf(script), steps);
    assert CompletedOk(s) ==> s.worker.Stopped? || (s.worker.Ending? && s.active) by {
      hide LockOk, SentOk, FlowOk, RepliesOk, HandedOn, Exhausted, ToldOk, OwnReply;
    }
    hide Inv, EndInv;
    if CompletedOk(s) && !s.worker.Stopped? {
      UntoldIsLost(s, s.worker.reader);
    }
    if Settled(s) {
      forall more ensures CompletedOk(RunOf(s, more)) && RunOf(s, more).completion == s.completion {
        SettledRun(script, s, more);
      }
    }
  }

  /**
   Once a read that sent its command has returned the end, every run from there keeps the trailers, and each read that
   finds no other under way returns the end at once.
   */
  lemma EndIsForGood(script: seq<Native>, steps: seq<Step>, t: nat, more: seq<Step>, u: nat)
    requires var s := RunOf(StartOf(script), steps); t in s.calls && t in s.place && s.calls[t].phase == Returned(Finished)
    ensures var n := RunOf(RunOf(StartOf(script), steps), more);
            && TrailersAnswer(n) == Some(Ok(FieldsOf(script)))
            && (u !in n.calls && n.reading.None? && !n.readerDropped ==>
                  StepOf(n, Next(u)).calls == n.calls[u := Call(Returned(Finished), false)])
  {
    hide RunOf, FieldsOf, StepOf, NextCalled;
    ReachedEnd(script, steps);
    TrailersAreAll(script, steps);
    var s := RunOf(StartOf(script), steps);
    assert Settled(s);
    hide Inv, EndInv;
    SettledRun(script, s, more);
    var n := RunOf(s, more);
    AnsweredAtOnce(n, u);
  }

  lemma AnsweredAtOnce(s: State, t: nat)
    requires CompletedOk(s)
    ensures t !in s.calls && s.reading.None? && !s.readerDropped ==>
              StepOf(s, Next(t)).calls == s.calls[t := Call(Returned(Finished), false)]
  {
  }

  // ----- a last read that is dropped between the completion and its reply

  /** The first read of an empty body has sent its command, and the worker is in the poll that serves it. */
  const SERVED: seq<Step> := [Next(0), CallBegin(0), CallAct(0), CallYield(0), WorkerBegin, WorkerAct]

  function Served(): State {
    StartOf([]).(calls := map[0 := Call(Waiting, false)], reading := Some(0), sent := [0], served := [0], place := map[0 := 0],
                 active := true, worker := Serving(0))
  }

  lemma AskedReached()
    ensures var s := RunOf(StartOf([]), SERVED[..3]);
            s == StartOf([]).(calls := map[0 := Call(Waiting, true)], reading := Some(0), command := Some(0), sent := [0], place := map[0 := 0])
  {
    hide RunOf;
    var s0 := StartOf([]);
    var s1 := s0.(calls := map[0 := Call(Asking, false)], reading := Some(0));
    var s2 := s1.(calls := map[0 := Call(Asking, true)]);
    var s3 := s2.(calls := map[0 := Call(Waiting, true)], command := Some(0), sent := [0], place := map[0 := 0]);
    assert NextCalled(s0, 0) == s1 && CallBegun(s1, 0) == s2 && CallActed(s2, 0) == s3;
    assert SERVED[..3] == [Next(0), CallBegin(0), CallAct(0)];
    RunIsTrace(s0, [Next(0), CallBegin(0), CallAct(0)], [s0, s1, s2, s3]);
  }

  lemma ServedIsReached()
    ensures RunOf(StartOf([]), SERVED) == Served()
  {
    hide RunOf;
    AskedReached();
    var s3 := RunOf(StartOf([]), SERVED[..3]);
    var s4 := s3.(calls := map[0 := Call(Waiting, false)]);
    var s5 := s4.(active := true);
    assert CallYielded(s3, 0) == s4 && WorkerBegun(s4) == s5 && CommandTaken(s5) == Served();
    RunIsTrace(s3, [CallYield(0), WorkerBegin, WorkerAct], [s3, s4, s5, Served()]);
    assert SERVED[..3] + [CallYield(0), WorkerBegin, WorkerAct] == SERVED;
    RunAppend(StartOf([]), SERVED[..3], [CallYield(0), WorkerBegin, WorkerAct]);
  }

  function Raced(): State {
    Served().(calls := map[0 := Call(Gone, false), 1 := Call(Returned(Finished), false)], reading := None,
              worker := Ending(0), completion := Some(Ok([])), error := Some(Cancelled))
  }

  lemma RacedIsReached()
    ensures RunOf(Served(), [WorkerAct, CallDrop(0), CallDropFail(0), Next(1)]) == Raced()
  {
    hide RunOf;
    var s0 := Served();
    var s1 := s0.(worker := Ending(0), completion := Some(Ok([])));
    var s2 := s1.(calls := map[0 := Call(Dropping, false)]);
    var s3 := s2.(calls := map[0 := Call(Gone, false)], error := Some(Cancelled), reading := None);
    assert WorkerActed(s0) == s1 && CallDropped(s1, 0) == s2 && CallDropFailed(s2, 0) == s3 && NextCalled(s3, 1) == Raced();
    RunIsTrace(s0, [WorkerAct, CallDrop(0), CallDropFail(0), Next(1)], [s0, s1, s2, s3, Raced()]);
  }

  lemma RaceIsLost()
    ensures var n := RunOf(Raced(), [WorkerAct, Next(2)]);
            n.calls == Raced().calls[2 := Call(Returned(Failure(Cancelled)), false)] && n.completion == Some(Err(Cancelled))
  {
    hide RunOf;
    var s0 := Raced();
    var s1 := s0.(worker := Stopped, active := false, completion := Some(Err(Cancelled)));
    var s2 := s1.(calls := s1.calls[2 := Call(Returned(Failure(Cancelled)), false)]);
    assert EndTold(s0, 0) == s1 && NextCalled(s1, 2) == s2;
    RunIsTrace(s0, [WorkerAct, Next(2)], [s0, s1, s2]);
  }

  lemma RunAppend(s: State, first: seq<Step>, second: seq<Step>)
    ensures RunOf(s, first + second) == RunOf(RunOf(s, first), second)
    decreases |first|
  {
    hide StepOf;
    if first == [] {
      assert first + second == second;
    } else {
      assert (first + second)[1..] == first[1..] + second;
      RunAppend(StepOf(s, first[0]), first[1..], second);
    }
  }

  /**
   The end is published before the read that reached it is told. When that read is dropped in between, the next read
   returns the end and the trailers are answered, and then both turn into the cancellation.
   */
  lemma DroppedLastReadTakesEndBack()
    ensures var s := RunOf(StartOf([]), SERVED + [WorkerAct, CallDrop(0), CallDropFail(0), Next(1)]);
            var n := RunOf(s, [WorkerAct, Next(2)]);
            && 1 in s.calls && s.calls[1].phase == Returned(Finished) && TrailersAnswer(s) == Some(Ok([]))
            && 2 in n.calls && n.calls[2].phase == Returned(Failure(Cancelled)) && TrailersAnswer(n) == Some(Err(Cancelled))
  {
    hide RunOf;
    ServedIsReached();
    RunAppend(StartOf([]), SERVED, [WorkerAct, CallDrop(0), CallDropFail(0), Next(1)]);
    RacedIsReached();
    RaceIsLost();
  }

  // ----- cancellation

  /** A call that checked for cancellation before can still send its command. */
  ghost predicate AskingPolled(calls: Calls) {
    exists t | t in calls :: calls[t] == Call(Asking, true)
  }

  /** No data and no error is left: one read goes through to the end. */
  ghost predicate Quiet(frames: seq<Native>) {
    forall i | 0 <= i < |frames| :: frames[i].FieldsFrame? || frames[i].Unknown?
  }

  /** A poll of the worker is under way, it serves a read or can still be given one, and that read reaches the end. */
  ghost predicate MayComplete(s: State) {
    && s.active && Quiet(s.native)
    && (s.worker.Serving? || (s.worker.Idle? && (s.command.Some? || AskingPolled(s.calls))))
  }

  /** Cancelled, without a successful completion, and with no way to one. */
  ghost predicate Doomed(s: State) {
    IsCancelled(s) && !CompletedOk(s) && !MayComplete(s)
  }

  /** What a step of a call can change once the operation is cancelled. */
  ghost predicate CallMoves(s: State, n: State) {
    && n.active == s.active && n.native == s.native && n.worker == s.worker && n.completion == s.completion
    && (IsCancelled(s) ==> IsCancelled(n))
    && (IsCancelled(s) && AskingPolled(n.calls) ==> AskingPolled(s.calls))
    && (n.command.Some? ==> s.command.Some? || AskingPolled(s.calls))
  }

  lemma MovedDoomed(s: State, n: State)
    requires Doomed(s) && CallMoves(s, n)
    ensures Doomed(n)
  {
    hide AskingPolled, Quiet;
  }

  lemma SameMoves(s: State)
    ensures CallMoves(s, s)
  {
    hide AskingPolled;
  }

  lemma OtherCall(calls: Calls, t: nat, call: Call)
    requires call == Call(Asking, true) ==> t in calls && calls[t] == call
    ensures AskingPolled(calls[t := call]) ==> AskingPolled(calls)
  {
    var after := calls[t := call];
    if AskingPolled(after) {
      var u :| u in after && after[u] == Call(Asking, true);
      assert u in calls && calls[u] == Call(Asking, true);
    }
  }

  lemma AnsweredMoves(s: State, t: nat, answer: Answer)
    ensures CallMoves(s, Answered(s, t, answer))
  {
    hide AskingPolled;
    OtherCall(s.calls, t, Call(Returned(answer), false));
  }

  lemma PhaseMoves(s: State, t: nat, phase: Phase, polling: bool)
    requires phase.Asking? && polling ==> !IsCancelled(s)
    ensures CallMoves(s, WithCall(s, t, phase, polling))
  {
    hide AskingPolled;
    if !(phase.Asking? && polling) {
      OtherCall(s.calls, t, Call(phase, polling));
    }
  }

  lemma AskedMoves(s: State, t: nat)
    ensures CallMoves(s, WithCall(s, t, Asking, false).(reading := Some(t)))
  {
    hide AskingPolled;
    OtherCall(s.calls, t, Call(Asking, false));
  }

  lemma SentMoves(s: State, t: nat)
    requires t in s.calls && s.calls[t] == Call(Asking, true)
    ensures CallMoves(s, CommandSent(s, t))
  {
    assert AskingPolled(s.calls);
    hide AskingPolled;
    OtherCall(s.calls, t, Call(Waiting, true));
  }

  lemma DropFailedMoves(s: State, t: nat)
    ensures CallMoves(s, CallDropFailed(s, t))
  {
    hide AskingPolled;
    OtherCall(s.calls, t, Call(Gone, false));
  }

  lemma NextMoves(s: State, t: nat)
    ensures CallMoves(s, NextCalled(s, t))
  {
    hide CallMoves, Answered, WithCall;
    SameMoves(s);
    AskedMoves(s, t);
    AnsweredMoves(s, t, Failure(BodyInUse));
    if s.completion.Some? {
      AnsweredMoves(s, t, CompletionAnswer(s.completion.value));
    }
  }

  lemma BegunMoves(s: State, t: nat)
    ensures CallMoves(s, CallBegun(s, t))
  {
    hide CallMoves, Answered, WithCall;
    SameMoves(s);
    AnsweredMoves(s, t, Failure(ErrorOf(s)));
    if Pending(s, t) && !IsCancelled(s) {
      PhaseMoves(s, t, s.calls[t].phase, true);
    }
  }

  lemma ActedMoves(s: State, t: nat)
    ensures CallMoves(s, CallActed(s, t))
  {
    hide CallMoves, Answered, CommandSent;
    SameMoves(s);
    if Pending(s, t) && s.calls[t].polling {
      AnsweredMoves(s, t, Failure(ErrorOf(s)));
      if s.calls[t].phase.Asking? {
        SentMoves(s, t);
      } else if t in s.replies {
        AnsweredMoves(s, t, s.replies[t]);
      }
    }
  }

  lemma PausedMoves(s: State, t: nat)
    ensures CallMoves(s, CallYielded(s, t)) && CallMoves(s, CallDropped(s, t))
  {
    hide CallMoves, WithCall;
    SameMoves(s);
    if Pending(s, t) {
      PhaseMoves(s, t, s.calls[t].phase, false);
      PhaseMoves(s, t, Dropping, false);
    }
  }

  lemma FailureMoves(s: State, error: Error)
    ensures CallMoves(s, s.(error := FirstOf(s.error, error)))
  {
    hide AskingPolled;
  }

  lemma OwnerCancelMoves(s: State)
    ensures CallMoves(s, s.(ownerCancelled := true))
  {
    hide AskingPolled;
  }

  lemma ReaderGoneMoves(s: State)
    ensures CallMoves(s, s.(readerDropped := true))
  {
    hide AskingPolled;
  }

  lemma ReaderFailsMoves(s: State)
    ensures CallMoves(s, s.(readerDropped := true, error := FirstOf(s.error, Cancelled)))
  {
    hide AskingPolled;
  }

  lemma ReaderDroppedMoves(s: State)
    ensures CallMoves(s, ReaderDropped(s))
  {
    hide CallMoves;
    SameMoves(s);
    ReaderGoneMoves(s);
    ReaderFailsMoves(s);
  }

  // ----- the worker of a cancelled operation

  lemma FailedDoomed(s: State, error: Error)
    ensures Doomed(WorkerFailed(s, error))
  {
  }

  /** The read that hears a data frame was the only one under way, and no other has sent a command. */
  lemma HeardIsAlone(script: seq<Native>, s: State, t: nat)
    requires Inv(script, s) && s.worker == Serving(t) && Hears(s, t)
    ensures s.command.None? && !AskingPolled(s.calls)
  {
    hide FlowOk, CompletionOk, RepliesOk, HandedOn, Exhausted;
    ServedPlace(script, s, t);
    assert s.sent[|s.sent| - 1] == t;
  }

  lemma FrameDoomed(script: seq<Native>, s: State, t: nat)
    requires Inv(script, s) && Doomed(s) && s.active && s.worker == Serving(t) && s.native != []
    ensures Doomed(FrameServed(s, t))
  {
    hide Inv, AskingPolled, WorkerFailed;
    var c := Consumed(s);
    match s.native[0]
    case Data(bytes) =>
      if Hears(s, t) {
        HeardIsAlone(script, s, t);
        HeardDoomed(c, t, bytes);
      } else {
        FailedDoomed(c, Cancelled);
      }
    case FieldsFrame(fields) => QuietRest(s.native);
    case Unknown => QuietRest(s.native);
    case Broken(error) => FailedDoomed(Replied(c, t, Failure(error)), error);
  }

  lemma HeardDoomed(s: State, t: nat, bytes: seq<byte>)
    requires IsCancelled(s) && !CompletedOk(s) && Hears(s, t) && s.command.None? && !AskingPolled(s.calls)
    ensures Doomed(DataServed(s, t, bytes))
  {
    hide AskingPolled, Quiet;
  }

  lemma QuietRest(frames: seq<Native>)
    requires frames != [] && (frames[0].FieldsFrame? || frames[0].Unknown?)
    ensures Quiet(frames[1..]) <==> Quiet(frames)
  {
    assert forall i | 0 < i < |frames| :: frames[i] == frames[1..][i - 1];
  }

  lemma WorkerActedDoomed(script: seq<Native>, s: State)
    requires Inv(script, s) && Doomed(s)
    ensures Doomed(WorkerActed(s))
  {
    hide Inv, AskingPolled, WorkerFailed, FrameServed, EndTold;
    if s.active {
      match s.worker
      case Idle => FailedDoomed(s, Cancelled);
      case Serving(t) =>
        if s.native == [] {
          assert false;
        } else {
          FrameDoomed(script, s, t);
        }
      case Ending(t) => EndingCompleted(script, s);
      case Stopped =>
    }
  }

  lemma EndingCompleted(script: seq<Native>, s: State)
    requires Inv(script, s) && s.worker.Ending?
    ensures CompletedOk(s)
  {
    hide LockOk, SentOk, FlowOk, RepliesOk, HandedOn, Exhausted;
  }

  lemma WorkerBegunDoomed(s: State)
    requires Doomed(s)
    ensures Doomed(WorkerBegun(s))
  {
    hide WorkerFailed, AskingPolled, Quiet;
    FailedDoomed(s, ErrorOf(s));
  }

  lemma DoomedStep(script: seq<Native>, s: State, step: Step)
    requires Inv(script, s) && Doomed(s)
    ensures Doomed(StepOf(s, step))
  {
    hide Inv, NextCalled, CallBegun, CallActed, CallYielded, CallDropped, CallDropFailed, WorkerBegun, WorkerActed, ReaderDropped;
    hide CallMoves, AskingPolled, Quiet;
    match step
    case Next(t) => NextMoves(s, t); MovedDoomed(s, NextCalled(s, t));
    case CallBegin(t) => BegunMoves(s, t); MovedDoomed(s, CallBegun(s, t));
    case CallAct(t) => ActedMoves(s, t); MovedDoomed(s, CallActed(s, t));
    case CallYield(t) => PausedMoves(s, t); MovedDoomed(s, CallYielded(s, t));
    case CallDrop(t) => PausedMoves(s, t); MovedDoomed(s, CallDropped(s, t));
    case CallDropFail(t) => DropFailedMoves(s, t); MovedDoomed(s, CallDropFailed(s, t));
    case WorkerBegin => WorkerBegunDoomed(s);
    case WorkerAct => WorkerActedDoomed(script, s);
    case WorkerYield =>
    case WorkerDrop =>
    case Fail(error) => FailureMoves(s, error); MovedDoomed(s, s.(error := FirstOf(s.error, error)));
    case OwnerCancel => OwnerCancelMoves(s); MovedDoomed(s, s.(ownerCancelled := true));
    case DropReader => ReaderDroppedMoves(s); MovedDoomed(s, ReaderDropped(s));
  }

  lemma {:induction false} DoomedRun(script: seq<Native>, s: State, steps: seq<Step>)
    requires Inv(script, s) && Doomed(s)
    ensures Doomed(RunOf(s, steps))
    decreases |steps|
  {
    hide Inv, Doomed, StepOf;
    if steps != [] {
      StepInv(script, s, steps[0]);
      DoomedStep(script, s, steps[0]);
      DoomedRun(script, StepOf(s, steps[0]), steps[1..]);
    }
  }

  // ----- a poll that goes through

  ghost predicate Completes(s: State) {
    exists more :: CompletedOk(RunOf(s, more))
  }

  lemma StepCompletes(s: State, step: Step)
    requires Completes(StepOf(s, step))
    ensures Completes(s)
  {
    hide StepOf, CompletedOk;
    var more :| CompletedOk(RunOf(StepOf(s, step), more));
    assert ([step] + more)[1..] == more;
    assert RunOf(s, [step] + more) == RunOf(StepOf(s, step), more);
  }

  lemma {:induction false} ServingCompletes(s: State, t: nat)
    requires s.active && s.worker == Serving(t) && Quiet(s.native)
    ensures Completes(s)
    decreases |s.native|
  {
    hide Completes, Quiet;
    var n := StepOf(s, WorkerAct);
    if s.native == [] {
      assert RunOf(n, []) == n && CompletedOk(n);
      CompletedCompletes(n);
    } else {
      QuietFirst(s.native);
      QuietServed(s, t);
      ServingCompletes(n, t);
    }
    StepCompletes(s, WorkerAct);
  }

  lemma CompletedCompletes(s: State)
    requires CompletedOk(s)
    ensures Completes(s)
  {
    assert RunOf(s, []) == s;
  }

  lemma QuietFirst(frames: seq<Native>)
    requires Quiet(frames) && frames != []
    ensures (frames[0].FieldsFrame? || frames[0].Unknown?) && Quiet(frames[1..])
  {
    QuietRest(frames);
  }

  lemma QuietServed(s: State, t: nat)
    requires s.active && s.worker == Serving(t) && s.native != [] && (s.native[0].FieldsFrame? || s.native[0].Unknown?)
    ensures var n := StepOf(s, WorkerAct); n.active && n.worker == Serving(t) && n.native == s.native[1..]
  {
    if s.native[0].Unknown? {
    }
  }

  lemma CommandCompletes(s: State)
    requires s.active && s.worker.Idle? && s.command.Some? && Quiet(s.native)
    ensures Completes(s)
  {
    hide Completes, Quiet;
    var n := s.(command := None, worker := Serving(s.command.value), served := s.served + [s.command.value]);
    assert StepOf(s, WorkerAct) == n;
    hide StepOf;
    ServingCompletes(n, s.command.value);
    StepCompletes(s, WorkerAct);
  }

  lemma AskingCompletes(s: State, t: nat)
    requires s.active && s.worker.Idle? && s.command.None? && t in s.calls && s.calls[t] == Call(Asking, true) && Quiet(s.native)
    ensures Completes(s)
  {
    hide Completes, Quiet;
    assert StepOf(s, CallAct(t)) == CommandSent(s, t);
    hide StepOf;
    CommandCompletes(CommandSent(s, t));
    StepCompletes(s, CallAct(t));
  }

  lemma MayCompleteCompletes(s: State)
    requires MayComplete(s)
    ensures Completes(s)
  {
    hide Completes, Quiet;
    if s.worker.Serving? {
      ServingCompletes(s, s.worker.reader);
    } else if s.command.Some? {
      CommandCompletes(s);
    } else {
      var t :| t in s.calls && s.calls[t] == Call(Asking, true);
      AskingCompletes(s, t);
    }
  }

  /**
   A cancelled body whose completion is not successful yet still completes in some continuation exactly when a poll of the
   worker is under way that began before, no data and no error is left of the native body, and the worker serves a read
   or can be given one by a poll that began before. Otherwise `trailers` answers an error in every continuation.
   */
  lemma CancelledCompletesExactly(script: seq<Native>, steps: seq<Step>)
    requires var s := RunOf(StartOf(script), steps); IsCancelled(s) && !CompletedOk(s)
    ensures var s := RunOf(StartOf(script), steps);
            && ((exists more :: CompletedOk(RunOf(s, more))) <==> MayComplete(s))
            && (!MayComplete(s) ==> forall more ::
                  TrailersAnswer(RunOf(s, more)).Some? && TrailersAnswer(RunOf(s, more)).value.Err?)
  {
    hide Inv, RunOf, MayComplete;
    StartInv(script);
    RunInv(script, StartOf(script), steps);
    CompletesExactly(script, RunOf(StartOf(script), steps));
  }

  lemma CompletesExactly(script: seq<Native>, s: State)
    requires Inv(script, s) && IsCancelled(s) && !CompletedOk(s)
    ensures (exists more :: CompletedOk(RunOf(s, more))) <==> MayComplete(s)
    ensures !MayComplete(s) ==> forall more ::
              TrailersAnswer(RunOf(s, more)).Some? && TrailersAnswer(RunOf(s, more)).value.Err?
  {
    hide Inv, RunOf, MayComplete;
    if MayComplete(s) {
      MayCompleteCompletes(s);
      assert exists more :: CompletedOk(RunOf(s, more));
    } else {
      forall more ensures Doomed(RunOf(s, more)) {
        DoomedRun(script, s, more);
      }
    }
  }

  /** A cancellation that comes in the middle of a poll can be outrun: the worker still completes with the trailers. */
  lemma PollOutrunsCancellation()
    ensures var s := RunOf(StartOf([]), SERVED + [Fail(Cancelled)]);
            var n := RunOf(s, [WorkerAct]);
            && IsCancelled(s) && TrailersAnswer(s) == Some(Err(Cancelled)) && TrailersAnswer(n) == Some(Ok([]))
  {
    hide RunOf;
    ServedIsReached();
    RunAppend(StartOf([]), SERVED, [Fail(Cancelled)]);
    var s := Served().(error := Some(Cancelled));
    RunIsTrace(Served(), [Fail(Cancelled)], [Served(), s]);
    var n := s.(worker := Ending(0), completion := Some(Ok([])));
    assert WorkerActed(s) == n;
    RunIsTrace(s, [WorkerAct], [s, n]);
  }
}

/** The receive bridge as an object: the worker's loop over commands and native frames, and the synchronous parts of reads. */
module ReaderBridge {
  import opened Wrappers
  import opened Streams
  import opened ReaderModel

  predicate Blocked(s: State) {
    s.worker.Stopped? || (s.worker.Idle? && s.command.None? && !s.readerDropped)
  }

  /** What the worker can still do without waiting. */
  function Work(s: State): nat {
    2 * |s.native| +
    match s.worker
    case Idle => if s.command.Some? then 3 else 1
    case Serving(_) => 2
    case Ending(_) => 1
    case Stopped => 0
  }

  /** The worker goes on until it waits or stops. */
  function WorkerRan(s: State): State
    requires s.active || Blocked(s)
    decreases Work(s)
  {
    if Blocked(s) then s else
      WorkAdvances(s);
      WorkerRan(WorkerActed(s))
  }

  lemma WorkAdvances(s: State)
    requires s.active && !Blocked(s)
    ensures var n := WorkerActed(s); Work(n) < Work(s) && (n.active || n.worker.Stopped?)
  {
    match s.worker
    case Idle =>
      hide FrameServed, EndTold;
    case Serving(t) =>
      if s.native != [] {
        FrameAdvances(s, t);
      }
      hide FrameServed;
    case Ending(t) =>
      hide FrameServed, CommandTaken;
  }

  lemma FrameAdvances(s: State, t: nat)
    requires s.native != [] && s.worker == Serving(t)
    ensures var n := FrameServed(s, t);
            && |n.native| < |s.native| && n.command == s.command
            && (if n.worker.Serving? then n.active == s.active else (n.worker.Idle? && n.active == s.active) || n.worker.Stopped?)
  {
    var c := Consumed(s);
    match s.native[0]
    case Data(bytes) =>
      DataAdvances(c, t, bytes);
      assert FrameServed(s, t) == DataServed(c, t, bytes);
      hide DataServed, FrameServed;
    case FieldsFrame(fields) =>
      assert FrameServed(s, t) == c.(trailers := c.trailers + fields);
      hide FrameServed;
    case Unknown =>
      assert FrameServed(s, t) == c;
      hide FrameServed;
    case Broken(error) =>
      assert FrameServed(s, t) == WorkerFailed(Replied(c, t, Failure(error)), error);
      hide FrameServed;
  }

  lemma DataAdvances(s: State, t: nat, bytes: seq<byte>)
    ensures var n := DataServed(s, t, bytes);
            && n.native == s.native && n.command == s.command
            && ((n.worker.Idle? && n.active == s.active) || n.worker.Stopped?)
  {
    if Hears(s, t) {
      hide WorkerFailed;
    }
  }

  class BodyReader {
    var native: seq<Native>
    var command: Option<nat>
    var worker: Worker
    var active: bool
    var trailers: Fields
    var completion: Option<Result<Fields, Error>>
    var error: Option<Error>
    var ownerCancelled: bool
    var reading: Option<nat>
    var calls: map<nat, Call>
    var replies: map<nat, Answer>
    var readerDropped: bool
    ghost var consumed: seq<Native>
    ghost var sent: seq<nat>
    ghost var served: seq<nat>
    ghost var place: map<nat, nat>
    ghost var answers: seq<seq<byte>>

    ghost function Snapshot(): State
      reads this
    {
      State(native, command, worker, active, trailers, completion, error, ownerCancelled, reading, calls, replies, readerDropped,
            consumed, sent, served, place, answers)
    }

    constructor (script: seq<Native>)
      ensures Snapshot() == StartOf(script)
    {
      native, command, worker, active, trailers := script, None, Idle, false, [];
      completion, error, ownerCancelled, reading, calls, replies, readerDropped := None, None, false, None, map[], map[], false;
      consumed, sent, served, place, answers := [], [], [], map[], [];
    }

    method StopWith(reason: Error)
      modifies this`worker, this`active, this`error, this`completion
      ensures Snapshot() == WorkerFailed(old(Snapshot()), reason)
    {
      worker, active, error, completion := Stopped, false, FirstOf(error, reason), Some(Err(reason));
    }

    method Reply(t: nat, answer: Answer) returns (heard: bool)
      modifies this`replies
      ensures heard == Hears(old(Snapshot()), t) && Snapshot() == Replied(old(Snapshot()), t, answer)
    {
      heard := t in calls && calls[t].phase.Waiting?;
      if heard {
        replies := replies[t := answer];
      }
    }

    /** One frame of the native body for the read `t`. */
    method ServeFrame(t: nat)
      requires native != []
      modifies this
      ensures Snapshot() == FrameServed(old(Snapshot()), t)
    {
      hide Replied, WorkerFailed, DataServed, FrameServed, Consumed;
      FrameServedBy(Snapshot(), t);
      var frame := Consume();
      match frame
      case Data(bytes) =>
        ServeData(t, bytes);
      case FieldsFrame(fields) => Keep(fields);
      case Unknown =>
      case Broken(reason) =>
        Fails(t, reason);
    }

    method Fails(t: nat, reason: Error)
      modifies this`replies, this`worker, this`active, this`error, this`completion
      ensures Snapshot() == WorkerFailed(Replied(old(Snapshot()), t, Failure(reason)), reason)
    {
      hide Replied, WorkerFailed;
      var heard := Reply(t, Failure(reason));
      StopWith(reason);
    }

    method Consume() returns (frame: Native)
      requires native != []
      modifies this`native, this`consumed
      ensures frame == old(native[0]) && Snapshot() == Consumed(old(Snapshot()))
    {
      frame := native[0];
      native, consumed := native[1..], consumed + [frame];
    }

    method Keep(fields: Fields)
      modifies this`trailers
      ensures Snapshot() == old(Snapshot()).(trailers := old(trailers) + fields)
    {
      trailers := trailers + fields;
    }

    method ServeData(t: nat, bytes: seq<byte>)
      modifies this
      ensures Snapshot() == DataServed(old(Snapshot()), t, bytes)
    {
      hide WorkerFailed, Replied;
      var heard := Reply(t, Chunk(bytes));
      if heard {
        worker := Idle;
        answers := answers + [bytes];
      } else {
        UnheardReply(old(Snapshot()), t, Chunk(bytes));
        StopWith(Cancelled);
      }
    }

    /** One turn of the worker's loop. */
    method WorkerTurn()
      requires active
      modifies this
      ensures Snapshot() == WorkerActed(old(Snapshot()))
    {
      hide FrameServed, WorkerFailed, EndTold, CommandTaken;
      match worker
      case Idle =>
        TakeCommand();
      case Serving(t) =>
        if native == [] {
          worker, completion := Ending(t), Some(Ok(trailers));
        } else {
          ServeFrame(t);
        }
      case Ending(t) =>
        TellEnd(t);
      case Stopped =>
    }

    method TakeCommand()
      modifies this
      ensures Snapshot() == CommandTaken(old(Snapshot()))
    {
      hide WorkerFailed;
      if command.Some? {
        worker := Serving(command.value);
        served := served + [command.value];
        command := None;
      } else if readerDropped {
        StopWith(Cancelled);
      }
    }

    method TellEnd(t: nat)
      modifies this
      ensures Snapshot() == EndTold(old(Snapshot()), t)
    {
      hide WorkerFailed, Replied;
      var heard := Reply(t, Finished);
      if heard {
        worker, active := Stopped, false;
      } else {
        UnheardReply(old(Snapshot()), t, Finished);
        StopWith(Cancelled);
      }
    }

    /** A whole poll of the worker: cancellation first, then as much as there is to do. */
    method PollWorker()
      modifies this
      ensures Snapshot() == var begun := WorkerBegun(old(Snapshot())); if begun.active then WorkerRan(begun) else begun
    {
      if worker.Stopped? && !active {
        return;
      }
      if !worker.Stopped? && !active && (error.Some? || ownerCancelled) {
        StopWith(if error.Some? then error.value else Closed);
        return;
      }
      active := true;
      ghost var begun := Snapshot();
      hide WorkerActed, WorkerBegun;
      while !(worker.Stopped? || (worker.Idle? && command.None? && !readerDropped))
        invariant active || worker.Stopped?
        invariant WorkerRan(Snapshot()) == WorkerRan(begun)
        decreases Work(Snapshot())
      {
        WorkAdvances(Snapshot());
        WorkerTurn();
      }
    }

    method Drop()
      modifies this`readerDropped, this`error
      ensures Snapshot() == ReaderDropped(old(Snapshot()))
    {
      if readerDropped || reading.Some? {
        return;
      }
      readerDropped := true;
      if !(completion.Some? && completion.value.Ok?) && error.None? {
        error := Some(Cancelled);
      }
    }
  }

  lemma FrameServedBy(s: State, t: nat)
    requires s.native != []
    ensures var n := FrameServed(s, t);
            match s.native[0]
            case Data(bytes) => n == DataServed(Consumed(s), t, bytes)
            case FieldsFrame(fields) => n == Consumed(s).(trailers := Consumed(s).trailers + fields)
            case Unknown => n == Consumed(s)
            case Broken(error) => n == WorkerFailed(Replied(Consumed(s), t, Failure(error)), error)
  {
    hide DataServed, WorkerFailed, Replied;
  }

  lemma UnheardReply(s: State, t: nat, answer: Answer)
    requires !Hears(s, t)
    ensures Replied(s, t, answer) == s
  {
  }
}
