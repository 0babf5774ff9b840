/** What requests and responses, uploads and received bodies share. */
module Streams {
  /** Header and trailer fields. */
  type Fields = seq<(string, string)>

  datatype Error = Cancelled | Closed | Producer | BodyInUse | Reported(code: int)
}

/**
 Ownership of operations: a scope rejects new operations once it is closed, cancels those it owns and waits for them;
 an operation keeps its first failure.
 */
module Scopes {
  import opened Wrappers
  import opened Streams

  type Outcome = Result<int, Error>

  /** What happens to an operation: it fails, its owner is cancelled, or a future under it is polled. */
  datatype Event = Fails(error: Error) | OwnerCancels | Polled(ready: Option<Outcome>)

  datatype Standing = Standing(failure: Option<Error>, ownerCancelled: bool)

  function After(s: Standing, event: Event): Standing {
    match event
    case Fails(error) => if s.failure.Some? then s else s.(failure := Some(error))
    case OwnerCancels => s.(ownerCancelled := true)
    case Polled(_) => s
  }

  function AfterAll(s: Standing, events: seq<Event>): Standing
    decreases |events|
  {
    if events == [] then s else AfterAll(After(s, events[0]), events[1..])
  }

  /** What a poll answers: an error once the operation is cancelled, else what is ready. */
  function AnswerOf(s: Standing, ready: Option<Outcome>): Option<Outcome> {
    if s.failure.Some? then Some(Err(s.failure.value)) else if s.ownerCancelled then Some(Err(Closed)) else ready
  }

  /** The failure that was recorded first. */
  function FirstFailure(events: seq<Event>): Option<Error>
    decreases |events|
  {
    if events == [] then None else if events[0].Fails? then Some(events[0].error) else FirstFailure(events[1..])
  }

  lemma {:induction false} StandingIs(s: Standing, events: seq<Event>)
    ensures var n := AfterAll(s, events);
            && n.failure == (if s.failure.Some? then s.failure else FirstFailure(events))
            && (n.ownerCancelled <==> s.ownerCancelled || OwnerCancels in events)
    decreases |events|
  {
    if events != [] {
      StandingIs(After(s, events[0]), events[1..]);
      assert events == [events[0]] + events[1..];
    }
  }

  /**
   In every history, a poll after a failure answers the first failure, whatever is ready and whatever failed since; a poll
   after the owner was cancelled never answers what is ready; and any other poll does.
   */
  lemma CancelledForGood(events: seq<Event>, ready: Option<Outcome>)
    ensures var answer := AnswerOf(AfterAll(Standing(None, false), events), ready);
            match FirstFailure(events)
            case Some(error) => answer == Some(Err(error))
            case None => answer == if OwnerCancels in events then Some(Err(Closed)) else ready
  {
    StandingIs(Standing(None, false), events);
  }

  /** An operation may have failed on its own, or be cancelled with its owner. */
  class OperationState {
    const owner: Option<Scope>
    var cancelled: bool
    var failure: Option<Error>

    constructor (owner: Option<Scope>)
      ensures Valid() && this.owner == owner && failure.None?
    {
      this.owner, cancelled, failure := owner, false, None;
    }

    /** The operation's own token is cancelled exactly when a failure is recorded. */
    ghost predicate Valid()
      reads this
    {
      failure.Some? <==> cancelled
    }

    predicate OwnerCancelled()
      reads if owner.Some? then {owner.value} else {}
    {
      owner.Some? && owner.value.cancelled
    }

    predicate IsCancelled()
      reads this, if owner.Some? then {owner.value} else {}
    {
      cancelled || OwnerCancelled()
    }

    /** The first failure, else the reason of the cancellation. */
    function Error(): Error
      reads this, if owner.Some? then {owner.value} else {}
    {
      if failure.Some? then failure.value else if OwnerCancelled() then Closed else Cancelled
    }

    function Stands(): Standing
      reads this, if owner.Some? then {owner.value} else {}
    {
      Standing(failure, OwnerCancelled())
    }

    method Fail(error: Error)
      requires Valid()
      modifies this
      ensures Valid() && cancelled && Stands() == After(old(Stands()), Fails(error))
      ensures old(failure).Some? ==> Error() == old(Error())
    {
      if failure.None? {
        failure := Some(error);
      }
      cancelled := true;
    }

    /** A poll of a future under this operation: a cancellation wins over its result. */
    method Run(ready: Option<Outcome>) returns (r: Option<Outcome>)
      requires Valid()
      ensures r == AnswerOf(Stands(), ready)
    {
      if cancelled || OwnerCancelled() {
        return Some(Err(Error()));
      }
      return ready;
    }
  }

  class Scope {
    var closed: bool
    var cancelled: bool
    var tasks: set<nat>

    constructor ()
      ensures !closed && !cancelled && tasks == {}
    {
      closed, cancelled, tasks := false, false, {};
    }

    /** Register an operation under a token of its own; closed scopes create nothing. */
    method Register(token: nat) returns (r: Result<OperationState, Error>)
      requires token !in tasks
      modifies this
      ensures closed == old(closed) && cancelled == old(cancelled)
      ensures if old(closed) then r == Err(Closed) && tasks == old(tasks)
              else r.Ok? && fresh(r.value) && r.value.owner == Some(this) && r.value.failure.None? && tasks == old(tasks) + {token}
    {
      if closed {
        return Err(Closed);
      }
      var state := new OperationState(Some(this));
      tasks := tasks + {token};
      return Ok(state);
    }

    method Cancel()
      modifies this`closed, this`cancelled
      ensures closed && cancelled
    {
      closed, cancelled := true, true;
    }
  }
}

/** Response bodies that keep their operation until they end, fail or are cancelled. */
module OwnedBodies {
  import opened Wrappers
  import opened Streams
  import opened Scopes

  /** What a poll of the native body finds. */
  datatype Native = NotReady | Frame(bytes: seq<int>) | Ended | Broken(code: int)

  /** What a poll of the owned body returns. */
  datatype Answer = Waits | Yields(bytes: seq<int>) | Done | Failure(error: Error)

  /** One poll while the body is held; `cancelled` with the error of its operation. */
  function PollHeld(cancelled: Option<Error>, native: Native): (r: (bool, Answer))
  {
    if cancelled.Some? then (false, Failure(cancelled.value))
    else
      match native
      case NotReady => (true, Waits)
      case Frame(bytes) => (true, Yields(bytes))
      case Ended => (false, Done)
      case Broken(code) => (false, Failure(Reported(code)))
  }

  function PollOwned(held: bool, cancelled: Option<Error>, native: Native): (bool, Answer) {
    if held then PollHeld(cancelled, native) else (false, Done)
  }

  datatype Poll = Poll(cancelled: Option<Error>, native: Native)

  /** The answers of successive polls, and whether the operation is held still. */
  function PollsOf(held: bool, polls: seq<Poll>): (r: (bool, seq<Answer>))
    decreases |polls|
  {
    if polls == [] then (held, [])
    else
      var (next, answer) := PollOwned(held, polls[0].cancelled, polls[0].native);
      var (last, answers) := PollsOf(next, polls[1..]);
      (last, [answer] + answers)
  }

  predicate Final(answer: Answer) {
    answer.Done? || answer.Failure?
  }

  /** No answer before the i-th was final. */
  predicate GoesOn(answers: seq<Answer>, i: nat) {
    forall j | 0 <= j < i && j < |answers| :: !Final(answers[j])
  }

  /**
   The operation is held exactly as long as no answer was final, the first final answer says why, and afterwards there is
   nothing.
   */
  lemma {:induction false} HeldUntilFinal(held: bool, polls: seq<Poll>)
    ensures var (last, answers) := PollsOf(held, polls);
            && |answers| == |polls|
            && (last <==> held && GoesOn(answers, |answers|))
            && (forall i, j | 0 <= i < j < |answers| && Final(answers[i]) :: answers[j] == Done)
            && (!held ==> forall i | 0 <= i < |answers| :: answers[i] == Done)
    decreases |polls|
  {
    if polls != [] {
      var (next, answer) := PollOwned(held, polls[0].cancelled, polls[0].native);
      HeldUntilFinal(next, polls[1..]);
      var (last, answers) := PollsOf(next, polls[1..]);
      var all := [answer] + answers;
      assert forall i | 1 <= i < |all| :: all[i] == answers[i - 1];
      GoesOnFrom(answer, answers);
    }
  }

  lemma GoesOnFrom(answer: Answer, answers: seq<Answer>)
    ensures GoesOn([answer] + answers, |answers| + 1) <==> !Final(answer) && GoesOn(answers, |answers|)
  {
    var all := [answer] + answers;
    assert all[0] == answer && forall i | 0 <= i < |answers| :: all[i + 1] == answers[i];
    if !Final(answer) && GoesOn(answers, |answers|) {
      forall j | 0 <= j < |answers| + 1 && j < |all| ensures !Final(all[j]) {
        assert j > 0 ==> all[j] == answers[j - 1];
      }
    }
  }

  /** A poll that goes on answers a cancellation before the native body is looked at, and otherwise what that yields. */
  lemma {:induction false} CancellationComesFirst(polls: seq<Poll>, i: nat)
    requires i < |polls|
    ensures var answers := PollsOf(true, polls).1;
            |answers| == |polls| && (GoesOn(answers, i) ==> answers[i] == PollHeld(polls[i].cancelled, polls[i].native).1)
    decreases |polls|
  {
    HeldUntilFinal(true, polls);
    if i > 0 {
      var (next, answer) := PollOwned(true, polls[0].cancelled, polls[0].native);
      var answers, rest := PollsOf(true, polls).1, PollsOf(next, polls[1..]).1;
      assert answers == [answer] + rest;
      if GoesOn(answers, i) {
        assert !Final(answers[0]);
        assert next;
        CancellationComesFirst(polls[1..], i - 1);
        assert forall j | 0 <= j < i - 1 && j < |rest| :: rest[j] == answers[j + 1];
      }
    }
  }

  class OwnedBody {
    var body: bool
    var operation: Option<OperationState>

    constructor (operation: OperationState)
      ensures body && this.operation == Some(operation)
    {
      body, this.operation := true, Some(operation);
    }

    /** Body and operation are held together. */
    predicate Valid()
      reads this
    {
      body <==> operation.Some?
    }

    method PollFrame(native: Native) returns (answer: Answer)
      requires Valid()
      modifies this
      ensures Valid()
      ensures var cancelled := if old(body) && old(operation.value.IsCancelled()) then Some(old(operation.value.Error())) else None;
              (body, answer) == PollOwned(old(body), cancelled, native)
      ensures operation == if body then old(operation) else None
    {
      if !body {
        return Done;
      }
      if operation.value.IsCancelled() {
        answer := Failure(operation.value.Error());
        body, operation := false, None;
        return;
      }
      match native
      case NotReady => answer := Waits;
      case Frame(bytes) => answer := Yields(bytes);
      case Ended =>
        answer := Done;
        body, operation := false, None;
      case Broken(code) =>
        answer := Failure(Reported(code));
        body, operation := false, None;
    }
  }
}

/** Clients, their listeners and requests, over whole runs: what closing means. */
module Lifecycle {
  import opened Wrappers
  import opened Streams
  import opened Scopes

  const CLIENT: nat := 0

  datatype ScopeState = ScopeState(closed: bool, cancelled: bool)

  /** A live operation; `task` if it belongs to the task of a listener rather than to a request. */
  datatype Op = Op(scope: nat, task: bool, failure: Option<Error>)

  /** What the task of a listener has got to. */
  datatype Phase = Starting | Serving | Withdrawing | Closing | Finished

  datatype Listener = Listener(op: nat, phase: Phase)

  datatype Control = Free | Listening(listener: nat) | ClosingClient

  /**
   Listeners go by the name of their scope. `ops` are the operations that live, `created` all there ever were;
   `registered` are the listeners whose endpoints admit requests. The control lock serialises listening and closing.
   */
  datatype World = World(
    scopes: map<nat, ScopeState>, ops: map<nat, Op>, created: set<nat>, listeners: map<nat, Listener>,
    registered: set<nat>, control: Control)

  const START := World(map[CLIENT := ScopeState(false, false)], map[], {}, map[], {}, Free)

  datatype Step =
    | ListenBegin(listener: nat, op: nat)
    | ListenReady(listener: nat)
    | ListenFail(listener: nat)
    | Admit(listener: nat, op: nat)
    | ClientRequest(op: nat)
    | OpFail(op: nat, error: Error)
    | OpEnd(op: nat)
    | TaskWithdraw(listener: nat)
    | TaskCancel(listener: nat)
    | TaskFinish(listener: nat)
    | CloseBegin
    | CloseReturn
    | CloseAbort

  predicate OpCancelled(w: World, op: nat) {
    op in w.ops && (w.ops[op].failure.Some? || (w.ops[op].scope in w.scopes && w.scopes[w.ops[op].scope].cancelled))
  }

  predicate Empty(w: World, scope: nat) {
    forall o | o in w.ops :: w.ops[o].scope != scope
  }

  predicate Open(w: World, scope: nat) {
    scope in w.scopes && !w.scopes[scope].closed
  }

  /** A scope registers an operation, unless it is closed. */
  function Registered(w: World, scope: nat, op: nat, task: bool): World {
    if !Open(w, scope) || op in w.created then w
    else w.(ops := w.ops[op := Op(scope, task, None)], created := w.created + {op})
  }

  predicate At(w: World, l: nat, phase: Phase) {
    l in w.listeners && w.listeners[l].phase == phase
  }

  function Begun(w: World, l: nat, op: nat): World {
    if w.control != Free || !Open(w, CLIENT) || l in w.scopes || op in w.created then w
    else
      w.(ops := w.ops[op := Op(CLIENT, true, None)], created := w.created + {op},
         scopes := w.scopes[l := ScopeState(false, false)], listeners := w.listeners[l := Listener(op, Starting)],
         control := Listening(l))
  }

  function ReadyToServe(w: World, l: nat): World {
    if !At(w, l, Starting) then w
    else w.(listeners := w.listeners[l := w.listeners[l].(phase := Serving)], registered := w.registered + {l}, control := Free)
  }

  /** Listening failed or was given up: operation and scope are dropped. */
  function GivenUp(w: World, l: nat): World {
    if !At(w, l, Starting) then w
    else
      w.(listeners := w.listeners[l := w.listeners[l].(phase := Finished)], scopes := w.scopes[l := ScopeState(true, true)],
         ops := w.ops - {w.listeners[l].op}, control := Free)
  }

  /** The service of a listener that has started registers an operation in its scope. */
  function Admitted(w: World, l: nat, op: nat): World {
    if l !in w.listeners || w.listeners[l].phase == Starting then w else Registered(w, l, op, false)
  }

  function Failed(w: World, op: nat, error: Error): World {
    if op !in w.ops || w.ops[op].failure.Some? then w else w.(ops := w.ops[op := w.ops[op].(failure := Some(error))])
  }

  function Ended(w: World, op: nat): World {
    if op !in w.ops || w.ops[op].task then w else w.(ops := w.ops - {op})
  }

  /** The task of a listener wakes when its operation is cancelled, and first drops the registration. */
  function Withdrawn(w: World, l: nat): World {
    if !At(w, l, Serving) || !OpCancelled(w, w.listeners[l].op) then w
    else w.(listeners := w.listeners[l := w.listeners[l].(phase := Withdrawing)], registered := w.registered - {l})
  }

  function HandlersCancelled(w: World, l: nat): World {
    if !At(w, l, Withdrawing) then w
    else w.(listeners := w.listeners[l := w.listeners[l].(phase := Closing)], scopes := w.scopes[l := ScopeState(true, true)])
  }

  /** The task drops its operation once its scope has no operation left. */
  function TaskDone(w: World, l: nat): World {
    if !At(w, l, Closing) || !Empty(w, l) then w
    else w.(listeners := w.listeners[l := w.listeners[l].(phase := Finished)], ops := w.ops - {w.listeners[l].op})
  }

  function CloseBegun(w: World): World {
    if w.control != Free then w else w.(scopes := w.scopes[CLIENT := ScopeState(true, true)], control := ClosingClient)
  }

  function StepOf(w: World, step: Step): World {
    match step
    case ListenBegin(l, op) => Begun(w, l, op)
    case ListenReady(l) => ReadyToServe(w, l)
    case ListenFail(l) => GivenUp(w, l)
    case Admit(l, op) => Admitted(w, l, op)
    case ClientRequest(op) => Registered(w, CLIENT, op, false)
    case OpFail(op, error) => Failed(w, op, error)
    case OpEnd(op) => Ended(w, op)
    case TaskWithdraw(l) => Withdrawn(w, l)
    case TaskCancel(l) => HandlersCancelled(w, l)
    case TaskFinish(l) => TaskDone(w, l)
    case CloseBegin => CloseBegun(w)
    case CloseReturn => if CanReturn(w) then w.(control := Free) else w
    case CloseAbort => if w.control != ClosingClient then w else w.(control := Free)
  }

  /** Closing a client returns when its scope has no operation left. */
  predicate CanReturn(w: World) {
    w.control == ClosingClient && Empty(w, CLIENT)
  }

  function RunOf(w: World, steps: seq<Step>): World
    decreases |steps|
  {
    if steps == [] then w else RunOf(StepOf(w, steps[0]), steps[1..])
  }

  // ----- the invariant

  predicate Over(phase: Phase) {
    phase.Closing? || phase.Finished?
  }

  ghost predicate OpsOk(ops: map<nat, Op>, created: set<nat>, listeners: map<nat, Listener>) {
    && (forall o | o in ops :: o in created && (ops[o].scope == CLIENT || ops[o].scope in listeners))
    && (forall o | o in ops && ops[o].task :: ops[o].scope == CLIENT)
    && (forall o | o in ops && ops[o].scope != CLIENT && ops[o].scope in listeners ::
          !listeners[ops[o].scope].phase.Starting? && !listeners[ops[o].scope].phase.Finished?)
  }

  ghost predicate TasksOk(ops: map<nat, Op>, created: set<nat>, listeners: map<nat, Listener>) {
    && (forall l | l in listeners :: l != CLIENT && listeners[l].op in created)
    && (forall l | l in listeners && !listeners[l].phase.Finished? :: listeners[l].op in ops && ops[listeners[l].op].task)
    && (forall k, l | k in listeners && l in listeners && k != l :: listeners[k].op != listeners[l].op)
  }

  ghost predicate ScopesOk(scopes: map<nat, ScopeState>, listeners: map<nat, Listener>) {
    && scopes.Keys == {CLIENT} + listeners.Keys
    && (forall l | l in listeners && l in scopes :: scopes[l] == ScopeState(Over(listeners[l].phase), Over(listeners[l].phase)))
  }

  /** Only serving listeners admit requests, and while one is starting the control lock is not free. */
  ghost predicate RegisteredOk(registered: set<nat>, listeners: map<nat, Listener>, control: Control) {
    && (forall l :: l in registered <==> l in listeners && listeners[l].phase.Serving?)
    && (forall l | l in listeners && listeners[l].phase.Starting? :: control == Listening(l))
  }

  ghost predicate ClientOk(scopes: map<nat, ScopeState>, control: Control) {
    CLIENT in scopes && scopes[CLIENT].closed == scopes[CLIENT].cancelled && (control.ClosingClient? ==> scopes[CLIENT].closed)
  }

  ghost predicate Inv(w: World) {
    && OpsOk(w.ops, w.created, w.listeners) && TasksOk(w.ops, w.created, w.listeners) && ScopesOk(w.scopes, w.listeners)
    && RegisteredOk(w.registered, w.listeners, w.control) && ClientOk(w.scopes, w.control)
  }

  lemma StartInv()
    ensures Inv(START)
  {
  }

  type Ops = map<nat, Op>

  type Listeners = map<nat, Listener>

  lemma BegunOps(ops: Ops, created: set<nat>, listeners: Listeners, l: nat, op: nat)
    requires OpsOk(ops, created, listeners) && l !in listeners && l != CLIENT
    ensures OpsOk(ops[op := Op(CLIENT, true, None)], created + {op}, listeners[l := Listener(op, Starting)])
  {
  }

  lemma BegunTasks(ops: Ops, created: set<nat>, listeners: Listeners, l: nat, op: nat)
    requires TasksOk(ops, created, listeners) && op !in created && l !in listeners && l != CLIENT
    ensures TasksOk(ops[op := Op(CLIENT, true, None)], created + {op}, listeners[l := Listener(op, Starting)])
  {
  }

  lemma BegunScopes(scopes: map<nat, ScopeState>, registered: set<nat>, listeners: Listeners, l: nat, op: nat)
    requires ScopesOk(scopes, listeners) && RegisteredOk(registered, listeners, Free) && l !in listeners
    ensures ScopesOk(scopes[l := ScopeState(false, false)], listeners[l := Listener(op, Starting)])
    ensures RegisteredOk(registered, listeners[l := Listener(op, Starting)], Listening(l))
  {
  }

  lemma BegunInv(w: World, l: nat, op: nat)
    requires Inv(w)
    ensures Inv(Begun(w, l, op))
  {
    hide OpsOk, TasksOk, RegisteredOk, ScopesOk;
    if w.control == Free && l !in w.scopes && op !in w.created {
      ScopeNames(w.scopes, w.listeners);
      BegunOps(w.ops, w.created, w.listeners, l, op);
      BegunTasks(w.ops, w.created, w.listeners, l, op);
      BegunScopes(w.scopes, w.registered, w.listeners, l, op);
    }
  }

  lemma ScopeNames(scopes: map<nat, ScopeState>, listeners: Listeners)
    requires ScopesOk(scopes, listeners)
    ensures forall l | l !in scopes :: l != CLIENT && l !in listeners
  {
  }

  lemma ReadyInv(w: World, l: nat)
    requires Inv(w)
    ensures Inv(ReadyToServe(w, l))
  {
    hide OpsOk, TasksOk, RegisteredOk, ScopesOk;
    if At(w, l, Starting) {
      ReadyTasks(w.ops, w.created, w.listeners, l);
      ReadyScopes(w.scopes, w.registered, w.listeners, w.control, l);
    }
  }

  lemma ReadyTasks(ops: Ops, created: set<nat>, listeners: Listeners, l: nat)
    requires OpsOk(ops, created, listeners) && TasksOk(ops, created, listeners) && l in listeners && listeners[l].phase == Starting
    ensures var after := listeners[l := listeners[l].(phase := Serving)];
            OpsOk(ops, created, after) && TasksOk(ops, created, after)
  {
  }

  lemma ReadyScopes(scopes: map<nat, ScopeState>, registered: set<nat>, listeners: Listeners, control: Control, l: nat)
    requires ScopesOk(scopes, listeners) && RegisteredOk(registered, listeners, control)
    requires l in listeners && listeners[l].phase == Starting
    ensures var after := listeners[l := listeners[l].(phase := Serving)];
            ScopesOk(scopes, after) && RegisteredOk(registered + {l}, after, Free)
  {
  }

  /** A listener that has no handlers finishes, and its task's operation goes. */
  lemma FinishedTask(ops: Ops, created: set<nat>, listeners: Listeners, l: nat)
    requires OpsOk(ops, created, listeners) && TasksOk(ops, created, listeners) && l in listeners
    requires forall o | o in ops :: ops[o].scope != l
    ensures var after := listeners[l := listeners[l].(phase := Finished)];
            OpsOk(ops - {listeners[l].op}, created, after) && TasksOk(ops - {listeners[l].op}, created, after)
  {
  }

  lemma GivenUpScopes(scopes: map<nat, ScopeState>, registered: set<nat>, listeners: Listeners, control: Control, l: nat)
    requires ScopesOk(scopes, listeners) && RegisteredOk(registered, listeners, control)
    requires l in listeners && listeners[l].phase == Starting
    ensures var after := listeners[l := listeners[l].(phase := Finished)];
            ScopesOk(scopes[l := ScopeState(true, true)], after) && RegisteredOk(registered, after, Free)
  {
  }

  lemma StartingIsEmpty(ops: Ops, created: set<nat>, listeners: Listeners, l: nat)
    requires OpsOk(ops, created, listeners) && l in listeners && listeners[l].phase == Starting
    requires TasksOk(ops, created, listeners)
    ensures l != CLIENT && forall o | o in ops :: ops[o].scope != l
  {
  }

  lemma GivenUpInv(w: World, l: nat)
    requires Inv(w)
    ensures Inv(GivenUp(w, l))
  {
    hide OpsOk, TasksOk, RegisteredOk, ScopesOk;
    if At(w, l, Starting) {
      StartingIsEmpty(w.ops, w.created, w.listeners, l);
      FinishedTask(w.ops, w.created, w.listeners, l);
      GivenUpScopes(w.scopes, w.registered, w.listeners, w.control, l);
    }
  }

  lemma RegisteredInv(w: World, scope: nat, op: nat)
    requires Inv(w) && (scope == CLIENT || (scope in w.listeners && w.listeners[scope].phase != Starting))
    ensures Inv(Registered(w, scope, op, false))
  {
  }

  lemma FailedInv(w: World, op: nat, error: Error)
    requires Inv(w)
    ensures Inv(Failed(w, op, error))
  {
    hide ScopesOk, RegisteredOk, ClientOk;
  }

  lemma EndedInv(w: World, op: nat)
    requires Inv(w)
    ensures Inv(Ended(w, op))
  {
    hide ScopesOk, RegisteredOk, ClientOk;
  }

  lemma WithdrawnInv(w: World, l: nat)
    requires Inv(w)
    ensures Inv(Withdrawn(w, l))
  {
  }

  lemma HandlersCancelledInv(w: World, l: nat)
    requires Inv(w)
    ensures Inv(HandlersCancelled(w, l))
  {
  }

  lemma TaskDoneInv(w: World, l: nat)
    requires Inv(w)
    ensures Inv(TaskDone(w, l))
  {
    hide OpsOk, TasksOk, RegisteredOk, ScopesOk;
    if At(w, l, Closing) && Empty(w, l) {
      FinishedTask(w.ops, w.created, w.listeners, l);
      DoneScopes(w.scopes, w.registered, w.listeners, w.control, l);
    }
  }

  lemma DoneScopes(scopes: map<nat, ScopeState>, registered: set<nat>, listeners: Listeners, control: Control, l: nat)
    requires ScopesOk(scopes, listeners) && RegisteredOk(registered, listeners, control)
    requires l in listeners && listeners[l].phase == Closing
    ensures var after := listeners[l := listeners[l].(phase := Finished)];
            ScopesOk(scopes, after) && RegisteredOk(registered, after, control)
  {
  }

  lemma CloseInv(w: World)
    requires Inv(w)
    ensures Inv(CloseBegun(w)) && (w.control == ClosingClient ==> Inv(w.(control := Free)))
  {
    hide OpsOk;
  }

  lemma StepInv(w: World, step: Step)
    requires Inv(w)
    ensures Inv(StepOf(w, step))
  {
    hide Inv, Begun, ReadyToServe, GivenUp, Registered, Failed, Ended, Withdrawn, HandlersCancelled, TaskDone, Empty;
    match step
    case ListenBegin(l, op) => BegunInv(w, l, op);
    case ListenReady(l) => ReadyInv(w, l);
    case ListenFail(l) => GivenUpInv(w, l);
    case Admit(l, op) => if l in w.listeners && w.listeners[l].phase != Starting { RegisteredInv(w, l, op); }
    case ClientRequest(op) => RegisteredInv(w, CLIENT, op);
    case OpFail(op, error) => FailedInv(w, op, error);
    case OpEnd(op) => EndedInv(w, op);
    case TaskWithdraw(l) => WithdrawnInv(w, l);
    case TaskCancel(l) => HandlersCancelledInv(w, l);
    case TaskFinish(l) => TaskDoneInv(w, l);
    case CloseBegin => CloseInv(w);
    case CloseReturn => CloseInv(w);
    case CloseAbort => CloseInv(w);
  }

  lemma {:induction false} RunInv(w: World, steps: seq<Step>)
    requires Inv(w)
    ensures Inv(RunOf(w, steps))
    decreases |steps|
  {
    hide Inv, StepOf;
    if steps != [] {
      StepInv(w, steps[0]);
      RunInv(StepOf(w, steps[0]), steps[1..]);
    }
  }

  // ----- what closing means

  /** A listener that has not finished keeps its operation in the client's scope. */
  lemma LiveTask(w: World, l: nat)
    requires Inv(w) && l in w.listeners
    ensures w.listeners[l].phase.Finished? || !Empty(w, CLIENT)
  {
    assert w.listeners[l].phase.Finished? || w.listeners[l].op in w.ops;
  }

  /** When closing a client may return, every operation is gone: its own, and those of its listeners' handlers. */
  lemma CloseReturnsWhenAllIsGone(steps: seq<Step>)
    ensures var w := RunOf(START, steps);
            CanReturn(w) ==>
              && w.ops == map[] && w.registered == {}
              && (forall l | l in w.listeners :: w.listeners[l].phase == Finished)
              && (forall s | s in w.scopes :: w.scopes[s] == ScopeState(true, true))
  {
    StartInv();
    RunInv(START, steps);
    var w := RunOf(START, steps);
    hide RunOf;
    if CanReturn(w) {
      forall l | l in w.listeners ensures w.listeners[l].phase == Finished {
        LiveTask(w, l);
      }
      assert forall o :: o !in w.ops;
    }
  }

  /** Handlers are cancelled with their listener only after its registration was withdrawn. */
  lemma WithdrawnBeforeCancelled(steps: seq<Step>, l: nat)
    ensures var w := RunOf(START, steps);
            l in w.listeners && l in w.scopes && w.scopes[l].cancelled ==> l !in w.registered
  {
    StartInv();
    RunInv(START, steps);
    hide RunOf;
  }

  /** What stays once it is so: a closed scope takes no operation more, and a first failure is never replaced. */
  ghost predicate Kept(w: World, n: World) {
    && (forall s | s in w.scopes :: s in n.scopes && (w.scopes[s].closed ==> n.scopes[s].closed))
    && (forall o | o in n.ops && n.ops[o].scope in w.scopes && w.scopes[n.ops[o].scope].closed :: o in w.ops && w.ops[o].scope == n.ops[o].scope)
    && (forall o | o in w.ops && o in n.ops && w.ops[o].failure.Some? :: n.ops[o].failure == w.ops[o].failure)
    && (forall o | o in n.ops :: o in w.ops || o !in w.created)
    && w.created <= n.created
  }

  lemma BegunKept(w: World, l: nat, op: nat)
    requires Inv(w)
    ensures Kept(w, Begun(w, l, op))
  {
    hide TasksOk, RegisteredOk, ClientOk;
  }

  lemma ReadyKept(w: World, l: nat)
    ensures Kept(w, ReadyToServe(w, l))
  {
  }

  lemma GivenUpKept(w: World, l: nat)
    ensures Kept(w, GivenUp(w, l))
  {
  }

  lemma RegisterKept(w: World, l: nat, op: nat)
    requires Inv(w)
    ensures Kept(w, StepOf(w, Admit(l, op))) && Kept(w, StepOf(w, ClientRequest(op)))
  {
    hide TasksOk, ScopesOk, RegisteredOk, ClientOk;
  }

  lemma TaskKept(w: World, l: nat)
    requires Inv(w)
    ensures Kept(w, StepOf(w, TaskWithdraw(l))) && Kept(w, StepOf(w, TaskCancel(l))) && Kept(w, StepOf(w, TaskFinish(l)))
  {
    hide Inv;
  }

  lemma OpKept(w: World, op: nat, error: Error)
    requires Inv(w)
    ensures Kept(w, StepOf(w, OpFail(op, error))) && Kept(w, StepOf(w, OpEnd(op)))
  {
    hide Inv;
  }

  lemma CloseKept(w: World)
    requires Inv(w)
    ensures Kept(w, StepOf(w, CloseBegin)) && Kept(w, StepOf(w, CloseReturn)) && Kept(w, StepOf(w, CloseAbort))
  {
    hide Inv;
  }

  lemma KeptStep(w: World, step: Step)
    requires Inv(w)
    ensures Kept(w, StepOf(w, step))
  {
    hide Inv, Kept, Begun, ReadyToServe, GivenUp, Admitted, Registered, Failed, Ended, Withdrawn, HandlersCancelled, TaskDone, CloseBegun;
    match step
    case ListenBegin(l, op) => BegunKept(w, l, op);
    case ListenReady(l) => ReadyKept(w, l);
    case ListenFail(l) => GivenUpKept(w, l);
    case Admit(l, op) => RegisterKept(w, l, op);
    case ClientRequest(op) => RegisterKept(w, CLIENT, op);
    case TaskWithdraw(l) => TaskKept(w, l);
    case TaskCancel(l) => TaskKept(w, l);
    case TaskFinish(l) => TaskKept(w, l);
    case OpFail(op, error) => OpKept(w, op, error);
    case OpEnd(op) => OpKept(w, op, Cancelled);
    case CloseBegin => CloseKept(w);
    case CloseReturn => CloseKept(w);
    case CloseAbort => CloseKept(w);
  }

  lemma KeptTwice(a: World, b: World, c: World)
    requires Kept(a, b) && Kept(b, c) && Inv(a) && Inv(b)
    ensures Kept(a, c)
  {
  }

  lemma {:induction false} ClosedForGood(w: World, steps: seq<Step>)
    requires Inv(w)
    ensures Kept(w, RunOf(w, steps))
    decreases |steps|
  {
    if steps != [] {
      hide Inv, StepOf, Kept;
      var next := StepOf(w, steps[0]);
      StepInv(w, steps[0]);
      KeptStep(w, steps[0]);
      RunInv(next, steps[1..]);
      ClosedForGood(next, steps[1..]);
      KeptTwice(w, next, RunOf(w, steps));
    }
  }

  /** Nothing lives, and nothing can be registered. */
  ghost predicate AllOver(w: World) {
    && w.ops == map[] && CLIENT in w.scopes && (forall s | s in w.scopes :: w.scopes[s].closed)
    && (forall l | l in w.listeners :: w.listeners[l].phase == Finished && l in w.scopes)
  }

  lemma OverStep(w: World, step: Step)
    requires AllOver(w)
    ensures AllOver(StepOf(w, step)) && StepOf(w, step).created == w.created
  {
  }

  /** Once closing has returned, nothing ever lives again. */
  lemma {:induction false} OverForGood(w: World, steps: seq<Step>)
    requires AllOver(w)
    ensures RunOf(w, steps).ops == map[] && RunOf(w, steps).created == w.created
    decreases |steps|
  {
    if steps != [] {
      hide StepOf, AllOver;
      OverStep(w, steps[0]);
      OverForGood(StepOf(w, steps[0]), steps[1..]);
    }
  }

  lemma NothingAfterClose(steps: seq<Step>, later: seq<Step>)
    requires CanReturn(RunOf(START, steps))
    ensures var w := RunOf(START, steps); RunOf(w, later).ops == map[] && RunOf(w, later).created == w.created
  {
    hide RunOf;
    StartInv();
    RunInv(START, steps);
    CloseReturnsWhenAllIsGone(steps);
    OverForGood(RunOf(START, steps), later);
  }
}
