/**
 An update of outer mappings next to other owners of the registry: it drops all endpoints of its socket before it registers
 the new ones, and on a failure registers the earlier ones again without looking at the result. Others may register and
 unregister endpoints of their own between any two of these calls.
 */
module NatRaces {
  import opened Wrappers
  import opened Registries
  import opened NatMappings

  datatype Stage = Registering | Registered | Failing | Restoring | GivenBack

  /** `todo` are the endpoints still to be tried, `lost` those whose restoration was refused, `claimed` what others took. */
  datatype Update = Update(
    quic: Endpoints, stage: Stage, todo: set<EndpointAddr>, lost: set<EndpointAddr>, claimed: set<EndpointAddr>)

  /** The socket, and the endpoints of its earlier and of its new mappings. */
  datatype Job = Job(socket: UdpSocket, previous: set<EndpointAddr>, desired: set<EndpointAddr>)

  datatype Step =
    | Try(endpoint: EndpointAddr)
    | PublishFails
    | Undo
    | Claim(endpoint: EndpointAddr, owner: UdpSocket)
    | Release(endpoint: EndpointAddr)

  /** The registry was free of conflicts when it was checked; now the socket's own endpoints are dropped. */
  function Begun(job: Job, quic: Endpoints): Update {
    Update(Without(quic, job.socket.bound), Registering, job.desired, {}, {})
  }

  function Tried(job: Job, u: Update, e: EndpointAddr): Update {
    var todo := u.todo - {e};
    if e !in u.todo then u
    else
      match u.stage
      case Registering =>
        if e in u.quic then u.(stage := Failing)
        else u.(quic := u.quic[e := job.socket], todo := todo, stage := if todo == {} then Registered else Registering)
      case Restoring =>
        if e in u.quic then u.(lost := u.lost + {e}, todo := todo, stage := if todo == {} then GivenBack else Restoring)
        else u.(quic := u.quic[e := job.socket], todo := todo, stage := if todo == {} then GivenBack else Restoring)
      case _ => u
  }

  function StepOf(job: Job, u: Update, step: Step): Update {
    match step
    case Try(e) => Tried(job, u, e)
    case PublishFails => if u.stage == Registered then u.(stage := Failing) else u
    case Undo =>
      if u.stage == Failing then u.(quic := Without(u.quic, job.socket.bound), stage := Restoring, todo := job.previous) else u
    case Claim(e, owner) =>
      if e in u.quic || owner.bound == job.socket.bound then u else u.(quic := u.quic[e := owner], claimed := u.claimed + {e})
    case Release(e) => if e in u.quic && u.quic[e].bound != job.socket.bound then u.(quic := u.quic - {e}) else u
  }

  function RunOf(job: Job, u: Update, steps: seq<Step>): Update
    decreases |steps|
  {
    if steps == [] then u else RunOf(job, StepOf(job, u, steps[0]), steps[1..])
  }

  /** What the update starts from: the socket has exactly its earlier endpoints, and no new one is another's. */
  ghost predicate Ready(job: Job, quic: Endpoints) {
    && (forall e | e in quic && quic[e].bound == job.socket.bound :: quic[e] == job.socket)
    && OwnedBy(quic, job.socket) == job.previous && !Conflicts(quic, job.socket, job.desired)
    && Direct(job.socket.bound) in job.previous && Direct(job.socket.bound) in job.desired
  }

  /** Every update that passes its check for conflicts begins so. */
  lemma UpdateIsReady(
      quic: Endpoints, published: Endpoints, socket: UdpSocket, natType: Option<NatType>,
      previous: OuterAddrMappings, refreshed: OuterAddrMappings)
    requires Synced(quic, published, socket, natType, previous)
    requires !Conflicts(quic, socket, RegisteredEndpoints(socket.bound, refreshed))
    ensures Ready(Job(socket, RegisteredEndpoints(socket.bound, previous), RegisteredEndpoints(socket.bound, refreshed)), quic)
  {
    hide OwnedBy, PublishedEndpoints;
  }

  // ----- in every interleaving

  ghost predicate OthersOk(job: Job, u: Update) {
    && (forall e | e in u.quic && u.quic[e].bound == job.socket.bound :: u.quic[e] == job.socket)
    && (forall e | e in u.quic && u.quic[e] != job.socket && e in job.previous :: e in u.claimed)
  }

  ghost predicate OwnOk(job: Job, u: Update) {
    var own := OwnedBy(u.quic, job.socket);
    match u.stage
    case Registering => u.todo != {} && u.todo <= job.desired && own == job.desired - u.todo && u.lost == {}
    case Registered => own == job.desired && u.lost == {}
    case Failing => u.lost == {}
    case Restoring => u.todo != {} && u.todo <= job.previous && own == job.previous - u.todo - u.lost
                      && u.lost <= job.previous * u.claimed && u.todo !! u.lost
    case GivenBack => own == job.previous - u.lost && u.lost <= job.previous * u.claimed
  }

  ghost predicate Inv(job: Job, u: Update) {
    OthersOk(job, u) && OwnOk(job, u)
  }

  lemma BegunInv(job: Job, quic: Endpoints)
    requires Ready(job, quic)
    ensures Inv(job, Begun(job, quic))
  {
    forall e | e in quic && e in job.previous ensures quic[e] == job.socket {
      assert e in OwnedBy(quic, job.socket);
    }
  }

  lemma AddedOwn(quic: Endpoints, e: EndpointAddr, owner: UdpSocket, socket: UdpSocket)
    requires e !in quic
    ensures OwnedBy(quic[e := owner], socket) == OwnedBy(quic, socket) + if owner == socket then {e} else {}
  {
  }

  lemma TriedInv(job: Job, u: Update, e: EndpointAddr)
    requires Inv(job, u)
    ensures Inv(job, Tried(job, u, e))
  {
    if e in u.todo {
      if e !in u.quic {
        AddedOwn(u.quic, e, job.socket, job.socket);
      } else if u.stage == Restoring {
        assert e !in OwnedBy(u.quic, job.socket);
      }
    }
    hide OwnedBy;
  }

  lemma ClaimInv(job: Job, u: Update, e: EndpointAddr, owner: UdpSocket)
    requires Inv(job, u)
    ensures Inv(job, StepOf(job, u, Claim(e, owner)))
  {
    if e !in u.quic {
      AddedOwn(u.quic, e, owner, job.socket);
    }
    hide OwnedBy;
  }

  lemma ReleaseInv(job: Job, u: Update, e: EndpointAddr)
    requires Inv(job, u)
    ensures Inv(job, StepOf(job, u, Release(e)))
  {
    if e in u.quic && u.quic[e].bound != job.socket.bound {
      assert OwnedBy(u.quic - {e}, job.socket) == OwnedBy(u.quic, job.socket);
    }
    hide OwnedBy;
  }

  lemma UndoInv(job: Job, u: Update)
    requires Inv(job, u) && job.previous != {}
    ensures Inv(job, StepOf(job, u, Undo)) && Inv(job, StepOf(job, u, PublishFails))
  {
    assert OwnedBy(Without(u.quic, job.socket.bound), job.socket) == {};
    hide OwnedBy;
  }

  lemma StepInv(job: Job, u: Update, step: Step)
    requires Inv(job, u) && job.previous != {}
    ensures Inv(job, StepOf(job, u, step))
  {
    hide Inv;
    match step
    case Try(e) => TriedInv(job, u, e);
    case PublishFails => UndoInv(job, u);
    case Undo => UndoInv(job, u);
    case Claim(e, owner) => ClaimInv(job, u, e, owner);
    case Release(e) => ReleaseInv(job, u, e);
  }

  lemma {:induction false} RunInv(job: Job, u: Update, steps: seq<Step>)
    requires Inv(job, u) && job.previous != {}
    ensures Inv(job, RunOf(job, u, steps))
    decreases |steps|
  {
    hide Inv, StepOf;
    if steps != [] {
      StepInv(job, u, steps[0]);
      RunInv(job, StepOf(job, u, steps[0]), steps[1..]);
    }
  }

  /**
   However others act in between, an update that succeeds leaves exactly the new endpoints; one that fails leaves the earlier
   ones except those whose restoration was refused, each of which another owner registered during the update.
   */
  lemma OnlyClaimedIsLost(job: Job, quic: Endpoints, steps: seq<Step>)
    requires Ready(job, quic)
    ensures var u := RunOf(job, Begun(job, quic), steps);
            && (u.stage == Registered ==> OwnedBy(u.quic, job.socket) == job.desired)
            && (u.stage == GivenBack ==>
                  OwnedBy(u.quic, job.socket) == job.previous - u.lost && u.lost <= job.previous * u.claimed)
  {
    hide RunOf, OwnedBy;
    BegunInv(job, quic);
    RunInv(job, Begun(job, quic), steps);
  }

  // ----- and everything can be lost

  lemma {:induction false} RunAppend(job: Job, u: Update, first: seq<Step>, second: seq<Step>)
    ensures RunOf(job, u, first + second) == RunOf(job, RunOf(job, u, first), second)
    decreases |first|
  {
    hide StepOf;
    if first == [] {
      assert first + second == second;
    } else {
      assert (first + second)[1..] == first[1..] + second;
      RunAppend(job, StepOf(job, u, first[0]), first[1..], second);
    }
  }

  lemma RunOne(job: Job, u: Update, step: Step)
    ensures RunOf(job, u, [step]) == StepOf(job, u, step)
  {
    hide StepOf;
    assert [step][1..] == [];
  }

  lemma ClaimOne(job: Job, u: Update, e: EndpointAddr, owner: UdpSocket)
    requires owner.bound != job.socket.bound && e !in u.quic
    ensures StepOf(job, u, Claim(e, owner)) == u.(quic := u.quic[e := owner], claimed := u.claimed + {e})
  {
  }

  lemma AssignOne(quic: Endpoints, endpoints: set<EndpointAddr>, e: EndpointAddr, owner: UdpSocket)
    requires e in endpoints
    ensures quic[e := owner] + Assign(endpoints - {e}, owner) == quic + Assign(endpoints, owner)
  {
  }

  /** Another owner registers free endpoints. */
  lemma {:induction false} ClaimAll(job: Job, u: Update, endpoints: set<EndpointAddr>, owner: UdpSocket) returns (steps: seq<Step>)
    requires owner.bound != job.socket.bound && endpoints !! u.quic.Keys
    ensures RunOf(job, u, steps) == u.(quic := u.quic + Assign(endpoints, owner), claimed := u.claimed + endpoints)
    decreases |endpoints|
  {
    hide StepOf;
    if endpoints == {} {
      steps := [];
      assert u.quic + Assign({}, owner) == u.quic && u.claimed + {} == u.claimed;
    } else {
      var e :| e in endpoints;
      var next := u.(quic := u.quic[e := owner], claimed := u.claimed + {e});
      ClaimOne(job, u, e, owner);
      var rest := ClaimAll(job, next, endpoints - {e}, owner);
      AssignOne(u.quic, endpoints, e, owner);
      assert next.claimed + (endpoints - {e}) == u.claimed + endpoints;
      steps := [Claim(e, owner)] + rest;
      RunAppend(job, u, [Claim(e, owner)], rest);
      RunOne(job, u, Claim(e, owner));
    }
  }

  lemma RestoreOne(job: Job, u: Update, e: EndpointAddr)
    requires u.stage == Restoring && e in u.todo
    ensures var next := StepOf(job, u, Try(e));
            && next.todo == u.todo - {e} && next.stage == (if next.todo == {} then GivenBack else Restoring)
            && next.lost + next.todo * next.quic.Keys == u.lost + u.todo * u.quic.Keys
  {
    assert u.todo == {e} + (u.todo - {e});
    assert u.todo * u.quic.Keys == (if e in u.quic then {e} else {}) + (u.todo - {e}) * u.quic.Keys;
  }

  /** The restoration goes through its endpoints; those that are taken are lost. */
  lemma {:induction false} RestoreAll(job: Job, u: Update) returns (steps: seq<Step>)
    requires u.stage == Restoring && u.todo != {}
    ensures var n := RunOf(job, u, steps); n.stage == GivenBack && n.lost == u.lost + u.todo * u.quic.Keys
    decreases |u.todo|
  {
    hide StepOf;
    var e :| e in u.todo;
    var next := StepOf(job, u, Try(e));
    RestoreOne(job, u, e);
    RunOne(job, u, Try(e));
    if next.todo == {} {
      steps := [Try(e)];
      assert next.lost + next.todo * next.quic.Keys == next.lost;
    } else {
      var rest := RestoreAll(job, next);
      steps := [Try(e)] + rest;
      RunAppend(job, u, [Try(e)], rest);
    }
  }

  /** Up to the restoration: another owner takes the direct endpoint just before it is registered, and lets it go again. */
  lemma FailsAtOnce(job: Job, quic: Endpoints, owner: UdpSocket) returns (steps: seq<Step>)
    requires Ready(job, quic) && owner.bound != job.socket.bound
    ensures var u := RunOf(job, Begun(job, quic), steps);
            u.stage == Restoring && u.todo == job.previous && u.lost == {} && u.quic == Without(quic, job.socket.bound)
  {
    var direct, rest := Direct(job.socket.bound), Without(quic, job.socket.bound);
    assert direct !in rest by {
      assert direct in OwnedBy(quic, job.socket);
    }
    var s0 := Begun(job, quic);
    var s1 := s0.(quic := rest[direct := owner], claimed := {direct});
    var s2 := s1.(stage := Failing);
    var s3 := s2.(stage := Restoring, todo := job.previous);
    var s4 := s3.(quic := rest);
    assert StepOf(job, s0, Claim(direct, owner)) == s1 && Tried(job, s1, direct) == s2;
    assert Without(s2.quic, job.socket.bound) == s2.quic && s2.quic - {direct} == rest;
    assert StepOf(job, s2, Undo) == s3 && StepOf(job, s3, Release(direct)) == s4;
    hide StepOf;
    RunOne(job, s0, Claim(direct, owner));
    RunOne(job, s1, Try(direct));
    RunOne(job, s2, Undo);
    RunOne(job, s3, Release(direct));
    RunAppend(job, s0, [Claim(direct, owner)], [Try(direct)]);
    RunAppend(job, s0, [Claim(direct, owner)] + [Try(direct)], [Undo]);
    RunAppend(job, s0, [Claim(direct, owner)] + [Try(direct)] + [Undo], [Release(direct)]);
    steps := [Claim(direct, owner)] + [Try(direct)] + [Undo] + [Release(direct)];
  }

  /** Any set of its earlier endpoints, the direct one included, can be what the socket loses. */
  lemma AnythingCanBeLost(job: Job, quic: Endpoints, owner: UdpSocket, loss: set<EndpointAddr>) returns (steps: seq<Step>)
    requires Ready(job, quic) && owner.bound != job.socket.bound && loss <= job.previous
    ensures var u := RunOf(job, Begun(job, quic), steps);
            u.stage == GivenBack && u.lost == loss && OwnedBy(u.quic, job.socket) == job.previous - loss
  {
    hide RunOf, StepOf, Begun;
    var first := FailsAtOnce(job, quic, owner);
    var u := RunOf(job, Begun(job, quic), first);
    PreviousIsFree(job, quic);
    var second := ClaimAll(job, u, loss, owner);
    var v := RunOf(job, u, second);
    var third := RestoreAll(job, v);
    assert job.previous * v.quic.Keys == loss;
    RunAppend(job, Begun(job, quic), first, second);
    RunAppend(job, Begun(job, quic), first + second, third);
    steps := first + second + third;
    OnlyClaimedIsLost(job, quic, steps);
  }

  lemma PreviousIsFree(job: Job, quic: Endpoints)
    requires Ready(job, quic)
    ensures job.previous !! Without(quic, job.socket.bound).Keys
  {
    forall e | e in job.previous ensures e !in Without(quic, job.socket.bound) {
      assert e in OwnedBy(quic, job.socket);
    }
  }
}
