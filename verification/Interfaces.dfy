/**
 Interface bindings: sockets bound for the addresses of the current network interfaces, reconciled against snapshots,
 with registration that leaves no trace when it fails and withdrawal that takes every endpoint along.
 */
module InterfaceBindings {
  import opened Wrappers
  import opened Registries
  import opened NatMappings

  /** A desired binding without a port; the hardware identity detects a replaced interface of the same name. */
  datatype InterfaceAddress = InterfaceAddress(name: string, index: int, hardware: string, addr: SocketAddr)

  /** An interface's binding; its NAT maintenance, where the address supports it, is the state of its probe. */
  datatype Binding = Binding(socket: UdpSocket, probe: Option<Probe>)

  type Bindings = map<InterfaceAddress, Binding>

  /** What the registries hold for everybody. */
  datatype Net = Net(
    sockets: map<SocketAddr, UdpSocket>, quic: Endpoints, published: Endpoints, natTypes: map<SocketAddr, NatType>)
  {
    predicate Holds(socket: UdpSocket) {
      socket.bound in sockets && sockets[socket.bound] == socket
    }

    predicate Valid() {
      && (forall b | b in sockets :: sockets[b].bound == b)
      && (forall e | e in quic :: Holds(quic[e]))
    }
  }

  predicate SupportsNatProbe(bound: SocketAddr) {
    bound.scope != Some(Loopback) && !bound.linkLocal
  }

  function InitialProbe(bound: SocketAddr): Option<Probe> {
    if SupportsNatProbe(bound) then Some(Initial) else None
  }

  /** The outcome of registering a socket: a binding, nothing for an address that is held, or an error. */
  function Outcome(net: Net, socket: UdpSocket): Result<Option<Binding>, IoError> {
    var direct := Direct(socket.bound);
    if socket.bound in net.sockets then Ok(None)
    else if direct in net.quic then Err(AddrInUse)
    else if socket.bound.scope.Some? && direct in net.published then Err(Other)
    else Ok(Some(Binding(socket, InitialProbe(socket.bound))))
  }

  /** All of a registration, or nothing. */
  function Registered(net: Net, socket: UdpSocket): Net {
    var direct := Direct(socket.bound);
    match Outcome(net, socket)
    case Ok(Some(_)) =>
      net.(sockets := net.sockets[socket.bound := socket], quic := net.quic[direct := socket],
           published := if socket.bound.scope.Some? then net.published[direct := socket] else net.published)
    case _ => net
  }

  function BoundsOf(sockets: set<UdpSocket>): set<SocketAddr> {
    set s | s in sockets :: s.bound
  }

  /** The registries once some sockets are withdrawn: publications and NAT types go by bound address. */
  function Withdrawn(net: Net, gone: set<UdpSocket>): Net {
    Net(map b | b in net.sockets && net.sockets[b] !in gone :: net.sockets[b],
        map e | e in net.quic && net.quic[e] !in gone :: net.quic[e],
        map e | e in net.published && net.published[e].bound !in BoundsOf(gone) :: net.published[e],
        net.natTypes - BoundsOf(gone))
  }

  predicate Live(net: Net, finished: set<UdpSocket>, binding: Binding) {
    binding.socket !in finished && net.Holds(binding.socket)
  }

  /** Bindings whose receiver ended, whose socket the dock lost, or whose interface address is not current any more. */
  function Obsolete(net: Net, bindings: Bindings, current: seq<InterfaceAddress>, finished: set<UdpSocket>): set<InterfaceAddress> {
    set key | key in bindings && (!Live(net, finished, bindings[key]) || key !in current)
  }

  function SocketsOf(bindings: Bindings): set<UdpSocket> {
    set key | key in bindings :: bindings[key].socket
  }

  function Restricted(bindings: Bindings, keys: set<InterfaceAddress>): Bindings {
    map key | key in bindings && key in keys :: bindings[key]
  }

  /** Fill the gaps in the order in which the current addresses come; an address that cannot be opened is skipped. */
  function Filled(net: Net, bindings: Bindings, current: seq<InterfaceAddress>, openings: map<InterfaceAddress, UdpSocket>)
    : (Net, Bindings)
    decreases |current|
  {
    if current == [] then (net, bindings)
    else
      var key := current[0];
      if key in bindings || key !in openings then Filled(net, bindings, current[1..], openings)
      else
        match Outcome(net, openings[key])
        case Ok(Some(binding)) => Filled(Registered(net, openings[key]), bindings[key := binding], current[1..], openings)
        case _ => Filled(net, bindings, current[1..], openings)
  }

  function Pruned(net: Net, bindings: Bindings, current: seq<InterfaceAddress>, finished: set<UdpSocket>): (Net, Bindings) {
    var obsolete := Obsolete(net, bindings, current, finished);
    (Withdrawn(net, SocketsOf(Restricted(bindings, obsolete))), bindings - obsolete)
  }

  function Scanned(
      net: Net, bindings: Bindings, current: seq<InterfaceAddress>, finished: set<UdpSocket>,
      openings: map<InterfaceAddress, UdpSocket>): (Net, Bindings)
  {
    var (pruned, kept) := Pruned(net, bindings, current, finished);
    Filled(pruned, kept, current, openings)
  }

  class InterfacesCtx {
    const dock: Dock
    const addresses: AddressBook
    var bindings: Bindings

    constructor (dock: Dock, addresses: AddressBook)
      ensures this.dock == dock && this.addresses == addresses && bindings == map[]
    {
      this.dock, this.addresses, bindings := dock, addresses, map[];
    }

    function Registry(): Net
      reads dock, addresses
    {
      Net(dock.sockets, dock.quic, addresses.published, addresses.natTypes)
    }

    method Register(socket: UdpSocket) returns (r: Result<Option<Binding>, IoError>)
      requires dock.Valid()
      modifies dock, addresses`published
      ensures dock.Valid()
      ensures r == Outcome(old(Registry()), socket) && Registry() == Registered(old(Registry()), socket)
    {
      var added := dock.Add(socket);
      if added.Err? {
        return Err(added.error);
      }
      if !added.value {
        return Ok(None);
      }
      var published := true;
      if socket.bound.scope.Some? {
        published := addresses.Insert(socket, Direct(socket.bound));
      }
      if !published {
        var removed := dock.Remove(socket);
        assert dock.sockets == old(dock.sockets);
        assert dock.quic == old(dock.quic);
        return Err(Other);
      }
      return Ok(Some(Binding(socket, InitialProbe(socket.bound))));
    }

    method Withdraw(socket: UdpSocket)
      requires dock.Valid()
      modifies dock, addresses
      ensures dock.Valid() && Registry() == Withdrawn(old(Registry()), {socket})
    {
      assert BoundsOf({socket}) == {socket.bound};
      addresses.RemoveBound(socket.bound);
      var removed := dock.Remove(socket);
      assert dock.sockets == Withdrawn(old(Registry()), {socket}).sockets;
    }

    /** One pass over the table: withdraw what is obsolete, then bind what is missing. */
    method Scan(current: seq<InterfaceAddress>, finished: set<UdpSocket>, openings: map<InterfaceAddress, UdpSocket>)
      requires dock.Valid()
      modifies this`bindings, dock, addresses
      ensures dock.Valid()
      ensures (Registry(), bindings) == Scanned(old(Registry()), old(bindings), current, finished, openings)
    {
      ghost var net, table := Registry(), bindings;
      var obsolete := set key | key in bindings &&
        (!(bindings[key].socket !in finished && dock.Holds(bindings[key].socket)) || key !in current);
      assert obsolete == Obsolete(net, table, current, finished);
      WithdrawKeys(obsolete);
      ghost var pruned, kept := Registry(), bindings;
      var i := 0;
      while i < |current|
        invariant i <= |current| && dock.Valid()
        invariant Filled(Registry(), bindings, current[i..], openings) == Filled(pruned, kept, current, openings)
      {
        var key := current[i];
        assert current[i..][1..] == current[i + 1..];
        if key !in bindings && key in openings {
          var registered := Register(openings[key]);
          if registered.Ok? && registered.value.Some? {
            bindings := bindings[key := registered.value.value];
          }
        }
        i := i + 1;
      }
    }

    method WithdrawKeys(keys: set<InterfaceAddress>)
      requires dock.Valid() && keys <= bindings.Keys
      modifies this`bindings, dock, addresses
      ensures dock.Valid()
      ensures Registry() == Withdrawn(old(Registry()), SocketsOf(Restricted(old(bindings), keys)))
      ensures bindings == old(bindings) - keys
    {
      ghost var net, table := Registry(), bindings;
      var todo := keys;
      NothingWithdrawn(net, table);
      while todo != {}
        invariant todo <= keys && dock.Valid() && bindings == table - (keys - todo)
        invariant Registry() == Withdrawn(net, SocketsOf(Restricted(table, keys - todo)))
        decreases todo
      {
        var key :| key in todo;
        var socket := bindings[key].socket;
        bindings := bindings - {key};
        WithdrawnTwice(net, SocketsOf(Restricted(table, keys - todo)), {socket});
        Withdraw(socket);
        assert keys - (todo - {key}) == keys - todo + {key};
        OneMoreSocket(table, keys - todo, key);
        todo := todo - {key};
      }
      assert keys - todo == keys;
    }

    method Drop()
      requires dock.Valid()
      modifies this`bindings, dock, addresses
      ensures dock.Valid() && bindings == map[]
      ensures Registry() == Withdrawn(old(Registry()), SocketsOf(old(bindings)))
    {
      assert Restricted(bindings, bindings.Keys) == bindings;
      WithdrawKeys(bindings.Keys);
    }
  }

  lemma OneMoreSocket(bindings: Bindings, keys: set<InterfaceAddress>, key: InterfaceAddress)
    requires key in bindings
    ensures SocketsOf(Restricted(bindings, keys + {key})) == SocketsOf(Restricted(bindings, keys)) + {bindings[key].socket}
  {
    var more, less := Restricted(bindings, keys + {key}), Restricted(bindings, keys);
    assert more.Keys == less.Keys + {key};
  }

  lemma NothingWithdrawn(net: Net, bindings: Bindings)
    ensures Withdrawn(net, SocketsOf(Restricted(bindings, {}))) == net
  {
    assert SocketsOf(Restricted(bindings, {})) == {};
  }

  lemma WithdrawnTwice(net: Net, first: set<UdpSocket>, second: set<UdpSocket>)
    ensures Withdrawn(Withdrawn(net, first), second) == Withdrawn(net, first + second)
  {
    assert BoundsOf(first + second) == BoundsOf(first) + BoundsOf(second);
    var a, b := Withdrawn(Withdrawn(net, first), second), Withdrawn(net, first + second);
    assert a.published == b.published;
    assert a.natTypes == b.natTypes;
  }

  // ----- whole runs

  datatype World = World(net: Net, bindings: Bindings)

  datatype Step =
    | Scan(current: seq<InterfaceAddress>, finished: set<UdpSocket>, openings: map<InterfaceAddress, UdpSocket>)
    | PollNat(key: InterfaceAddress, ready: seq<Ready>)
    | ResumeNats
    | Lost(socket: UdpSocket)
    | ForeignAdd(socket: UdpSocket)
    | ForeignRegister(endpoint: EndpointAddr, owner: UdpSocket)
    | ForeignPublish(endpoint: EndpointAddr, owner: UdpSocket)
    | ForeignWithdraw(owner: UdpSocket)
    | Stop

  function ProbeOf(binding: Binding): Probe {
    if binding.probe.Some? then binding.probe.value else Initial
  }

  function SiteOf(net: Net, binding: Binding): Site {
    Site(net.quic, net.published, net.natTypes, ProbeOf(binding))
  }

  /** Freshly opened sockets are new: told apart from each other and all others, and without publications. */
  ghost predicate Fresh(net: Net, bindings: Bindings, openings: map<InterfaceAddress, UdpSocket>) {
    && (forall k, l | k in openings && l in openings && k != l :: openings[k] != openings[l])
    && (forall k | k in openings :: OwnedBy(net.published, openings[k]) == {} && openings[k] !in SocketsOf(bindings))
  }

  /** Steps that can happen: other owners act on their own sockets, and insertions fail on what exists. */
  ghost predicate Possible(w: World, step: Step) {
    match step
    case Scan(_, _, openings) => Fresh(w.net, w.bindings, openings)
    case PollNat(key, _) => key in w.bindings && w.bindings[key].probe.Some? && w.net.Holds(w.bindings[key].socket)
    case ResumeNats => true
    case Lost(socket) => true
    case ForeignAdd(s) => s !in SocketsOf(w.bindings) && s.bound !in w.net.sockets && Direct(s.bound) !in w.net.quic
    case ForeignRegister(e, owner) => w.net.Holds(owner) && owner !in SocketsOf(w.bindings) && e !in w.net.quic
    case ForeignPublish(e, owner) => owner !in SocketsOf(w.bindings) && e !in w.net.published
    case ForeignWithdraw(owner) => w.net.Holds(owner) && owner !in SocketsOf(w.bindings)
    case Stop => true
  }

  function Effect(w: World, step: Step): World {
    match step
    case Scan(current, finished, openings) =>
      var (net, bindings) := Scanned(w.net, w.bindings, current, finished, openings);
      World(net, bindings)
    case PollNat(key, ready) =>
      if key !in w.bindings || w.bindings[key].probe.None? then w
      else
        var binding := w.bindings[key];
        var site := Polled(binding.socket, SiteOf(w.net, binding), ready);
        World(w.net.(quic := site.quic, published := site.published, natTypes := site.natTypes),
              w.bindings[key := binding.(probe := Some(site.probe))])
    case ResumeNats =>
      w.(bindings := map k | k in w.bindings ::
           if w.bindings[k].probe.Some? then w.bindings[k].(probe := Some(Resumed(w.bindings[k].probe.value))) else w.bindings[k])
    case Lost(socket) => w.(net := Undocked(w.net, socket))
    case ForeignAdd(s) =>
      w.(net := w.net.(sockets := w.net.sockets[s.bound := s], quic := w.net.quic[Direct(s.bound) := s]))
    case ForeignRegister(e, owner) => w.(net := w.net.(quic := w.net.quic[e := owner]))
    case ForeignPublish(e, owner) => w.(net := w.net.(published := w.net.published[e := owner]))
    case ForeignWithdraw(owner) => w.(net := Withdrawn(w.net, {owner}))
    case Stop => World(Withdrawn(w.net, SocketsOf(w.bindings)), map[])
  }

  /** A socket leaves the dock on its own, with its endpoints; its publications stay until its owner withdraws them. */
  function Undocked(net: Net, socket: UdpSocket): Net {
    net.(sockets := map b | b in net.sockets && net.sockets[b] != socket :: net.sockets[b],
         quic := map e | e in net.quic && net.quic[e] != socket :: net.quic[e])
  }

  ghost function StepOf(w: World, step: Step): World {
    if Possible(w, step) then Effect(w, step) else w
  }

  ghost function RunOf(w: World, steps: seq<Step>): World
    decreases |steps|
  {
    if steps == [] then w else RunOf(StepOf(w, steps[0]), steps[1..])
  }

  /** What the dock holds of a binding is in step, and its direct endpoint is published exactly if its address has a scope. */
  ghost predicate BindingInStep(net: Net, binding: Binding) {
    net.Holds(binding.socket) ==>
      && SiteInStep(binding.socket, SiteOf(net, binding))
      && (Direct(binding.socket.bound) in OwnedBy(net.published, binding.socket) <==> binding.socket.bound.scope.Some?)
  }

  /** Everything a binding publishes: its mappings', and its own direct endpoint where its address has a scope. */
  function Publication(socket: UdpSocket, probe: Probe): set<EndpointAddr> {
    PublishedEndpoints(socket.bound, NatTypeOf(probe), MappingsOf(probe))
    + if socket.bound.scope.Some? then {Direct(socket.bound)} else {}
  }

  ghost predicate Distinct(bindings: Bindings) {
    forall k, l | k in bindings && l in bindings && k != l :: bindings[k].socket.bound != bindings[l].socket.bound
  }

  /** Bindings have their own addresses, and what the dock still holds of them is in step. */
  ghost predicate InStep(w: World) {
    && w.net.Valid() && Distinct(w.bindings)
    && forall k | k in w.bindings :: BindingInStep(w.net, w.bindings[k])
  }

  /** The parts of the registries that `InStep` reads for one socket are the same. */
  ghost predicate SameFor(before: Net, after: Net, socket: UdpSocket) {
    && OwnedBy(after.quic, socket) == OwnedBy(before.quic, socket)
    && OwnedBy(after.published, socket) == OwnedBy(before.published, socket)
    && (after.Holds(socket) ==> before.Holds(socket))
  }

  lemma SameStaysInStep(before: Net, after: Net, binding: Binding)
    requires before.Valid() && after.Valid() && BindingInStep(before, binding) && SameFor(before, after, binding.socket)
    ensures BindingInStep(after, binding)
  {
  }

  // ----- registration and scanning

  /** Nothing that was there changes, and everything new belongs to one of the given sockets. */
  ghost predicate Grown(before: Net, after: Net, newcomers: set<UdpSocket>) {
    && (forall b | b in before.sockets :: b in after.sockets && after.sockets[b] == before.sockets[b])
    && (forall e | e in before.quic :: e in after.quic && after.quic[e] == before.quic[e])
    && (forall e | e in before.published :: e in after.published && after.published[e] == before.published[e])
    && (forall b | b in after.sockets && b !in before.sockets :: after.sockets[b] in newcomers)
    && (forall e | e in after.quic && e !in before.quic :: after.quic[e] in newcomers)
    && (forall e | e in after.published && e !in before.published :: after.published[e] in newcomers)
    && after.natTypes == before.natTypes
  }

  lemma GrownTwice(a: Net, b: Net, c: Net, first: set<UdpSocket>, second: set<UdpSocket>)
    requires Grown(a, b, first) && Grown(b, c, second)
    ensures Grown(a, c, first + second)
  {
  }

  lemma GrownKeepsOthers(before: Net, after: Net, newcomers: set<UdpSocket>, other: UdpSocket)
    requires Grown(before, after, newcomers) && other !in newcomers && before.Valid()
    ensures SameFor(before, after, other)
  {
    forall e ensures e in OwnedBy(after.quic, other) <==> e in OwnedBy(before.quic, other) {}
    forall e ensures e in OwnedBy(after.published, other) <==> e in OwnedBy(before.published, other) {}
  }

  predicate Succeeds(net: Net, socket: UdpSocket) {
    Outcome(net, socket).Ok? && Outcome(net, socket).value.Some?
  }

  lemma RegisteredGrows(net: Net, socket: UdpSocket)
    requires net.Valid()
    ensures Registered(net, socket).Valid() && Grown(net, Registered(net, socket), {socket})
  {
    hide Grown;
    RegisteredOnlyAdds(net, socket);
  }

  lemma RegisteredOnlyAdds(net: Net, socket: UdpSocket)
    ensures Grown(net, Registered(net, socket), {socket})
  {
  }

  /** A registered socket starts in step, with no mappings; a refused one leaves the registries as they were. */
  lemma RegisteredInStep(net: Net, socket: UdpSocket)
    requires net.Valid() && OwnedBy(net.published, socket) == {}
    ensures var next := Registered(net, socket);
            if Succeeds(net, socket) then
              && Outcome(net, socket).value.value.socket == socket && next.Holds(socket)
              && BindingInStep(next, Outcome(net, socket).value.value) && socket.bound !in net.sockets
            else next == net
  {
    if Succeeds(net, socket) {
      var next, direct := Registered(net, socket), Direct(socket.bound);
      forall e ensures e in OwnedBy(next.quic, socket) <==> e == direct {
        assert e in net.quic ==> net.Holds(net.quic[e]);
      }
      forall e ensures e in OwnedBy(next.published, socket) - {direct} <==> false {
        assert e in net.published && net.published[e] == socket ==> e in OwnedBy(net.published, socket);
      }
      EmptySynced(next.quic, next.published, socket);
    }
  }

  lemma EmptySynced(quic: Endpoints, published: Endpoints, socket: UdpSocket)
    requires forall e | e in quic && quic[e].bound == socket.bound :: quic[e] == socket
    requires forall e :: e in OwnedBy(quic, socket) <==> e == Direct(socket.bound)
    requires forall e :: e !in OwnedBy(published, socket) - {Direct(socket.bound)}
    ensures Synced(quic, published, socket, None, map[])
  {
    assert OwnedBy(quic, socket) == {Direct(socket.bound)};
    assert RegisteredEndpoints(socket.bound, map[]) == {Direct(socket.bound)};
    assert PublishedEndpoints(socket.bound, None, map[]) == {};
  }

  ghost predicate AllHeld(w: World) {
    forall k | k in w.bindings :: w.net.Holds(w.bindings[k].socket)
  }

  /** Every unbound address that could be opened would still be refused. */
  ghost predicate Complete(w: World, current: seq<InterfaceAddress>, openings: map<InterfaceAddress, UdpSocket>) {
    forall k | k in current && k in openings && k !in w.bindings ::
      !Succeeds(w.net, openings[k])
  }

  ghost predicate Extended(before: Bindings, after: Bindings, current: seq<InterfaceAddress>) {
    && (forall k | k in before :: k in after && after[k] == before[k])
    && (forall k | k in after && k !in before :: k in current)
  }

  /** Registering a socket leaves another binding that is held as it was. */
  lemma BoundKeepsOther(net: Net, socket: UdpSocket, other: Binding)
    requires net.Valid() && BindingInStep(net, other) && net.Holds(other.socket) && Succeeds(net, socket)
    ensures BindingInStep(Registered(net, socket), other) && Registered(net, socket).Holds(other.socket)
    ensures other.socket.bound != socket.bound
  {
    hide BindingInStep;
    RegisteredGrows(net, socket);
    GrownKeepsOthers(net, Registered(net, socket), {socket}, other.socket);
    SameStaysInStep(net, Registered(net, socket), other);
  }

  lemma BoundInStep(net: Net, bindings: Bindings, key: InterfaceAddress, socket: UdpSocket)
    requires InStep(World(net, bindings)) && AllHeld(World(net, bindings)) && key !in bindings
    requires OwnedBy(net.published, socket) == {} && Succeeds(net, socket)
    ensures var w := World(Registered(net, socket), bindings[key := Outcome(net, socket).value.value]);
            InStep(w) && AllHeld(w)
  {
    hide BindingInStep, Registered, Grown;
    RegisteredGrows(net, socket);
    var next, table := Registered(net, socket), bindings[key := Outcome(net, socket).value.value];
    RegisteredInStep(net, socket);
    forall k | k in bindings
      ensures BindingInStep(next, bindings[k]) && bindings[k].socket.bound != socket.bound && next.Holds(bindings[k].socket)
    {
      assert net.Holds(bindings[k].socket);
      BoundKeepsOther(net, socket, bindings[k]);
    }
    assert forall k | k in table && k != key :: table[k] == bindings[k];
  }

  lemma StillFresh(net: Net, bindings: Bindings, key: InterfaceAddress, openings: map<InterfaceAddress, UdpSocket>)
    requires Fresh(net, bindings, openings - bindings.Keys) && key in openings && key !in bindings && net.Valid()
    requires Succeeds(net, openings[key])
    ensures var next, table := Registered(net, openings[key]), bindings[key := Outcome(net, openings[key]).value.value];
            Fresh(next, table, openings - table.Keys)
  {
    var socket := openings[key];
    var next, table := Registered(net, socket), bindings[key := Outcome(net, socket).value.value];
    var before, after := openings - bindings.Keys, openings - table.Keys;
    assert OwnedBy(net.published, before[key]) == {};
    RegisteredGrows(net, socket);
    assert forall k | k in after :: k in before && after[k] == before[k];
    forall k | k in after ensures OwnedBy(next.published, after[k]) == {} && after[k] !in SocketsOf(table) {
      assert before[k] == after[k] && before[k] != before[key];
      GrownKeepsOthers(net, next, {socket}, after[k]);
    }
  }

  lemma FreshUnused(net: Net, bindings: Bindings, openings: map<InterfaceAddress, UdpSocket>, key: InterfaceAddress)
    requires InStep(World(net, bindings)) && Fresh(net, bindings, openings - bindings.Keys)
    requires key in openings && key !in bindings
    ensures OwnedBy(net.published, openings[key]) == {} && net.Valid()
  {
    assert (openings - bindings.Keys)[key] == openings[key];
  }

  lemma FilledNone(net: Net, bindings: Bindings, openings: map<InterfaceAddress, UdpSocket>)
    ensures Filled(net, bindings, [], openings) == (net, bindings)
    ensures Grown(net, net, openings.Values) && Extended(bindings, bindings, []) && Complete(World(net, bindings), [], openings)
  {
  }

  lemma FilledFirst(
      net: Net, bindings: Bindings, current: seq<InterfaceAddress>, openings: map<InterfaceAddress, UdpSocket>)
    requires current != []
    ensures var key, rest := current[0], current[1..];
            Filled(net, bindings, current, openings) ==
            if key in bindings || key !in openings || !Succeeds(net, openings[key]) then Filled(net, bindings, rest, openings)
            else Filled(Registered(net, openings[key]), bindings[key := Outcome(net, openings[key]).value.value], rest, openings)
  {
    hide Outcome, Registered;
  }

  /** Filling the gaps keeps every binding, adds only current addresses in step, and gives up only on what is refused. */
  lemma {:induction false} FilledInStep(
      net: Net, bindings: Bindings, current: seq<InterfaceAddress>, openings: map<InterfaceAddress, UdpSocket>)
    requires InStep(World(net, bindings)) && AllHeld(World(net, bindings)) && Fresh(net, bindings, openings - bindings.Keys)
    ensures var (n, b) := Filled(net, bindings, current, openings);
            && InStep(World(n, b)) && AllHeld(World(n, b)) && Extended(bindings, b, current)
            && Grown(net, n, openings.Values) && Complete(World(n, b), current, openings)
    decreases |current|
  {
    hide InStep, AllHeld, Fresh, Grown, Outcome, Registered, Extended, Complete, Filled;
    var (n, b) := Filled(net, bindings, current, openings);
    if current == [] {
      FilledNone(net, bindings, openings);
    } else {
      var key, rest := current[0], current[1..];
      FilledFirst(net, bindings, current, openings);
      if key in bindings || key !in openings {
        FilledInStep(net, bindings, rest, openings);
        Later(bindings, b, current);
        LaterComplete(World(n, b), current, openings);
      } else {
        var socket := openings[key];
        FreshUnused(net, bindings, openings, key);
        RegisteredInStep(net, socket);
        RegisteredGrows(net, socket);
        if Succeeds(net, socket) {
          var next, table := Registered(net, socket), bindings[key := Outcome(net, socket).value.value];
          BoundInStep(net, bindings, key, socket);
          StillFresh(net, bindings, key, openings);
          FilledInStep(next, table, rest, openings);
          GrownTwice(net, next, n, {socket}, openings.Values);
          assert {socket} + openings.Values == openings.Values;
          Later(table, b, current);
          LaterAlso(bindings, key, table[key], b, current);
          LaterComplete(World(n, b), current, openings);
        } else {
          FilledInStep(net, bindings, rest, openings);
          Later(bindings, b, current);
          RefusedStays(net, n, openings.Values, socket);
          LaterComplete(World(n, b), current, openings);
        }
      }
    }
  }

  lemma Later(before: Bindings, after: Bindings, current: seq<InterfaceAddress>)
    requires current != [] && Extended(before, after, current[1..])
    ensures Extended(before, after, current) && (current[0] in before ==> current[0] in after)
  {
  }

  lemma LaterAlso(before: Bindings, key: InterfaceAddress, binding: Binding, after: Bindings, current: seq<InterfaceAddress>)
    requires key !in before && key in current && Extended(before[key := binding], after, current)
    ensures Extended(before, after, current) && key in after
  {
    forall k | k in before ensures k in after && after[k] == before[k] {
      assert k in before[key := binding];
    }
    assert key in before[key := binding];
  }

  lemma LaterComplete(w: World, current: seq<InterfaceAddress>, openings: map<InterfaceAddress, UdpSocket>)
    requires current != [] && Complete(w, current[1..], openings)
    requires current[0] in w.bindings || current[0] !in openings || !Succeeds(w.net, openings[current[0]])
    ensures Complete(w, current, openings)
  {
  }

  /** What was refused is refused still when the registries have only grown. */
  lemma RefusedStays(before: Net, after: Net, newcomers: set<UdpSocket>, socket: UdpSocket)
    requires Grown(before, after, newcomers) && !Succeeds(before, socket)
    ensures !Succeeds(after, socket)
  {
  }

  // ----- withdrawal

  lemma WithdrawnKeeps(net: Net, gone: set<UdpSocket>, other: UdpSocket)
    requires net.Valid() && other.bound !in BoundsOf(gone)
    ensures SameFor(net, Withdrawn(net, gone), other) && (net.Holds(other) ==> Withdrawn(net, gone).Holds(other))
  {
    var after := Withdrawn(net, gone);
    assert other !in gone;
    forall e ensures e in OwnedBy(after.quic, other) <==> e in OwnedBy(net.quic, other) {}
    forall e ensures e in OwnedBy(after.published, other) <==> e in OwnedBy(net.published, other) {}
  }

  /** Nothing of a withdrawn socket is left: it is not held, and no endpoint of it is registered or published. */
  ghost predicate Vanished(net: Net, socket: UdpSocket) {
    && !net.Holds(socket) && OwnedBy(net.quic, socket) == {} && OwnedBy(net.published, socket) == {}
    && socket.bound !in net.natTypes
  }

  lemma WithdrawnVanish(net: Net, gone: set<UdpSocket>, socket: UdpSocket)
    requires net.Valid() && socket in gone
    ensures Vanished(Withdrawn(net, gone), socket) && Withdrawn(net, gone).Valid()
  {
    assert socket.bound in BoundsOf(gone);
  }

  lemma WithdrawnValid(net: Net, gone: set<UdpSocket>)
    requires net.Valid()
    ensures Withdrawn(net, gone).Valid()
  {
  }

  lemma PrunedInStep(w: World, current: seq<InterfaceAddress>, finished: set<UdpSocket>)
    requires InStep(w)
    ensures var (n, b) := Pruned(w.net, w.bindings, current, finished); InStep(World(n, b)) && AllHeld(World(n, b))
  {
    hide BindingInStep, SameFor, Withdrawn;
    var (n, b) := Pruned(w.net, w.bindings, current, finished);
    var obsolete := Obsolete(w.net, w.bindings, current, finished);
    var gone := SocketsOf(Restricted(w.bindings, obsolete));
    WithdrawnValid(w.net, gone);
    forall k | k in b ensures BindingInStep(n, b[k]) && n.Holds(b[k].socket) {
      assert b[k] == w.bindings[k] && k !in obsolete;
      KeptBound(w, obsolete, k);
      WithdrawnKeeps(w.net, gone, b[k].socket);
      SameStaysInStep(w.net, n, b[k]);
    }
  }

  lemma KeptBound(w: World, obsolete: set<InterfaceAddress>, key: InterfaceAddress)
    requires Distinct(w.bindings) && key in w.bindings && key !in obsolete
    ensures w.bindings[key].socket.bound !in BoundsOf(SocketsOf(Restricted(w.bindings, obsolete)))
  {
  }

  lemma PrunedFresh(
      w: World, current: seq<InterfaceAddress>, finished: set<UdpSocket>, openings: map<InterfaceAddress, UdpSocket>)
    requires Fresh(w.net, w.bindings, openings)
    ensures var (n, b) := Pruned(w.net, w.bindings, current, finished); Fresh(n, b, openings - b.Keys)
  {
    var (n, b) := Pruned(w.net, w.bindings, current, finished);
    var left := openings - b.Keys;
    assert forall k | k in left :: k in openings && left[k] == openings[k];
    assert SocketsOf(b) <= SocketsOf(w.bindings);
    forall k | k in openings ensures OwnedBy(n.published, openings[k]) == {} {
      assert OwnedBy(n.published, openings[k]) <= OwnedBy(w.net.published, openings[k]);
    }
  }

  lemma ScanInStep(w: World, current: seq<InterfaceAddress>, finished: set<UdpSocket>, openings: map<InterfaceAddress, UdpSocket>)
    requires InStep(w) && Fresh(w.net, w.bindings, openings)
    ensures var (n, b) := Scanned(w.net, w.bindings, current, finished, openings);
            InStep(World(n, b)) && AllHeld(World(n, b)) && Complete(World(n, b), current, openings)
  {
    hide InStep, AllHeld, Fresh, Complete, Filled, Pruned;
    var (pruned, kept) := Pruned(w.net, w.bindings, current, finished);
    PrunedInStep(w, current, finished);
    PrunedFresh(w, current, finished, openings);
    FilledInStep(pruned, kept, current, openings);
  }

  /**
   After a scan every binding is for a current interface address and its own socket is held by the dock; bindings that
   were live and current are the same as before, and an address stays unbound only where it could not be opened or its
   registration would be refused still.
   */
  lemma ScanReconciles(
      w: World, current: seq<InterfaceAddress>, finished: set<UdpSocket>, openings: map<InterfaceAddress, UdpSocket>)
    requires InStep(w) && Fresh(w.net, w.bindings, openings)
    ensures var (n, b) := Scanned(w.net, w.bindings, current, finished, openings);
            && (forall k | k in b :: k in current && n.Holds(b[k].socket))
            && (forall k | k in w.bindings && k in current && Live(w.net, finished, w.bindings[k]) :: k in b && b[k] == w.bindings[k])
            && (forall k | k in current && k in openings && k !in b :: !Succeeds(n, openings[k]))
  {
    hide InStep, Fresh, Filled, Withdrawn, Succeeds, Live;
    var (n, b) := Scanned(w.net, w.bindings, current, finished, openings);
    ScanInStep(w, current, finished, openings);
    var (pruned, kept) := Pruned(w.net, w.bindings, current, finished);
    PrunedInStep(w, current, finished);
    PrunedFresh(w, current, finished, openings);
    FilledInStep(pruned, kept, current, openings);
  }

  /** What a scan withdraws is gone altogether, unless it still is a binding. */
  lemma ScanWithdraws(
      w: World, current: seq<InterfaceAddress>, finished: set<UdpSocket>, openings: map<InterfaceAddress, UdpSocket>,
      key: InterfaceAddress)
    requires InStep(w) && Fresh(w.net, w.bindings, openings)
    requires key in w.bindings && (key !in current || !Live(w.net, finished, w.bindings[key]))
    ensures Vanished(Scanned(w.net, w.bindings, current, finished, openings).0, w.bindings[key].socket)
  {
    assert w.net.Valid();
    hide InStep, Filled, Withdrawn, Live;
    var (n, b) := Scanned(w.net, w.bindings, current, finished, openings);
    var (pruned, kept) := Pruned(w.net, w.bindings, current, finished);
    var obsolete := Obsolete(w.net, w.bindings, current, finished);
    var gone := SocketsOf(Restricted(w.bindings, obsolete));
    PrunedInStep(w, current, finished);
    PrunedFresh(w, current, finished, openings);
    FilledInStep(pruned, kept, current, openings);
    assert w.bindings[key].socket in gone by {
      assert key in Restricted(w.bindings, obsolete);
    }
    WithdrawnVanish(w.net, gone, w.bindings[key].socket);
    assert w.bindings[key].socket !in openings.Values by {
      assert w.bindings[key].socket in SocketsOf(w.bindings);
    }
    GrownKeepsOthers(pruned, n, openings.Values, w.bindings[key].socket);
  }

  /**
   Other owners' sockets stay in the dock with their endpoints. Their publications stay as well, except at the address
   of a withdrawn binding: there a later owner of the address loses them.
   */
  lemma ScanKeepsOwners(
      w: World, current: seq<InterfaceAddress>, finished: set<UdpSocket>, openings: map<InterfaceAddress, UdpSocket>,
      owner: UdpSocket)
    requires InStep(w) && Fresh(w.net, w.bindings, openings)
    requires owner !in SocketsOf(w.bindings) && owner !in openings.Values
    ensures var n := Scanned(w.net, w.bindings, current, finished, openings).0;
            var gone := SocketsOf(Restricted(w.bindings, Obsolete(w.net, w.bindings, current, finished)));
            && (n.Holds(owner) <==> w.net.Holds(owner)) && OwnedBy(n.quic, owner) == OwnedBy(w.net.quic, owner)
            && OwnedBy(n.published, owner) == if owner.bound in BoundsOf(gone) then {} else OwnedBy(w.net.published, owner)
  {
    assert w.net.Valid();
    var (n, b) := Scanned(w.net, w.bindings, current, finished, openings);
    var (pruned, kept) := Pruned(w.net, w.bindings, current, finished);
    PrunedInStep(w, current, finished);
    assert pruned.Valid();
    hide InStep, Filled, Live, Fresh, Obsolete;
    PrunedInStep(w, current, finished);
    PrunedFresh(w, current, finished, openings);
    FilledInStep(pruned, kept, current, openings);
    GrownKeepsOthers(pruned, n, openings.Values, owner);
    var gone := SocketsOf(Restricted(w.bindings, Obsolete(w.net, w.bindings, current, finished)));
    assert gone <= SocketsOf(w.bindings);
    WithdrawnOthers(w.net, gone, owner);
  }

  lemma WithdrawnOthers(net: Net, gone: set<UdpSocket>, owner: UdpSocket)
    requires net.Valid() && owner !in gone
    ensures var after := Withdrawn(net, gone);
            && (after.Holds(owner) <==> net.Holds(owner)) && OwnedBy(after.quic, owner) == OwnedBy(net.quic, owner)
            && OwnedBy(after.published, owner) == if owner.bound in BoundsOf(gone) then {} else OwnedBy(net.published, owner)
  {
    var after := Withdrawn(net, gone);
    forall e ensures e in OwnedBy(after.quic, owner) <==> e in OwnedBy(net.quic, owner) {}
    if owner.bound !in BoundsOf(gone) {
      forall e ensures e in OwnedBy(after.published, owner) <==> e in OwnedBy(net.published, owner) {}
    }
  }

  /**
   Dropping the context withdraws every binding and nobody else's socket; other owners' publications stay but at the
   addresses of the bindings.
   */
  lemma StopWithdrawsAll(w: World, owner: UdpSocket)
    requires InStep(w)
    ensures var after := Effect(w, Stop);
            && after.bindings == map[]
            && (forall k | k in w.bindings :: Vanished(after.net, w.bindings[k].socket))
            && (owner !in SocketsOf(w.bindings) ==>
                  && (after.net.Holds(owner) <==> w.net.Holds(owner))
                  && OwnedBy(after.net.quic, owner) == OwnedBy(w.net.quic, owner)
                  && OwnedBy(after.net.published, owner)
                       == if owner.bound in BoundsOf(SocketsOf(w.bindings)) then {} else OwnedBy(w.net.published, owner))
  {
    hide Withdrawn, BindingInStep;
    forall k | k in w.bindings ensures Vanished(Effect(w, Stop).net, w.bindings[k].socket) {
      WithdrawnVanish(w.net, SocketsOf(w.bindings), w.bindings[k].socket);
    }
    if owner !in SocketsOf(w.bindings) {
      WithdrawnOthers(w.net, SocketsOf(w.bindings), owner);
    }
  }

  // ----- every step keeps it

  lemma QuicOwnersKept(socket: UdpSocket, before: Site, after: Site)
    requires OthersKept(socket, before, after)
    ensures forall e | e in after.quic && after.quic[e] != socket :: e in before.quic && before.quic[e] == after.quic[e]
  {
    forall e | e in after.quic && after.quic[e] != socket ensures e in before.quic && before.quic[e] == after.quic[e] {
      assert e in OwnedBy(after.quic, after.quic[e]);
    }
  }

  lemma PollStepKeeps(w: World, key: InterfaceAddress, ready: seq<Ready>)
    requires InStep(w) && Possible(w, PollNat(key, ready))
    ensures InStep(Effect(w, PollNat(key, ready)))
  {
    hide SiteInStep, Polled, OwnedBy;
    var binding := w.bindings[key];
    var next := Effect(w, PollNat(key, ready));
    var before, after := SiteOf(w.net, binding), Polled(binding.socket, SiteOf(w.net, binding), ready);
    PollKeepsInStep(binding.socket, before, ready);
    assert SiteOf(next.net, next.bindings[key]) == after;
    QuicOwnersKept(binding.socket, before, after);
    forall k | k in next.bindings && k != key ensures BindingInStep(next.net, next.bindings[k]) {
      assert next.bindings[k].socket != binding.socket;
      assert OwnedBy(after.quic, next.bindings[k].socket) == OwnedBy(before.quic, next.bindings[k].socket);
      SameStaysInStep(w.net, next.net, next.bindings[k]);
    }
  }

  /** A step that changes the registries only for sockets that are not ours leaves our bindings in step. */
  lemma ForeignStepKeeps(w: World, net: Net)
    requires InStep(w) && net.Valid() && forall s | s in SocketsOf(w.bindings) :: SameFor(w.net, net, s)
    ensures InStep(w.(net := net))
  {
    hide SameFor, BindingInStep;
    forall k | k in w.bindings ensures BindingInStep(net, w.bindings[k]) {
      assert w.bindings[k].socket in SocketsOf(w.bindings);
      SameStaysInStep(w.net, net, w.bindings[k]);
    }
  }

  /** The dock may lose a socket at any time: its binding is dead then, and all others are as before. */
  lemma LostKeeps(w: World, socket: UdpSocket)
    requires InStep(w)
    ensures InStep(Effect(w, Lost(socket)))
  {
    hide SiteInStep;
    var net := Undocked(w.net, socket);
    forall k | k in w.bindings ensures BindingInStep(net, w.bindings[k]) {
      var s := w.bindings[k].socket;
      if s != socket {
        forall e ensures e in OwnedBy(net.quic, s) <==> e in OwnedBy(w.net.quic, s) {}
        SameStaysInStep(w.net, net, w.bindings[k]);
      }
    }
  }

  lemma ResumeKeeps(w: World)
    requires InStep(w)
    ensures InStep(Effect(w, ResumeNats))
  {
    hide SiteInStep;
    var next := Effect(w, ResumeNats);
    forall k | k in w.bindings ensures BindingInStep(next.net, next.bindings[k]) {
      assert BindingInStep(w.net, w.bindings[k]);
      ResumedInStep(w.bindings[k].socket, SiteOf(w.net, w.bindings[k]), SiteOf(next.net, next.bindings[k]));
    }
  }

  lemma ResumedInStep(socket: UdpSocket, before: Site, after: Site)
    requires after == before.(probe := Resumed(before.probe))
    ensures SiteInStep(socket, before) <==> SiteInStep(socket, after)
  {
  }

  lemma ForeignWithdrawKeeps(w: World, owner: UdpSocket)
    requires InStep(w) && Possible(w, ForeignWithdraw(owner))
    ensures InStep(Effect(w, ForeignWithdraw(owner)))
  {
    var net := Withdrawn(w.net, {owner});
    WithdrawnValid(w.net, {owner});
    assert BoundsOf({owner}) == {owner.bound};
    forall k | k in w.bindings ensures BindingInStep(net, w.bindings[k]) {
      var s := w.bindings[k].socket;
      if s.bound != owner.bound {
        hide BindingInStep;
        WithdrawnKeeps(w.net, {owner}, s);
        SameStaysInStep(w.net, net, w.bindings[k]);
      } else {
        hide SiteInStep;
        assert !net.Holds(s);
      }
    }
  }

  lemma StepKeeps(w: World, step: Step)
    requires InStep(w)
    ensures InStep(StepOf(w, step))
  {
    hide InStep, Fresh, Withdrawn;
    if Possible(w, step) {
      var next := Effect(w, step);
      match step
      case Scan(current, finished, openings) => ScanInStep(w, current, finished, openings);
      case PollNat(key, ready) => PollStepKeeps(w, key, ready);
      case ResumeNats => ResumeKeeps(w);
      case Lost(socket) => LostKeeps(w, socket);
      case ForeignAdd(s) => AddedKeeps(w, s);
      case ForeignRegister(e, owner) => RegisterKeeps(w, e, owner);
      case ForeignPublish(e, owner) => PublishKeeps(w, e, owner);
      case ForeignWithdraw(owner) => ForeignWithdrawKeeps(w, owner);
      case Stop => StoppedKeeps(w);
    }
  }

  lemma StoppedKeeps(w: World)
    requires InStep(w)
    ensures InStep(Effect(w, Stop))
  {
    hide Withdrawn;
    WithdrawnValid(w.net, SocketsOf(w.bindings));
  }

  lemma AddedKeeps(w: World, s: UdpSocket)
    requires InStep(w) && Possible(w, ForeignAdd(s))
    ensures InStep(Effect(w, ForeignAdd(s)))
  {
    var net := Effect(w, ForeignAdd(s)).net;
    forall t | t in SocketsOf(w.bindings) ensures SameFor(w.net, net, t) {
      assert OwnedBy(net.quic, t) == OwnedBy(w.net.quic, t);
    }
    hide BindingInStep, SameFor;
    ForeignStepKeeps(w, net);
  }

  lemma RegisterKeeps(w: World, e: EndpointAddr, owner: UdpSocket)
    requires InStep(w) && Possible(w, ForeignRegister(e, owner))
    ensures InStep(Effect(w, ForeignRegister(e, owner)))
  {
    var net := Effect(w, ForeignRegister(e, owner)).net;
    forall t | t in SocketsOf(w.bindings) ensures SameFor(w.net, net, t) {
      assert OwnedBy(net.quic, t) == OwnedBy(w.net.quic, t);
    }
    hide BindingInStep, SameFor;
    ForeignStepKeeps(w, net);
  }

  lemma PublishKeeps(w: World, e: EndpointAddr, owner: UdpSocket)
    requires InStep(w) && Possible(w, ForeignPublish(e, owner))
    ensures InStep(Effect(w, ForeignPublish(e, owner)))
  {
    var net := Effect(w, ForeignPublish(e, owner)).net;
    forall t | t in SocketsOf(w.bindings) ensures SameFor(w.net, net, t) {
      assert OwnedBy(net.published, t) == OwnedBy(w.net.published, t);
    }
    hide BindingInStep, SameFor;
    ForeignStepKeeps(w, net);
  }

  /**
   Over any run of scans, polls, heartbeats, refused updates, resumes, lost sockets and other owners' actions: every
   socket that is held has in the QUIC registry exactly the endpoints of its last applied mappings, and has published
   exactly theirs besides its direct publication.
   */
  lemma {:induction false} RunKeepsInStep(w: World, steps: seq<Step>)
    requires InStep(w)
    ensures InStep(RunOf(w, steps))
    decreases |steps|
  {
    hide InStep, StepOf;
    if steps != [] {
      StepKeeps(w, steps[0]);
      RunKeepsInStep(StepOf(w, steps[0]), steps[1..]);
    }
  }

  lemma PublicationIs(net: Net, binding: Binding)
    requires BindingInStep(net, binding) && net.Holds(binding.socket)
    ensures OwnedBy(net.published, binding.socket) == Publication(binding.socket, ProbeOf(binding))
  {
    hide PublishedEndpoints, MappingsOf, NatTypeOf;
    var all, direct := OwnedBy(net.published, binding.socket), Direct(binding.socket.bound);
    assert all == (all - {direct}) + if direct in all then {direct} else {};
  }

  /** The same in words of the registries, for one binding at the end of a run that began with nothing bound. */
  lemma RunsRegisterWhatIsMapped(steps: seq<Step>, key: InterfaceAddress)
    requires var w := RunOf(EMPTY, steps);
             key in w.bindings && w.net.Holds(w.bindings[key].socket)
    ensures var w := RunOf(EMPTY, steps);
            var socket, probe := w.bindings[key].socket, ProbeOf(w.bindings[key]);
            && OwnedBy(w.net.quic, socket) == RegisteredEndpoints(socket.bound, MappingsOf(probe))
            && OwnedBy(w.net.published, socket) == Publication(socket, probe)
  {
    hide RunOf;
    var w := RunOf(EMPTY, steps);
    var socket, probe := w.bindings[key].socket, ProbeOf(w.bindings[key]);
    RunKeepsInStep(EMPTY, steps);
    PublicationIs(w.net, w.bindings[key]);
  }

  // ----- a later owner of a bound address

  const ADDRESS := SocketAddr(1, 4433, Some(Internal), false)
  const INTERFACE := InterfaceAddress("lan", 1, "", ADDRESS)
  const OURS := UdpSocket(1, ADDRESS)
  const LATER := UdpSocket(2, ADDRESS)
  const MAPPED := Mediate(SocketAddr(2, 20002, None, false), SocketAddr(3, 40000, None, false))

  const EMPTY := World(Net(map[], map[], map[], map[]), map[])

  function BoundBy(socket: UdpSocket): Net {
    Net(map[ADDRESS := socket], map[Direct(ADDRESS) := socket], map[Direct(ADDRESS) := OURS], map[])
  }

  /** Our binding lost its socket, and the address was bound again by an owner that has published a mapped endpoint. */
  function Overtaken(): World {
    World(BoundBy(LATER).(published := map[Direct(ADDRESS) := OURS, MAPPED := LATER]), map[INTERFACE := Binding(OURS, InitialProbe(ADDRESS))])
  }

  lemma FirstScan()
    ensures StepOf(EMPTY, Scan([INTERFACE], {}, map[INTERFACE := OURS])) == World(BoundBy(OURS), map[INTERFACE := Binding(OURS, InitialProbe(ADDRESS))])
  {
    var none: Bindings := map[];
    assert SocketsOf(Restricted(none, {})) == {};
    assert Obsolete(EMPTY.net, none, [INTERFACE], {}) == {};
    NothingWithdrawn(EMPTY.net, none);
    assert Pruned(EMPTY.net, none, [INTERFACE], {}) == (EMPTY.net, none);
    assert Filled(EMPTY.net, none, [INTERFACE], map[INTERFACE := OURS]) ==
           Filled(BoundBy(OURS), map[INTERFACE := Binding(OURS, InitialProbe(ADDRESS))], [], map[INTERFACE := OURS]) by {
      assert [INTERFACE][1..] == [];
    }
  }

  lemma AddressChangesHands()
    ensures var w := World(BoundBy(OURS), map[INTERFACE := Binding(OURS, InitialProbe(ADDRESS))]);
            StepOf(StepOf(StepOf(w, Lost(OURS)), ForeignAdd(LATER)), ForeignPublish(MAPPED, LATER)) == Overtaken()
  {
    var w := World(BoundBy(OURS), map[INTERFACE := Binding(OURS, InitialProbe(ADDRESS))]);
    var lost := w.(net := EMPTY.net.(published := map[Direct(ADDRESS) := OURS]));
    assert StepOf(w, Lost(OURS)) == lost;
    assert LATER !in SocketsOf(w.bindings);
    assert StepOf(lost, ForeignAdd(LATER)) == w.(net := BoundBy(LATER));
  }

  lemma LastScan()
    ensures StepOf(Overtaken(), Scan([], {}, map[])) == World(BoundBy(LATER).(published := map[]), map[])
  {
    var w := Overtaken();
    var gone := {INTERFACE};
    assert Obsolete(w.net, w.bindings, [], {}) == gone;
    assert Restricted(w.bindings, gone) == w.bindings && w.bindings[INTERFACE].socket == OURS;
    assert SocketsOf(Restricted(w.bindings, gone)) == {OURS};
    assert BoundsOf({OURS}) == {ADDRESS};
    assert Withdrawn(w.net, {OURS}) == BoundBy(LATER).(published := map[]);
    assert w.bindings - gone == map[];
  }

  /** A run in which a scan takes away what the later owner of a withdrawn binding's address has published. */
  lemma LaterOwnerLosesPublication()
    ensures var steps := [Scan([INTERFACE], {}, map[INTERFACE := OURS]), Lost(OURS), ForeignAdd(LATER), ForeignPublish(MAPPED, LATER)];
            var before, after := RunOf(EMPTY, steps), RunOf(EMPTY, steps + [Scan([], {}, map[])]);
            && before.net.Holds(LATER) && OwnedBy(before.net.published, LATER) == {MAPPED}
            && after.net.Holds(LATER) && OwnedBy(after.net.published, LATER) == {}
  {
    hide StepOf;
    FirstScan();
    AddressChangesHands();
    LastScan();
    var first, scan := Scan([INTERFACE], {}, map[INTERFACE := OURS]), Scan([], {}, map[]);
    var w := World(BoundBy(OURS), map[INTERFACE := Binding(OURS, InitialProbe(ADDRESS))]);
    var rest := [Lost(OURS), ForeignAdd(LATER), ForeignPublish(MAPPED, LATER)];
    FourSteps(EMPTY, [first] + rest, scan);
    assert [first] + rest == [first, Lost(OURS), ForeignAdd(LATER), ForeignPublish(MAPPED, LATER)];
  }

  lemma FourSteps(w: World, steps: seq<Step>, last: Step)
    requires |steps| == 4
    ensures var after := StepOf(StepOf(StepOf(StepOf(w, steps[0]), steps[1]), steps[2]), steps[3]);
            RunOf(w, steps) == after && RunOf(w, steps + [last]) == StepOf(after, last)
  {
    hide StepOf;
    var a := StepOf(w, steps[0]);
    var b := StepOf(a, steps[1]);
    var c := StepOf(b, steps[2]);
    var d := StepOf(c, steps[3]);
    assert steps[1..][1..] == steps[2..] && steps[2..][1..] == steps[3..] && steps[3..][1..] == [];
    assert RunOf(w, steps) == RunOf(a, steps[1..]) == RunOf(b, steps[2..]) == RunOf(c, steps[3..]) == RunOf(d, []);
    var more := steps + [last];
    assert more[1..][1..] == more[2..] && more[2..][1..] == more[3..] && more[3..][1..] == [last];
    assert RunOf(w, more) == RunOf(a, more[1..]) == RunOf(b, more[2..]) == RunOf(c, more[3..]) == RunOf(d, [last]);
    assert RunOf(d, [last]) == RunOf(StepOf(d, last), []) by {
      assert [last][1..] == [];
    }
  }
}
