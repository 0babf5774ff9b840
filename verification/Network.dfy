/**
 The registries that interface and NAT maintenance share: sockets held by the dock, QUIC endpoints registered for
 them, and endpoints published in the address book. Their own behaviour is given by small contracts: an insertion
 fails on an existing endpoint and changes nothing, and unregistering a bound address drops all its endpoints.
 */
module Registries {
  import opened Wrappers

  datatype Scope = External | Internal | Loopback

  /** An address with what the platform says about it: its scope, and whether it is of local use only. */
  datatype SocketAddr = SocketAddr(ip: int, port: int, scope: Option<Scope>, linkLocal: bool)

  /** A socket is told apart by identity: an address may be bound again by a later socket. */
  datatype UdpSocket = UdpSocket(id: int, bound: SocketAddr)

  datatype EndpointAddr = Direct(addr: SocketAddr) | Mediate(agent: SocketAddr, outer: SocketAddr)

  datatype NatType = FullCone | RestrictedCone | RestrictedPort | Symmetric | Dynamic

  type Endpoints = map<EndpointAddr, UdpSocket>

  datatype IoError = NotConnected | AddrInUse | Other

  /** The entries of all sockets but those bound to `bound`. */
  function Without(entries: Endpoints, bound: SocketAddr): Endpoints {
    map e | e in entries && entries[e].bound != bound :: entries[e]
  }

  function OwnedBy(entries: Endpoints, socket: UdpSocket): set<EndpointAddr> {
    set e | e in entries && entries[e] == socket
  }

  function Assign(endpoints: set<EndpointAddr>, socket: UdpSocket): Endpoints {
    map e | e in endpoints :: socket
  }

  class Dock {
    var sockets: map<SocketAddr, UdpSocket>
    var quic: Endpoints

    constructor ()
      ensures sockets == map[] && quic == map[]
    {
      sockets, quic := map[], map[];
    }

    /** Every registered endpoint belongs to a socket that the dock holds. */
    predicate Valid()
      reads this
    {
      && (forall b | b in sockets :: sockets[b].bound == b)
      && (forall e | e in quic :: quic[e].bound in sockets && sockets[quic[e].bound] == quic[e])
    }

    predicate Holds(socket: UdpSocket)
      reads this
    {
      socket.bound in sockets && sockets[socket.bound] == socket
    }

    /** Hold a socket and register its direct endpoint, unless its address is held already. */
    method Add(socket: UdpSocket) returns (r: Result<bool, IoError>)
      requires Valid()
      modifies this
      ensures Valid()
      ensures r == if socket.bound in old(sockets) then Ok(false)
                   else if Direct(socket.bound) in old(quic) then Err(AddrInUse) else Ok(true)
      ensures if r == Ok(true) then
                sockets == old(sockets)[socket.bound := socket] && quic == old(quic)[Direct(socket.bound) := socket]
              else sockets == old(sockets) && quic == old(quic)
    {
      if socket.bound in sockets {
        return Ok(false);
      }
      if Direct(socket.bound) in quic {
        return Err(AddrInUse);
      }
      sockets := sockets[socket.bound := socket];
      quic := quic[Direct(socket.bound) := socket];
      return Ok(true);
    }

    method Remove(socket: UdpSocket) returns (removed: bool)
      requires Valid()
      modifies this
      ensures Valid() && removed == old(Holds(socket))
      ensures sockets == (if removed then old(sockets) - {socket.bound} else old(sockets))
      ensures quic == map e | e in old(quic) && old(quic)[e] != socket :: old(quic)[e]
    {
      removed := Holds(socket);
      quic := map e | e in quic && quic[e] != socket :: quic[e];
      if removed {
        sockets := sockets - {socket.bound};
      }
    }

    method Unregister(bound: SocketAddr)
      requires Valid()
      modifies this`quic
      ensures Valid() && quic == Without(old(quic), bound)
    {
      quic := Without(quic, bound);
    }

    method RegisterEndpoint(endpoint: EndpointAddr, socket: UdpSocket) returns (ok: bool)
      requires Valid() && Holds(socket)
      modifies this`quic
      ensures Valid() && ok == (endpoint !in old(quic))
      ensures quic == if ok then old(quic)[endpoint := socket] else old(quic)
    {
      ok := endpoint !in quic;
      if ok {
        quic := quic[endpoint := socket];
      }
    }
  }

  class AddressBook {
    var published: Endpoints
    var natTypes: map<SocketAddr, NatType>

    constructor ()
      ensures published == map[] && natTypes == map[]
    {
      published, natTypes := map[], map[];
    }

    method Insert(socket: UdpSocket, endpoint: EndpointAddr) returns (ok: bool)
      modifies this`published
      ensures ok == (endpoint !in old(published))
      ensures published == if ok then old(published)[endpoint := socket] else old(published)
    {
      ok := endpoint !in published;
      if ok {
        published := published[endpoint := socket];
      }
    }

    method Remove(endpoint: EndpointAddr)
      modifies this`published
      ensures published == old(published) - {endpoint}
    {
      published := published - {endpoint};
    }

    method RemoveBound(bound: SocketAddr)
      modifies this
      ensures published == Without(old(published), bound) && natTypes == old(natTypes) - {bound}
    {
      published := Without(published, bound);
      natTypes := natTypes - {bound};
    }

    method SetNat(bound: SocketAddr, natType: NatType)
      modifies this`natTypes
      ensures natTypes == old(natTypes)[bound := natType]
    {
      natTypes := natTypes[bound := natType];
    }
  }
}

/** Outer mappings of a bound socket: registered with QUIC, published, withdrawn, and rolled back on failure. */
module NatMappings {
  import opened Wrappers
  import opened Registries

  /** STUN server to the outer address it observed. */
  type OuterAddrMappings = map<SocketAddr, SocketAddr>

  /** QUIC accepts the direct binding, direct public mappings and agent-mediated paths. */
  function RegisteredEndpoints(bound: SocketAddr, mappings: OuterAddrMappings): set<EndpointAddr> {
    {Direct(bound)} + (set s | s in mappings :: Direct(mappings[s])) + (set s | s in mappings :: Mediate(s, mappings[s]))
  }

  /** Every mapping keeps its agent; a full cone also advertises the direct path. The binding itself is not listed. */
  function PublishedEndpoints(bound: SocketAddr, natType: Option<NatType>, mappings: OuterAddrMappings): set<EndpointAddr> {
    (set s | s in mappings :: Mediate(s, mappings[s]))
    + ((if natType == Some(FullCone) then set s | s in mappings :: Direct(mappings[s]) else {}) - {Direct(bound)})
  }

  /** The registries hold for the socket exactly what the applied mappings say. */
  ghost predicate Synced(
      quic: Endpoints, published: Endpoints, socket: UdpSocket, natType: Option<NatType>, mappings: OuterAddrMappings)
  {
    && (forall e | e in quic && quic[e].bound == socket.bound :: quic[e] == socket)
    && OwnedBy(quic, socket) == RegisteredEndpoints(socket.bound, mappings)
    && OwnedBy(published, socket) - {Direct(socket.bound)} == PublishedEndpoints(socket.bound, natType, mappings)
  }

  predicate Conflicts(quic: Endpoints, socket: UdpSocket, desired: set<EndpointAddr>) {
    exists e | e in desired :: e in quic && quic[e] != socket
  }

  predicate Accepts(
      quic: Endpoints, published: Endpoints, socket: UdpSocket, natType: Option<NatType>,
      previous: OuterAddrMappings, refreshed: OuterAddrMappings)
  {
    var added := PublishedEndpoints(socket.bound, natType, refreshed) - PublishedEndpoints(socket.bound, natType, previous);
    previous == refreshed
    || (!Conflicts(quic, socket, RegisteredEndpoints(socket.bound, refreshed)) && added !! published.Keys)
  }

  /** What an update makes of both registries: everything, or nothing. */
  function Applied(
      quic: Endpoints, published: Endpoints, socket: UdpSocket, natType: Option<NatType>,
      previous: OuterAddrMappings, refreshed: OuterAddrMappings): (Endpoints, Endpoints)
  {
    if previous == refreshed || !Accepts(quic, published, socket, natType, previous, refreshed) then (quic, published)
    else
      var was := PublishedEndpoints(socket.bound, natType, previous);
      var now := PublishedEndpoints(socket.bound, natType, refreshed);
      (Without(quic, socket.bound) + Assign(RegisteredEndpoints(socket.bound, refreshed), socket),
       (published + Assign(now - was, socket)) - (was - now))
  }

  method RegisterAll(dock: Dock, socket: UdpSocket, endpoints: set<EndpointAddr>) returns (ok: bool)
    requires dock.Valid() && dock.Holds(socket)
    modifies dock`quic
    ensures dock.Valid()
    ensures endpoints !! old(dock.quic).Keys ==> ok && dock.quic == old(dock.quic) + Assign(endpoints, socket)
    ensures forall e | e in dock.quic :: dock.quic[e] == socket || (e in old(dock.quic) && old(dock.quic)[e] == dock.quic[e])
    ensures forall e | e in old(dock.quic) :: e in dock.quic && dock.quic[e] == old(dock.quic)[e]
  {
    var todo := endpoints;
    while todo != {}
      invariant dock.Valid() && dock.Holds(socket) && todo <= endpoints
      invariant endpoints !! old(dock.quic).Keys ==> dock.quic == old(dock.quic) + Assign(endpoints - todo, socket)
      invariant forall e | e in dock.quic :: dock.quic[e] == socket || (e in old(dock.quic) && old(dock.quic)[e] == dock.quic[e])
      invariant forall e | e in old(dock.quic) :: e in dock.quic && dock.quic[e] == old(dock.quic)[e]
      decreases todo
    {
      var endpoint :| endpoint in todo;
      var registered := dock.RegisterEndpoint(endpoint, socket);
      if !registered {
        return false;
      }
      todo := todo - {endpoint};
      assert endpoints - todo == endpoints - (todo + {endpoint}) + {endpoint};
    }
    assert endpoints - todo == endpoints;
    return true;
  }

  /** Restoring the earlier endpoints of a socket gives back the whole registry. */
  lemma RestoreQuic(quic: Endpoints, socket: UdpSocket, endpoints: set<EndpointAddr>)
    requires forall e | e in quic && quic[e].bound == socket.bound :: quic[e] == socket
    requires OwnedBy(quic, socket) == endpoints
    ensures Without(quic, socket.bound) + Assign(endpoints, socket) == quic
    ensures endpoints !! Without(quic, socket.bound).Keys
  {
    forall e ensures e in Without(quic, socket.bound) + Assign(endpoints, socket) <==> e in quic {
      assert e in OwnedBy(quic, socket) <==> e in quic && quic[e] == socket;
    }
  }

  /** Drop what the socket has registered, register its earlier endpoints again, and take back what was published. */
  method RollBack(dock: Dock, addresses: AddressBook, socket: UdpSocket, endpoints: set<EndpointAddr>, added: set<EndpointAddr>)
    requires dock.Valid() && dock.Holds(socket) && endpoints !! Without(dock.quic, socket.bound).Keys
    modifies dock`quic, addresses`published
    ensures dock.Valid() && dock.quic == Without(old(dock.quic), socket.bound) + Assign(endpoints, socket)
    ensures addresses.published == old(addresses.published) - added
  {
    dock.Unregister(socket.bound);
    var restored := RegisterAll(dock, socket, endpoints);
    WithdrawAll(addresses, added);
  }

  method ApplyOuterMappings(
      dock: Dock, addresses: AddressBook, socket: UdpSocket, natType: Option<NatType>,
      previous: OuterAddrMappings, refreshed: OuterAddrMappings)
    returns (r: Result<(), IoError>)
    requires dock.Valid() && (dock.Holds(socket) ==> Synced(dock.quic, addresses.published, socket, natType, previous))
    modifies dock`quic, addresses`published
    ensures dock.Valid()
    ensures r.Ok? == (dock.Holds(socket) &&
              Accepts(old(dock.quic), old(addresses.published), socket, natType, previous, refreshed))
    ensures (dock.quic, addresses.published) ==
            if dock.Holds(socket) then
              Applied(old(dock.quic), old(addresses.published), socket, natType, previous, refreshed)
            else (old(dock.quic), old(addresses.published))
  {
    hide PublishedEndpoints, RegisteredEndpoints, OwnedBy;
    var bound := socket.bound;
    if !dock.Holds(socket) {
      return Err(NotConnected);
    }
    if previous == refreshed {
      return Ok(());
    }
    var desired := RegisteredEndpoints(bound, refreshed);
    if Conflicts(dock.quic, socket, desired) {
      return Err(AddrInUse);
    }
    ghost var quic, published := dock.quic, addresses.published;
    var was := PublishedEndpoints(bound, natType, previous);
    var now := PublishedEndpoints(bound, natType, refreshed);
    var added: set<EndpointAddr> := {};
    dock.Unregister(bound);
    ghost var rest := dock.quic;
    OthersOnly(quic, socket, desired);
    var ok := RegisterAll(dock, socket, desired);
    if ok {
      ok, added := PublishAll(addresses, socket, now - was);
    }
    if !ok {
      AssignedDropped(rest, desired, socket);
      RestoreQuic(quic, socket, RegisteredEndpoints(bound, previous));
      RollBack(dock, addresses, socket, RegisteredEndpoints(bound, previous), added);
      assert (published + Assign(added, socket)) - added == published;
      return Err(Other);
    }
    WithdrawAll(addresses, was - now);
    return Ok(());
  }

  lemma OthersOnly(quic: Endpoints, socket: UdpSocket, desired: set<EndpointAddr>)
    requires !Conflicts(quic, socket, desired)
    ensures desired !! Without(quic, socket.bound).Keys
  {
  }

  lemma AssignedDropped(quic: Endpoints, endpoints: set<EndpointAddr>, socket: UdpSocket)
    requires endpoints !! quic.Keys && forall e | e in quic :: quic[e].bound != socket.bound
    ensures Without(quic + Assign(endpoints, socket), socket.bound) == quic
  {
  }

  method PublishAll(addresses: AddressBook, socket: UdpSocket, endpoints: set<EndpointAddr>)
    returns (ok: bool, added: set<EndpointAddr>)
    modifies addresses`published
    ensures ok == (endpoints !! old(addresses.published).Keys)
    ensures added <= endpoints && added !! old(addresses.published).Keys && (ok ==> added == endpoints)
    ensures addresses.published == old(addresses.published) + Assign(added, socket)
  {
    ghost var published := addresses.published;
    added := {};
    var todo := endpoints;
    while todo != {}
      invariant added <= endpoints && todo == endpoints - added && added !! published.Keys
      invariant addresses.published == published + Assign(added, socket)
      decreases todo
    {
      var endpoint :| endpoint in todo;
      var inserted := addresses.Insert(socket, endpoint);
      if !inserted {
        assert endpoint in published;
        return false, added;
      }
      added := added + {endpoint};
      todo := todo - {endpoint};
    }
    assert added == endpoints;
    return true, added;
  }

  method WithdrawAll(addresses: AddressBook, endpoints: set<EndpointAddr>)
    modifies addresses`published
    ensures addresses.published == old(addresses.published) - endpoints
  {
    var todo := endpoints;
    while todo != {}
      invariant todo <= endpoints && addresses.published == old(addresses.published) - (endpoints - todo)
      decreases todo
    {
      var endpoint :| endpoint in todo;
      addresses.Remove(endpoint);
      todo := todo - {endpoint};
      assert endpoints - todo == endpoints - (todo + {endpoint}) + {endpoint};
    }
    assert endpoints - todo == endpoints;
  }

  /** An accepted update leaves the registries in step with the refreshed mappings, a refused one with the earlier. */
  lemma AppliedSyncs(
      quic: Endpoints, published: Endpoints, socket: UdpSocket, natType: Option<NatType>,
      previous: OuterAddrMappings, refreshed: OuterAddrMappings)
    requires Synced(quic, published, socket, natType, previous)
    ensures var (q, p) := Applied(quic, published, socket, natType, previous, refreshed);
            if Accepts(quic, published, socket, natType, previous, refreshed) then Synced(q, p, socket, natType, refreshed)
            else q == quic && p == published
  {
    if previous != refreshed && Accepts(quic, published, socket, natType, previous, refreshed) {
      var (q, p) := Applied(quic, published, socket, natType, previous, refreshed);
      AppliedQuic(quic, socket, RegisteredEndpoints(socket.bound, refreshed));
      AppliedPublished(
        published, socket, PublishedEndpoints(socket.bound, natType, previous), PublishedEndpoints(socket.bound, natType, refreshed));
    }
  }

  lemma AppliedQuic(quic: Endpoints, socket: UdpSocket, desired: set<EndpointAddr>)
    requires forall e | e in quic && quic[e].bound == socket.bound :: quic[e] == socket
    requires !Conflicts(quic, socket, desired)
    ensures var q := Without(quic, socket.bound) + Assign(desired, socket);
            && OwnedBy(q, socket) == desired
            && (forall e | e in q && q[e].bound == socket.bound :: q[e] == socket)
            && (forall e | e in quic && quic[e] != socket :: e in q && q[e] == quic[e])
            && (forall e | e in q && q[e] != socket :: e in quic && quic[e] == q[e])
  {
    forall e | e in quic && quic[e] != socket ensures e !in desired {
    }
  }

  lemma AppliedPublished(published: Endpoints, socket: UdpSocket, was: set<EndpointAddr>, now: set<EndpointAddr>)
    requires OwnedBy(published, socket) - {Direct(socket.bound)} == was && Direct(socket.bound) !in now
    requires now - was !! published.Keys
    ensures var p := (published + Assign(now - was, socket)) - (was - now);
            && OwnedBy(p, socket) - {Direct(socket.bound)} == now
            && (Direct(socket.bound) in OwnedBy(p, socket) <==> Direct(socket.bound) in OwnedBy(published, socket))
            && (forall e | e in published && published[e] != socket :: e in p && p[e] == published[e])
            && (forall e | e in p && p[e] != socket :: e in published && published[e] == p[e])
  {
    var p := (published + Assign(now - was, socket)) - (was - now);
    assert forall e :: e in was ==> e in OwnedBy(published, socket);
    forall e ensures e in OwnedBy(p, socket) - {Direct(socket.bound)} <==> e in now {
      assert e in OwnedBy(published, socket) <==> e in published && published[e] == socket;
    }
  }

  lemma AppliedKeepsDirect(
      quic: Endpoints, published: Endpoints, socket: UdpSocket, natType: Option<NatType>,
      previous: OuterAddrMappings, refreshed: OuterAddrMappings)
    requires Synced(quic, published, socket, natType, previous)
    ensures var (q, p) := Applied(quic, published, socket, natType, previous, refreshed);
            Direct(socket.bound) in OwnedBy(p, socket) <==> Direct(socket.bound) in OwnedBy(published, socket)
  {
    var was := PublishedEndpoints(socket.bound, natType, previous);
    var now := PublishedEndpoints(socket.bound, natType, refreshed);
    assert Direct(socket.bound) !in was && Direct(socket.bound) !in now;
    hide PublishedEndpoints;
  }

  /** No other socket's endpoint is ever added, moved or dropped. */
  lemma AppliedKeepsOthers(
      quic: Endpoints, published: Endpoints, socket: UdpSocket, natType: Option<NatType>,
      previous: OuterAddrMappings, refreshed: OuterAddrMappings, other: UdpSocket)
    requires Synced(quic, published, socket, natType, previous) && other != socket
    ensures var (q, p) := Applied(quic, published, socket, natType, previous, refreshed);
            && OwnedBy(q, other) == OwnedBy(quic, other)
            && OwnedBy(p, other) == OwnedBy(published, other)
            && forall e | e in q && q[e] != socket :: e in quic && quic[e] == q[e]
  {
    if previous != refreshed && Accepts(quic, published, socket, natType, previous, refreshed) {
      AppliedQuic(quic, socket, RegisteredEndpoints(socket.bound, refreshed));
      AppliedPublished(
        published, socket, PublishedEndpoints(socket.bound, natType, previous), PublishedEndpoints(socket.bound, natType, refreshed));
    }
  }

  // ----- the probe of one binding

  datatype Probe =
    | Initial
    | Classifying(servers: seq<SocketAddr>)
    | Heartbeat(servers: seq<SocketAddr>, natType: Option<NatType>, mappings: OuterAddrMappings, measuring: bool)

  /** What the futures a probe waits for come up with, in the order a poll finds them ready. */
  datatype Ready =
    | Discovered(servers: seq<SocketAddr>)
    | Classified(natType: Option<NatType>)
    | Tick
    | Measured(refreshed: OuterAddrMappings)

  /** A probe and the registries it works on. */
  datatype Site = Site(quic: Endpoints, published: Endpoints, natTypes: map<SocketAddr, NatType>, probe: Probe)

  function NatTypeOf(probe: Probe): Option<NatType> {
    if probe.Heartbeat? then probe.natType else None
  }

  function MappingsOf(probe: Probe): OuterAddrMappings {
    if probe.Heartbeat? then probe.mappings else map[]
  }

  /** One turn of the poll loop, or None where the probe waits for something else. A refused update keeps the mappings. */
  function Advance(socket: UdpSocket, site: Site, event: Ready): Option<Site> {
    match (site.probe, event)
    case (Initial, Discovered(servers)) => Some(site.(probe := Classifying(servers)))
    case (Classifying(servers), Classified(natType)) =>
      Some(site.(natTypes := if natType.Some? then site.natTypes[socket.bound := natType.value] else site.natTypes,
                 probe := Heartbeat(servers, natType, map[], false)))
    case (Heartbeat(servers, natType, mappings, false), Tick) => Some(site.(probe := Heartbeat(servers, natType, mappings, true)))
    case (Heartbeat(servers, natType, mappings, true), Measured(refreshed)) =>
      var (q, p) := Applied(site.quic, site.published, socket, natType, mappings, refreshed);
      var kept := if Accepts(site.quic, site.published, socket, natType, mappings, refreshed) then refreshed else mappings;
      Some(Site(q, p, site.natTypes, Heartbeat(servers, natType, kept, false)))
    case _ => None
  }

  /** The poll loop: it goes on until what the probe waits for is not ready. */
  function Polled(socket: UdpSocket, site: Site, ready: seq<Ready>): Site
    decreases |ready|
  {
    if ready == [] then site
    else
      match Advance(socket, site, ready[0])
      case None => site
      case Some(next) => Polled(socket, next, ready[1..])
  }

  ghost predicate SiteInStep(socket: UdpSocket, site: Site) {
    Synced(site.quic, site.published, socket, NatTypeOf(site.probe), MappingsOf(site.probe))
  }

  /** What one socket's maintenance leaves alone: other sockets' entries and the direct publication. */
  ghost predicate OthersKept(socket: UdpSocket, before: Site, after: Site) {
    && (forall other: UdpSocket | other != socket ::
          && OwnedBy(after.quic, other) == OwnedBy(before.quic, other)
          && OwnedBy(after.published, other) == OwnedBy(before.published, other))
    && (Direct(socket.bound) in OwnedBy(after.published, socket) <==> Direct(socket.bound) in OwnedBy(before.published, socket))
    && (forall b | b != socket.bound :: b in after.natTypes <==> b in before.natTypes)
  }

  /** Without mappings the NAT type makes no difference to what is published. */
  lemma NoMappingsAlike(bound: SocketAddr, natType: Option<NatType>)
    ensures PublishedEndpoints(bound, natType, map[]) == PublishedEndpoints(bound, None, map[])
  {
  }

  lemma AdvanceInStep(socket: UdpSocket, site: Site, event: Ready)
    requires SiteInStep(socket, site)
    ensures var next := Advance(socket, site, event);
            next.Some? ==> SiteInStep(socket, next.value) && OthersKept(socket, site, next.value)
  {
    match (site.probe, event)
    case (Classifying(servers), Classified(natType)) => NoMappingsAlike(socket.bound, natType);
    case (Heartbeat(servers, natType, mappings, true), Measured(refreshed)) =>
      hide Synced, Applied, Accepts;
      AppliedSyncs(site.quic, site.published, socket, natType, mappings, refreshed);
      AppliedKeepsDirect(site.quic, site.published, socket, natType, mappings, refreshed);
      forall other: UdpSocket | other != socket
        ensures var next := Advance(socket, site, event).value;
                OwnedBy(next.quic, other) == OwnedBy(site.quic, other)
                && OwnedBy(next.published, other) == OwnedBy(site.published, other)
      {
        AppliedKeepsOthers(site.quic, site.published, socket, natType, mappings, refreshed, other);
      }
    case _ =>
  }

  /**
   Whatever becomes ready, and however many updates are refused, a poll leaves the socket's registrations and
   publications those of the mappings its probe then holds, and touches nobody else's.
   */
  lemma {:induction false} PollKeepsInStep(socket: UdpSocket, site: Site, ready: seq<Ready>)
    requires SiteInStep(socket, site)
    ensures SiteInStep(socket, Polled(socket, site, ready)) && OthersKept(socket, site, Polled(socket, site, ready))
    decreases |ready|
  {
    hide SiteInStep, Advance;
    if ready != [] {
      AdvanceInStep(socket, site, ready[0]);
      var next := Advance(socket, site, ready[0]);
      if next.Some? {
        PollKeepsInStep(socket, next.value, ready[1..]);
      }
    }
  }

  /** A heartbeat in flight is dropped; applied mappings and the classification stay. */
  function Resumed(probe: Probe): Probe {
    if probe.Heartbeat? then probe.(measuring := false) else probe
  }

  class Nat {
    const dock: Dock
    const addresses: AddressBook
    const socket: UdpSocket
    var probe: Probe

    constructor (dock: Dock, addresses: AddressBook, socket: UdpSocket)
      ensures this.dock == dock && this.addresses == addresses && this.socket == socket && probe == Initial
    {
      this.dock, this.addresses, this.socket := dock, addresses, socket;
      probe := Initial;
    }

    function Here(): Site
      reads this, dock, addresses
    {
      Site(dock.quic, addresses.published, addresses.natTypes, probe)
    }

    /** As long as the dock holds the socket, its registrations and publications are those of the last applied mappings. */
    ghost predicate InStep()
      reads this, dock, addresses
    {
      dock.Valid() && (dock.Holds(socket) ==> SiteInStep(socket, Here()))
    }

    method Resume()
      requires InStep()
      modifies this`probe
      ensures InStep() && probe == Resumed(old(probe))
    {
      match probe
      case Initial => probe := Initial;
      case Classifying(servers) => probe := Classifying(servers);
      case Heartbeat(_, _, _, _) => probe := probe.(measuring := false);
    }

    /** A binding that left the dock does nothing more. */
    method Poll(ready: seq<Ready>)
      requires InStep()
      modifies this`probe, dock`quic, addresses
      ensures InStep()
      ensures Here() == if dock.Holds(socket) then Polled(socket, old(Here()), ready) else old(Here())
    {
      hide Synced, Applied, Accepts;
      if !dock.Holds(socket) {
        return;
      }
      var i := 0;
      while i < |ready|
        invariant i <= |ready| && InStep() && dock.Holds(socket)
        invariant Polled(socket, Here(), ready[i..]) == Polled(socket, old(Here()), ready)
        decreases |ready| - i
      {
        var event := ready[i];
        ghost var before := Here();
        AdvanceInStep(socket, before, event);
        match probe {
          case Initial =>
            if !event.Discovered? {
              return;
            }
            probe := Classifying(event.servers);
          case Classifying(servers) =>
            if !event.Classified? {
              return;
            }
            if event.natType.Some? {
              addresses.SetNat(socket.bound, event.natType.value);
            }
            probe := Heartbeat(servers, event.natType, map[], false);
          case Heartbeat(servers, natType, mappings, measuring) =>
            if !measuring {
              if event != Tick {
                return;
              }
              probe := probe.(measuring := true);
            } else {
              if !event.Measured? {
                return;
              }
              var updated := ApplyOuterMappings(dock, addresses, socket, natType, mappings, event.refreshed);
              probe := Heartbeat(servers, natType, if updated.Ok? then event.refreshed else mappings, false);
            }
        }
        assert Here() == Advance(socket, before, event).value;
        assert ready[i..][1..] == ready[i + 1..];
        i := i + 1;
      }
    }
  }
}
