/** Sorting agent services by the address they need. */
module Grouping {
  import opened Results
  import opened Addresses

  datatype Protocol = Mcp | A2a

  /** What a service asks of the runtime that places it. */
  datatype Requirements = Requirements(addr: Option<string>, http: bool, grpc: bool)

  datatype Service = Service(name: string, protocol: Protocol, needs: Requirements)

  /** A router: the host's, or one made for the group. */
  datatype Mux = Host | Fresh

  datatype Group = Group(addr: string, listen: string, mux: Mux, services: seq<Service>, http: bool, owned: bool)

  function AddrOf(shared: string, service: Service): string {
    service.needs.addr.UnwrapOr(shared)
  }

  /** The services that belong at `addr`, in registration order. */
  function At(services: seq<Service>, shared: string, addr: string): seq<Service>
    decreases |services|
  {
    if services == [] then []
    else
      var n := |services| - 1;
      At(services[..n], shared, addr) + if AddrOf(shared, services[n]) == addr then [services[n]] else []
  }

  lemma {:induction false} AtExactly(services: seq<Service>, shared: string, addr: string, s: Service)
    ensures s in At(services, shared, addr) <==> s in services && AddrOf(shared, s) == addr
    decreases |services|
  {
    if services != [] {
      var n := |services| - 1;
      AtExactly(services[..n], shared, addr, s);
      assert services == services[..n] + [services[n]];
    }
  }

  ghost predicate NeedsHttp(services: seq<Service>) {
    exists s :: s in services && s.needs.http
  }

  /** `group` is exactly what belongs at its address. */
  ghost predicate IsGroup(services: seq<Service>, shared: string, hostMux: bool, group: Group) {
    && group.services == At(services, shared, group.addr)
    && (group.http <==> NeedsHttp(group.services))
    && (!group.owned <==> hostMux && group.addr == shared)
    && (group.mux == Host <==> !group.owned)
  }

  /** The groups partition the services by address, sorted by it. */
  ghost predicate IsGrouping(services: seq<Service>, shared: string, hostMux: bool, groups: seq<Group>) {
    && (forall i, j | 0 <= i < j < |groups| :: Less(groups[i].addr, groups[j].addr))
    && (forall g | g in groups :: IsGroup(services, shared, hostMux, g) && g.services != [])
    && (forall s | s in services :: exists g :: g in groups && g.addr == AddrOf(shared, s))
  }

  /** `byAddr` holds the group of every address `services` need. */
  ghost predicate Built(services: seq<Service>, shared: string, hostMux: bool, byAddr: map<string, Group>) {
    && (forall a | a in byAddr :: BuiltAt(services, shared, hostMux, a, byAddr[a]) && byAddr[a].services != [])
    && (forall s | s in services :: AddrOf(shared, s) in byAddr)
  }

  ghost predicate BuiltAt(services: seq<Service>, shared: string, hostMux: bool, addr: string, group: Group) {
    group.addr == group.listen == addr && IsGroup(services, shared, hostMux, group)
  }

  /** A group with nobody in it yet. Only the shared address may be on the host's router. */
  function NewGroup(addr: string, onHost: bool): Group {
    Group(addr, addr, if onHost then Host else Fresh, [], false, !onHost)
  }

  function Grown(group: Group, service: Service): Group {
    group.(services := group.services + [service], http := group.http || service.needs.http)
  }

  /** `order` lists every address of `byAddr` once. */
  ghost predicate Orders(order: seq<string>, byAddr: map<string, Group>) {
    && (forall a :: a in order <==> a in byAddr)
    && (forall i, j | 0 <= i < j < |order| :: order[i] != order[j])
  }

  lemma OrderMore(order: seq<string>, byAddr: map<string, Group>, addr: string, group: Group)
    requires Orders(order, byAddr)
    ensures Orders(if addr in byAddr then order else order + [addr], byAddr[addr := group])
  {
    if addr !in byAddr {
      assert forall i | 0 <= i < |order| :: order[i] in order;
      assert forall a :: a in order + [addr] <==> a in order || a == addr;
    }
  }

  /** The services sorted into groups, and the addresses of the groups in order of appearance. */
  method Collect(services: seq<Service>, shared: string, hostMux: bool)
    returns (byAddr: map<string, Group>, order: seq<string>)
    ensures Built(services, shared, hostMux, byAddr)
    ensures Orders(order, byAddr)
  {
    byAddr := map[];
    order := [];
    for n := 0 to |services|
      invariant Orders(order, byAddr)
      invariant Built(services[..n], shared, hostMux, byAddr)
    {
      var service := services[n];
      var addr := AddrOf(shared, service);
      var group := if addr in byAddr then byAddr[addr] else NewGroup(addr, hostMux && addr == shared);
      var joined := Grown(group, service);
      JoinKeepsBuilt(services[..n], service, shared, hostMux, byAddr, group);
      OrderMore(order, byAddr, addr, joined);
      if addr !in byAddr { order := order + [addr]; }
      byAddr := byAddr[addr := joined];
      assert services[..n + 1] == services[..n] + [service];
    }
    assert services[..|services|] == services;
  }

  /** `Runtime::group`. */
  method GroupServices(services: seq<Service>, shared: string, hostMux: bool) returns (groups: seq<Group>)
    ensures IsGrouping(services, shared, hostMux, groups)
    ensures forall g | g in groups :: g.listen == g.addr
  {
    var byAddr, order := Collect(services, shared, hostMux);
    var sorted := Sort(order);
    groups := [];
    for k := 0 to |sorted|
      invariant |groups| == k
      invariant forall i | 0 <= i < k :: sorted[i] in byAddr && groups[i] == byAddr[sorted[i]]
    {
      groups := groups + [byAddr[sorted[k]]];
    }
    forall s | s in services
      ensures exists g :: g in groups && g.addr == AddrOf(shared, s)
    {
      var i :| 0 <= i < |sorted| && sorted[i] == AddrOf(shared, s);
      assert groups[i] in groups;
    }
  }

  /** One more service joins its own group, made if need be, and changes no other. */
  lemma JoinKeepsBuilt(services: seq<Service>, service: Service, shared: string, hostMux: bool,
                       byAddr: map<string, Group>, group: Group)
    requires Built(services, shared, hostMux, byAddr)
    requires var addr := AddrOf(shared, service);
      group == if addr in byAddr then byAddr[addr] else NewGroup(addr, hostMux && addr == shared)
    ensures Built(services + [service], shared, hostMux, byAddr[AddrOf(shared, service) := Grown(group, service)])
  {
    var addr := AddrOf(shared, service);
    var more := services + [service];
    var grown := byAddr[addr := Grown(group, service)];
    assert BuiltAt(services, shared, hostMux, addr, group) by {
      if addr !in byAddr { NobodyAt(services, shared, addr); }
    }
    forall a | a in grown
      ensures BuiltAt(more, shared, hostMux, a, grown[a]) && grown[a].services != []
    {
      AtMore(services, service, shared, a);
      HttpMore(group.services, service);
    }
  }

  lemma {:induction false} NobodyAt(services: seq<Service>, shared: string, addr: string)
    requires forall s | s in services :: AddrOf(shared, s) != addr
    ensures At(services, shared, addr) == []
    decreases |services|
  {
    if services != [] { NobodyAt(services[..|services| - 1], shared, addr); }
  }

  lemma AtMore(services: seq<Service>, service: Service, shared: string, addr: string)
    ensures At(services + [service], shared, addr)
         == At(services, shared, addr) + if AddrOf(shared, service) == addr then [service] else []
  {
    assert (services + [service])[..|services|] == services;
  }

  lemma HttpMore(services: seq<Service>, service: Service)
    ensures NeedsHttp(services + [service]) <==> NeedsHttp(services) || service.needs.http
  {
    assert service in services + [service];
    assert forall s :: s in services + [service] <==> s in services || s == service;
  }

  /** Every service is a member of exactly one group: the one at its own address or the shared one. */
  lemma EachServiceHasOneGroup(services: seq<Service>, shared: string, hostMux: bool, groups: seq<Group>, s: Service)
    requires IsGrouping(services, shared, hostMux, groups) && s in services
    ensures exists i ::
      && 0 <= i < |groups| && s in groups[i].services && groups[i].addr == AddrOf(shared, s)
      && forall j | 0 <= j < |groups| && s in groups[j].services :: j == i
  {
    var g :| g in groups && g.addr == AddrOf(shared, s);
    var i :| 0 <= i < |groups| && groups[i] == g;
    AtExactly(services, shared, g.addr, s);
    forall j | 0 <= j < |groups| && s in groups[j].services
      ensures j == i
    {
      assert groups[j] in groups;
      AtExactly(services, shared, groups[j].addr, s);
      LessIsTotal(groups[i].addr, groups[j].addr);
      LessIsTotal(groups[j].addr, groups[i].addr);
    }
  }
}
