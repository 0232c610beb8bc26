/** The zeroconf publisher for container management: it polls the list of
    containers, compares it with the snapshot of the previous poll, and
    publishes or unpublishes a DNS-SD service per container (named after the
    container, advertising its first host port). The container listing is an
    input per poll; the zeroconf library's registrations and
    unregistrations are recorded in a log. */
module Zeroconf {
  import opened Wrappers
  import opened Lex
  import opened StableSort

  type Id = string

  /** The longest service name DNS-SD allows. */
  const MaxServiceNameLength: nat := 15

  /** A port mapping of the container's host configuration. */
  datatype PortMapping = PortMapping(hostPort: int, protocol: string)

  /** What the listing says about a container; `portMappings` is `None`
      when reading and sorting the mappings raises `TypeError`. */
  datatype Container = Container(id: Id, name: string, running: bool, portMappings: Option<seq<PortMapping>>)

  /** A `(host_port, protocol)` pair. */
  datatype Port = Port(hostPort: int, protocol: string)

  /** `ContainerStatus`: one container as recorded in a snapshot. */
  datatype ContainerStatus = ContainerStatus(cId: Id, name: string, ports: seq<Port>, running: bool)

  datatype ServiceInfo = ServiceInfo(serviceType: string, name: string, port: int, server: string)

  /** What is asked of the zeroconf library. */
  datatype ZcAction = Register(info: ServiceInfo) | Unregister(info: ServiceInfo)

  /** A call of `update_service(data, publish)`. */
  datatype Request = Request(data: ContainerStatus, publish: bool)

  // ---------------------------------------------------------------------
  // Service names

  /** `s` with every `a` replaced by `b` (`str.replace` on one character). */
  function ReplaceChar(s: string, a: char, b: char): (r: string)
    ensures |r| == |s|
    ensures forall j :: 0 <= j < |s| ==> r[j] == if s[j] == a then b else s[j]
  {
    seq(|s|, j requires 0 <= j < |s| => if s[j] == a then b else s[j])
  }

  /** `s` without any `c` (`str.replace(c, "")`). */
  function RemoveChar(s: string, c: char): (r: string)
    ensures |r| <= |s|
  {
    if s == [] then [] else (if s[0] == c then [] else [s[0]]) + RemoveChar(s[1..], c)
  }

  /** Removing `c` leaves no `c`, adds nothing, and keeps every other
      character as often as it occurs; a name without `c` is unchanged. */
  lemma {:induction false} RemoveCharSpec(s: string, c: char)
    ensures c !in RemoveChar(s, c)
    ensures forall x :: x in RemoveChar(s, c) ==> x in s
    ensures forall x :: x != c ==> multiset(RemoveChar(s, c))[x] == multiset(s)[x]
    ensures c !in s ==> RemoveChar(s, c) == s
  {
    RemoveCharCounts(s, c);
    RemoveCharAbsent(s, c);
    forall x | x in RemoveChar(s, c) ensures x in s {
      assert multiset(RemoveChar(s, c))[x] > 0;
    }
  }

  lemma {:induction false} RemoveCharCounts(s: string, c: char)
    ensures multiset(RemoveChar(s, c))[c] == 0
    ensures forall x :: x != c ==> multiset(RemoveChar(s, c))[x] == multiset(s)[x]
  {
    if s != [] {
      RemoveCharCounts(s[1..], c);
      var head := if s[0] == c then [] else [s[0]];
      assert RemoveChar(s, c) == head + RemoveChar(s[1..], c);
      assert multiset(RemoveChar(s, c)) == multiset(head) + multiset(RemoveChar(s[1..], c));
      assert s == [s[0]] + s[1..];
      assert multiset(s) == multiset([s[0]]) + multiset(s[1..]);
    }
  }

  lemma {:induction false} RemoveCharAbsent(s: string, c: char)
    ensures c !in s ==> RemoveChar(s, c) == s
  {
    if s != [] && c !in s {
      RemoveCharAbsent(s[1..], c);
      assert c !in s[1..];
      assert s == [s[0]] + s[1..];
    }
  }

  /** One step of the shortening: drop every `c` if the name is too long. */
  function DropIfLong(s: string, c: char): (r: string)
    ensures |r| <= |s|
    ensures forall x :: x in r ==> x in s
    ensures |s| > MaxServiceNameLength ==> c !in r
    ensures |s| <= MaxServiceNameLength ==> r == s
    ensures forall x :: x != c ==> multiset(r)[x] == multiset(s)[x]
  {
    RemoveCharSpec(s, c);
    if |s| > MaxServiceNameLength then RemoveChar(s, c) else s
  }

  /** The last step: cut to the longest allowed length. */
  function Truncate(s: string): (r: string)
    ensures |r| <= MaxServiceNameLength
    ensures forall x :: x in r ==> x in s
    ensures r <= s
    ensures |r| == if |s| > MaxServiceNameLength then MaxServiceNameLength else |s|
  {
    if |s| > MaxServiceNameLength then s[..MaxServiceNameLength] else s
  }

  /** `_get_valid_service_name`: spaces become underscores; while the name
      is longer than 15 characters, underscores are dropped, then hyphens,
      and finally it is cut to 15 characters. */
  function ValidServiceName(name: string): string
  {
    Truncate(DropIfLong(DropIfLong(ReplaceChar(name, ' ', '_'), '_'), '-'))
  }

  /** A long name with neither spaces nor underscores, such as a container
      id: its hyphens are dropped and what remains is cut to its first 15
      characters. */
  lemma ValidServiceNameLong(name: string)
    requires ' ' !in name && '_' !in name && |name| > MaxServiceNameLength
    ensures ValidServiceName(name) == Truncate(RemoveChar(name, '-'))
    ensures ValidServiceName(name) <= RemoveChar(name, '-')
  {
    var replaced := ReplaceChar(name, ' ', '_');
    assert replaced == name;
    RemoveCharAbsent(name, '_');
  }

  /** The name is a valid service name: no space, at most 15 characters;
      and a name longer than 15 characters keeps no underscore. */
  lemma ValidServiceNameValid(name: string)
    ensures |ValidServiceName(name)| <= MaxServiceNameLength
    ensures ' ' !in ValidServiceName(name)
    ensures |name| > MaxServiceNameLength ==> '_' !in ValidServiceName(name)
  {
    var replaced := ReplaceChar(name, ' ', '_');
    assert forall j :: 0 <= j < |replaced| ==> replaced[j] != ' ';
  }

  /** Underscores and hyphens are only dropped as far as needed: a name of
      at most 15 characters only has its spaces turned into underscores (so
      one free of spaces comes back unchanged), and one that fits once its
      underscores are gone keeps its hyphens. */
  lemma ValidServiceNameMinimal(name: string)
    ensures |name| <= MaxServiceNameLength ==> ValidServiceName(name) == ReplaceChar(name, ' ', '_')
    ensures |name| <= MaxServiceNameLength && ' ' !in name ==> ValidServiceName(name) == name
    ensures var replaced := ReplaceChar(name, ' ', '_');
            (|replaced| > MaxServiceNameLength && |RemoveChar(replaced, '_')| <= MaxServiceNameLength)
            ==> ValidServiceName(name) == RemoveChar(replaced, '_')
  {
    if |name| <= MaxServiceNameLength && ' ' !in name {
      assert ReplaceChar(name, ' ', '_') == name;
    }
  }

  // ---------------------------------------------------------------------
  // Port lists

  /** Python's order on `(host_port, protocol)` tuples. */
  predicate PortBelow(a: Port, b: Port)
  {
    a.hostPort < b.hostPort || (a.hostPort == b.hostPort && Below(a.protocol, b.protocol))
  }

  function PortKey(p: Port): Port
  {
    p
  }

  lemma PortBelowIsStrictTotalOrder()
    ensures StrictTotalOrder(PortBelow)
  {
    forall a: Port ensures !PortBelow(a, a) {
      BelowIrreflexive(a.protocol);
    }
    forall a: Port, b: Port, c: Port | PortBelow(a, b) && PortBelow(b, c) ensures PortBelow(a, c) {
      if a.hostPort == b.hostPort && b.hostPort == c.hostPort {
        BelowTransitive(a.protocol, b.protocol, c.protocol);
      }
    }
    forall a: Port, b: Port | a != b ensures PortBelow(a, b) || PortBelow(b, a) {
      if a.hostPort == b.hostPort {
        BelowTotal(a.protocol, b.protocol);
      }
    }
  }

  /** The mappings as `(host_port, protocol)` pairs, in listing order. */
  function PortPairs(ms: seq<PortMapping>): (ps: seq<Port>)
    ensures |ps| == |ms|
    ensures forall j :: 0 <= j < |ms| ==> ps[j] == Port(ms[j].hostPort, ms[j].protocol)
  {
    seq(|ms|, j requires 0 <= j < |ms| => Port(ms[j].hostPort, ms[j].protocol))
  }

  /** The port list of a container: its pairs sorted, or empty when
      building them raises `TypeError`. */
  function Ports(c: Container): seq<Port>
  {
    match c.portMappings
    case None => []
    case Some(ms) => Sort(PortPairs(ms), PortKey, PortBelow)
  }

  /** The port list holds exactly the container's pairs, in ascending
      order. */
  lemma PortsSpec(c: Container)
    ensures c.portMappings.None? ==> Ports(c) == []
    ensures c.portMappings.Some? ==>
              && |Ports(c)| == |c.portMappings.value|
              && multiset(Ports(c)) == multiset(PortPairs(c.portMappings.value))
              && Sorted(Ports(c), PortKey, PortBelow)
  {
    if c.portMappings.Some? {
      PortBelowIsStrictTotalOrder();
      SortCorrect(PortPairs(c.portMappings.value), PortKey, PortBelow);
    }
  }

  /** The snapshot entry of a listed container. */
  function StatusOf(c: Container): ContainerStatus
  {
    ContainerStatus(c.id, c.name, Ports(c), c.running)
  }

  // ---------------------------------------------------------------------
  // The zeroconf client

  /** The client's state: the service infos created so far, by container
      id, and the log of what was asked of the zeroconf library. */
  datatype Zc = Zc(services: map<Id, ServiceInfo>, log: seq<ZcAction>)

  /** `_create_service_info`'s info for a container with ports. */
  function NewServiceInfo(data: ContainerStatus, server: string): ServiceInfo
    requires |data.ports| > 0
  {
    var serviceType := "_" + ValidServiceName(data.cId) + "._" + data.ports[0].protocol + ".local.";
    ServiceInfo(serviceType, data.name + "." + serviceType, data.ports[0].hostPort, server)
  }

  /** `publish_service`: register the cached info of the container, or a
      new one, which is then cached. */
  function Publish(z: Zc, data: ContainerStatus, server: string): Zc
    requires data.cId in z.services || |data.ports| > 0
  {
    var info := if data.cId in z.services then z.services[data.cId] else NewServiceInfo(data, server);
    Zc(z.services[data.cId := info], z.log + [Register(info)])
  }

  /** `unpublish_service`: unregister the cached info, if there is one. */
  function Unpublish(z: Zc, id: Id): Zc
  {
    if id in z.services then Zc(z.services, z.log + [Unregister(z.services[id])]) else z
  }

  /** `update_service`: publish only when the data has ports; unpublish
      by id. */
  function UpdateService(z: Zc, r: Request, server: string): Zc
  {
    if r.publish then (if |r.data.ports| > 0 then Publish(z, r.data, server) else z)
    else Unpublish(z, r.data.cId)
  }

  /** The requests applied one after the other. */
  function ApplyAll(z: Zc, reqs: seq<Request>, server: string): Zc
  {
    if reqs == [] then z else UpdateService(ApplyAll(z, reqs[..|reqs| - 1], server), reqs[|reqs| - 1], server)
  }

  /** A service info is created once per container and reused: publishing
      caches an info for the container, the one already cached if any
      (whatever the current ports), or else one whose type is
      `_<valid id>._<protocol>.local.`, whose name is the container name
      followed by that type, and whose port is the first host port; the
      info is what gets registered. */
  lemma PublishSpec(z: Zc, data: ContainerStatus, server: string)
    requires |data.ports| > 0
    ensures var z' := Publish(z, data, server);
            var info := z'.services[data.cId];
            && data.cId in z'.services
            && z'.log == z.log + [Register(info)]
            && (data.cId in z.services ==> info == z.services[data.cId])
            && (data.cId !in z.services ==>
                  && info.serviceType == "_" + ValidServiceName(data.cId) + "._" + data.ports[0].protocol + ".local."
                  && info.name == data.name + "." + info.serviceType
                  && info.port == data.ports[0].hostPort
                  && info.server == server)
            && (forall id :: id != data.cId ==> (id in z'.services <==> id in z.services))
            && (forall id :: id != data.cId && id in z.services ==> z'.services[id] == z.services[id])
  {
  }

  /** A publish request without ports, and an unpublish of a container that
      has no cached info, do nothing. */
  lemma UpdateServiceNoOps(z: Zc, r: Request, server: string)
    ensures r.publish && r.data.ports == [] ==> UpdateService(z, r, server) == z
    ensures !r.publish && r.data.cId !in z.services ==> UpdateService(z, r, server) == z
    ensures !r.publish && r.data.cId in z.services ==>
              UpdateService(z, r, server) == Zc(z.services, z.log + [Unregister(z.services[r.data.cId])])
  {
  }

  /** Republishing a container whose ports changed registers the info
      cached at its first publication: the advertised port stays the old
      one even though the request carries new ports. */
  lemma RepublishKeepsCachedPort(z: Zc, data: ContainerStatus, server: string)
    requires data.cId in z.services && |data.ports| > 0
    requires data.ports[0].hostPort != z.services[data.cId].port
    ensures var z' := UpdateService(z, Request(data, true), server);
            && z'.log[|z'.log| - 1] == Register(z.services[data.cId])
            && z'.log[|z'.log| - 1].info.port != data.ports[0].hostPort
  {
  }

  /** Over any run of requests, cached infos are never replaced or dropped,
      and the log only grows. */
  lemma {:induction false} ApplyAllKeepsCache(z: Zc, reqs: seq<Request>, server: string)
    ensures var z' := ApplyAll(z, reqs, server);
            && (forall id :: id in z.services ==> id in z'.services && z'.services[id] == z.services[id])
            && |z.log| <= |z'.log| && z'.log[..|z.log|] == z.log
  {
    if reqs != [] {
      var mid := ApplyAll(z, reqs[..|reqs| - 1], server);
      ApplyAllKeepsCache(z, reqs[..|reqs| - 1], server);
      var z' := ApplyAll(z, reqs, server);
      assert z'.log[..|mid.log|] == mid.log;
      assert z'.log[..|z.log|] == mid.log[..|z.log|];
    }
  }

  lemma ApplyAllAppend(z: Zc, reqs: seq<Request>, r: Request, server: string)
    ensures ApplyAll(z, reqs + [r], server) == UpdateService(ApplyAll(z, reqs, server), r, server)
  {
    assert (reqs + [r])[..|reqs|] == reqs;
  }

  lemma ApplyAllNone(z: Zc, server: string)
    ensures ApplyAll(z, [], server) == z
  {
  }

  lemma ApplyAllOne(z: Zc, r: Request, server: string)
    ensures ApplyAll(z, [r], server) == UpdateService(z, r, server)
  {
    assert [r][..0] == [];
  }

  /** Applying two runs of requests in turn is applying their
      concatenation. */
  lemma {:induction false} ApplyAllConcat(z: Zc, a: seq<Request>, b: seq<Request>, server: string)
    ensures ApplyAll(z, a + b, server) == ApplyAll(ApplyAll(z, a, server), b, server)
    decreases |b|
  {
    if b == [] {
      assert a + b == a;
    } else {
      var init := b[..|b| - 1];
      ApplyAllConcat(z, a, init, server);
      assert (a + b)[..|a + b| - 1] == a + init;
    }
  }

  class ZeroconfClient {
    var services: map<Id, ServiceInfo>
    var log: seq<ZcAction>
    /** `<host name>.local.` */
    const server: string

    constructor (hostname: string)
      ensures services == map[] && log == [] && server == hostname + ".local."
    {
      services := map[];
      log := [];
      server := hostname + ".local.";
    }

    function State(): Zc
      reads this
    {
      Zc(services, log)
    }

    method CreateServiceInfo(data: ContainerStatus) returns (info: ServiceInfo)
      requires |data.ports| > 0
      modifies this
      ensures info == NewServiceInfo(data, server)
      ensures services == old(services)[data.cId := info] && log == old(log)
    {
      var serviceType := "_" + ValidServiceName(data.cId) + "._" + data.ports[0].protocol + ".local.";
      var serviceName := data.name + "." + serviceType;
      var servicePort := data.ports[0].hostPort;
      info := ServiceInfo(serviceType, serviceName, servicePort, server);
      services := services[data.cId := info];
    }

    method PublishService(data: ContainerStatus)
      requires data.cId in services || |data.ports| > 0
      modifies this
      ensures State() == Publish(old(State()), data, server)
    {
      var info;
      if data.cId in services {
        info := services[data.cId];
      } else {
        info := CreateServiceInfo(data);
      }
      log := log + [Register(info)];
    }

    method UnpublishService(containerId: Id)
      modifies this
      ensures State() == Unpublish(old(State()), containerId)
    {
      if containerId in services {
        var info := services[containerId];
        log := log + [Unregister(info)];
      }
    }
  }

  // ---------------------------------------------------------------------
  // The diff of two snapshots

  /** The snapshot a poll leaves: each listed container by id, a later
      entry with the same id replacing an earlier one. */
  function Snapshot(list: seq<Container>): map<Id, ContainerStatus>
  {
    if list == [] then map[]
    else Snapshot(list[..|list| - 1])[list[|list| - 1].id := StatusOf(list[|list| - 1])]
  }

  /** The position of the last container with id `id` in the listing, or
      -1. */
  function LastOccurrence(list: seq<Container>, id: Id): (j: int)
    ensures -1 <= j < |list|
    ensures j >= 0 ==> list[j].id == id
    ensures forall k :: j < k < |list| ==> list[k].id != id
  {
    if list == [] then -1
    else if list[|list| - 1].id == id then |list| - 1
    else LastOccurrence(list[..|list| - 1], id)
  }

  /** The snapshot holds exactly the listed ids, each with the status of its
      last occurrence in the listing. */
  lemma {:induction false} SnapshotSpec(list: seq<Container>, id: Id)
    ensures id in Snapshot(list) <==> LastOccurrence(list, id) >= 0
    ensures id in Snapshot(list) ==> Snapshot(list)[id] == StatusOf(list[LastOccurrence(list, id)])
  {
    if list != [] {
      var init := list[..|list| - 1];
      SnapshotSpec(init, id);
      if LastOccurrence(list, id) >= 0 && list[|list| - 1].id != id {
        assert list[LastOccurrence(list, id)] == init[LastOccurrence(init, id)];
      }
    }
  }

  /** An id is in the snapshot exactly when some listed container has it. */
  lemma SnapshotKeys(list: seq<Container>, id: Id)
    ensures id in Snapshot(list) <==> exists j :: 0 <= j < |list| && list[j].id == id
  {
    SnapshotSpec(list, id);
  }

  /** Every status in a snapshot is recorded under its own id. */
  ghost predicate KeyedById(snapshot: map<Id, ContainerStatus>)
  {
    forall id :: id in snapshot ==> snapshot[id].cId == id
  }

  lemma {:induction false} SnapshotKeyedById(list: seq<Container>)
    ensures KeyedById(Snapshot(list))
  {
    if list != [] {
      SnapshotKeyedById(list[..|list| - 1]);
    }
  }

  /** The publish requests of the first phase: each listed container whose
      id the previous snapshot lacks, once per occurrence, in listing
      order, running or not. */
  function AddedRequests(prev: map<Id, ContainerStatus>, list: seq<Container>): seq<Request>
  {
    if list == [] then []
    else
      var init := list[..|list| - 1];
      var c := list[|list| - 1];
      AddedRequests(prev, init) + (if c.id !in prev then [Request(StatusOf(c), true)] else [])
  }

  /** The unpublish requests for the ids in `order`, with their previous
      status. */
  function RemovedRequests(prev: map<Id, ContainerStatus>, order: seq<Id>): seq<Request>
    requires forall j :: 0 <= j < |order| ==> order[j] in prev
  {
    seq(|order|, j requires 0 <= j < |order| => Request(prev[order[j]], false))
  }

  /** Each container gone since the previous snapshot is unpublished
      exactly once, with its previous status. */
  lemma RemovedRequestsSpec(prev: map<Id, ContainerStatus>, gone: set<Id>, order: seq<Id>)
    requires gone <= prev.Keys
    requires multiset(order) == multiset(gone)
    ensures forall j :: 0 <= j < |order| ==> order[j] in prev
    ensures |RemovedRequests(prev, order)| == |gone|
    ensures forall id :: id in gone ==> Request(prev[id], false) in RemovedRequests(prev, order)
    ensures forall r :: r in RemovedRequests(prev, order) ==> !r.publish && exists id :: id in gone && r.data == prev[id]
  {
    assert forall j :: 0 <= j < |order| ==> order[j] in multiset(order);
    assert |order| == |multiset(order)| == |multiset(gone)| == |gone|;
    forall id | id in gone ensures Request(prev[id], false) in RemovedRequests(prev, order) {
      assert id in multiset(order);
      var j :| 0 <= j < |order| && order[j] == id;
      assert RemovedRequests(prev, order)[j] == Request(prev[id], false);
    }
  }

  /** The request, if any, for a container in both snapshots, from its
      previous and its current status: a started container is published
      with its previous status; a container running in both whose ports
      changed is published with its current status, or unpublished when it
      has no ports left; a stopped container is unpublished. */
  function DiffRequest(before: ContainerStatus, now: ContainerStatus): Option<Request>
  {
    if now.running then
      if !before.running then Some(Request(before, true))
      else if now.ports != before.ports then
        (if |now.ports| > 0 then Some(Request(now, true)) else Some(Request(before, false)))
      else None
    else if before.running then Some(Request(before, false))
    else None
  }

  function AsSeq(o: Option<Request>): seq<Request>
  {
    match o
    case Some(r) => [r]
    case None => []
  }

  /** The requests of the third phase for the ids in `order`. */
  function ChangedRequests(prev: map<Id, ContainerStatus>, cur: map<Id, ContainerStatus>, order: seq<Id>): seq<Request>
    requires forall j :: 0 <= j < |order| ==> order[j] in prev && order[j] in cur
  {
    if order == [] then []
    else
      var init := order[..|order| - 1];
      var id := order[|order| - 1];
      ChangedRequests(prev, cur, init) + AsSeq(DiffRequest(prev[id], cur[id]))
  }

  lemma ChangedRequestsAppend(prev: map<Id, ContainerStatus>, cur: map<Id, ContainerStatus>, order: seq<Id>, id: Id)
    requires forall j :: 0 <= j < |order| ==> order[j] in prev && order[j] in cur
    requires id in prev && id in cur
    ensures ChangedRequests(prev, cur, order + [id]) == ChangedRequests(prev, cur, order) + AsSeq(DiffRequest(prev[id], cur[id]))
  {
    assert (order + [id])[..|order|] == order;
  }

  /** The request for a container in both snapshots concerns that
      container: an unpublish carries its previous status, a publish its
      previous status when it started and its current one when its ports
      changed. Together with a listing never changing what it says about a
      running container that stays put, no request is issued. */
  lemma DiffRequestSpec(before: ContainerStatus, now: ContainerStatus)
    requires before.cId == now.cId
    ensures DiffRequest(before, now).Some? ==> DiffRequest(before, now).value.data.cId == before.cId
    ensures DiffRequest(before, now).Some? && !DiffRequest(before, now).value.publish
            ==> DiffRequest(before, now).value.data == before
    ensures DiffRequest(before, now).Some? && DiffRequest(before, now).value.publish
            ==> DiffRequest(before, now).value.data == if before.running then now else before
    ensures DiffRequest(before, now).Some? <==>
              (before.running != now.running || (now.running && now.ports != before.ports))
    ensures DiffRequest(before, now).Some? && DiffRequest(before, now).value.publish <==>
              (now.running && (!before.running || (now.ports != before.ports && |now.ports| > 0)))
  {
  }

  /** No request at all for ids whose status is the same in both
      snapshots. */
  lemma {:induction false} ChangedRequestsSame(prev: map<Id, ContainerStatus>, cur: map<Id, ContainerStatus>, order: seq<Id>)
    requires forall j :: 0 <= j < |order| ==> order[j] in prev && order[j] in cur && prev[order[j]] == cur[order[j]]
    ensures ChangedRequests(prev, cur, order) == []
  {
    if order != [] {
      ChangedRequestsSame(prev, cur, order[..|order| - 1]);
      assert DiffRequest(prev[order[|order| - 1]], cur[order[|order| - 1]]) == None;
    }
  }

  /** Once a listing has been taken in, polling the same listing again
      issues nothing: no id is new, none is gone, none changed. */
  lemma SteadyState(list: seq<Container>, removedOrder: seq<Id>, changedOrder: seq<Id>)
    requires multiset(removedOrder) == multiset(Snapshot(list).Keys - Snapshot(list).Keys)
    requires forall j :: 0 <= j < |changedOrder| ==> changedOrder[j] in Snapshot(list)
    ensures removedOrder == []
    ensures AddedRequests(Snapshot(list), list)
            + RemovedRequests(Snapshot(list), removedOrder)
            + ChangedRequests(Snapshot(list), Snapshot(list), changedOrder) == []
  {
    assert |removedOrder| == |multiset(removedOrder)|;
    forall j | 0 <= j < |list| ensures list[j].id in Snapshot(list) {
      SnapshotSpec(list, list[j].id);
    }
    AddedNoneKnown(Snapshot(list), list);
    ChangedRequestsSame(Snapshot(list), Snapshot(list), changedOrder);
  }

  lemma {:induction false} AddedNoneKnown(prev: map<Id, ContainerStatus>, list: seq<Container>)
    requires forall j :: 0 <= j < |list| ==> list[j].id in prev
    ensures AddedRequests(prev, list) == []
  {
    if list != [] {
      AddedNoneKnown(prev, list[..|list| - 1]);
    }
  }

  /** The added requests are exactly the listed containers new to the
      previous snapshot, with their current status. */
  lemma {:induction false} AddedRequestsSpec(prev: map<Id, ContainerStatus>, list: seq<Container>)
    ensures forall r :: r in AddedRequests(prev, list) <==>
              r.publish && exists j :: 0 <= j < |list| && list[j].id !in prev && r.data == StatusOf(list[j])
  {
    if list != [] {
      var init := list[..|list| - 1];
      AddedRequestsSpec(prev, init);
      assert forall j :: 0 <= j < |init| ==> init[j] == list[j];
      forall r ensures r in AddedRequests(prev, list) <==>
          r.publish && exists j :: 0 <= j < |list| && list[j].id !in prev && r.data == StatusOf(list[j])
      {
        if r.publish && exists j :: 0 <= j < |list| && list[j].id !in prev && r.data == StatusOf(list[j]) {
          var j :| 0 <= j < |list| && list[j].id !in prev && r.data == StatusOf(list[j]);
          if j < |init| {
            assert init[j] == list[j];
          }
        }
      }
    }
  }

  // ---------------------------------------------------------------------
  // Runs of rounds

  /** The snapshot a run over `polls` leaves: that of the last listing,
      or `prev` when there was no poll. */
  function After(prev: map<Id, ContainerStatus>, polls: seq<seq<Container>>): map<Id, ContainerStatus>
  {
    if polls == [] then prev else Snapshot(polls[|polls| - 1])
  }

  /** The `update_service` calls of one round from the snapshot `prev`,
      given the orders the gone ids and the common ids are visited in. */
  function Round(prev: map<Id, ContainerStatus>, list: seq<Container>, removedOrder: seq<Id>, changedOrder: seq<Id>): seq<Request>
    requires forall j :: 0 <= j < |removedOrder| ==> removedOrder[j] in prev
    requires forall j :: 0 <= j < |changedOrder| ==> changedOrder[j] in prev && changedOrder[j] in Snapshot(list)
  {
    AddedRequests(prev, list) + RemovedRequests(prev, removedOrder) + ChangedRequests(prev, Snapshot(list), changedOrder)
  }

  /** The visiting orders of a round: each gone id once, each common id
      once. */
  ghost predicate RoundOrders(prev: map<Id, ContainerStatus>, list: seq<Container>, removedOrder: seq<Id>, changedOrder: seq<Id>)
  {
    && multiset(removedOrder) == multiset(prev.Keys - Snapshot(list).Keys)
    && multiset(changedOrder) == multiset(Snapshot(list).Keys * prev.Keys)
    && (forall j :: 0 <= j < |removedOrder| ==> removedOrder[j] in prev)
    && (forall j :: 0 <= j < |changedOrder| ==> changedOrder[j] in prev && changedOrder[j] in Snapshot(list))
  }

  /** One pair of visiting orders per poll, each fitting its round. */
  ghost predicate OrdersFit(prev: map<Id, ContainerStatus>, polls: seq<seq<Container>>,
                            removedOrders: seq<seq<Id>>, changedOrders: seq<seq<Id>>)
    decreases |polls|
  {
    && |removedOrders| == |polls| && |changedOrders| == |polls|
    && (polls != [] ==>
          var n := |polls| - 1;
          && OrdersFit(prev, polls[..n], removedOrders[..n], changedOrders[..n])
          && RoundOrders(After(prev, polls[..n]), polls[n], removedOrders[n], changedOrders[n]))
  }

  /** The calls of a whole run: the rounds of the polls, in poll order,
      each from the snapshot the previous one left. */
  ghost function Rounds(prev: map<Id, ContainerStatus>, polls: seq<seq<Container>>,
                        removedOrders: seq<seq<Id>>, changedOrders: seq<seq<Id>>): seq<Request>
    requires OrdersFit(prev, polls, removedOrders, changedOrders)
    decreases |polls|
  {
    if polls == [] then []
    else
      var n := |polls| - 1;
      Rounds(prev, polls[..n], removedOrders[..n], changedOrders[..n])
        + Round(After(prev, polls[..n]), polls[n], removedOrders[n], changedOrders[n])
  }

  /** A run one poll longer issues the calls of the shorter run, then
      those of the new round from the snapshot the shorter run left. */
  lemma RoundsSnoc(prev: map<Id, ContainerStatus>, polls: seq<seq<Container>>, list: seq<Container>,
                   removedOrders: seq<seq<Id>>, changedOrders: seq<seq<Id>>,
                   removedOrder: seq<Id>, changedOrder: seq<Id>)
    requires OrdersFit(prev, polls, removedOrders, changedOrders)
    requires RoundOrders(After(prev, polls), list, removedOrder, changedOrder)
    ensures OrdersFit(prev, polls + [list], removedOrders + [removedOrder], changedOrders + [changedOrder])
    ensures Rounds(prev, polls + [list], removedOrders + [removedOrder], changedOrders + [changedOrder])
         == Rounds(prev, polls, removedOrders, changedOrders)
            + Round(After(prev, polls), list, removedOrder, changedOrder)
  {
    var n := |polls|;
    assert (polls + [list])[..n] == polls;
    assert (removedOrders + [removedOrder])[..n] == removedOrders;
    assert (changedOrders + [changedOrder])[..n] == changedOrders;
  }

  /** `RoundsSnoc` for the first `i + 1` polls of a run. */
  lemma RoundsStep(prev: map<Id, ContainerStatus>, polls: seq<seq<Container>>, i: nat,
                   removedOrders: seq<seq<Id>>, changedOrders: seq<seq<Id>>,
                   removedOrder: seq<Id>, changedOrder: seq<Id>)
    requires i < |polls|
    requires OrdersFit(prev, polls[..i], removedOrders, changedOrders)
    requires RoundOrders(After(prev, polls[..i]), polls[i], removedOrder, changedOrder)
    ensures After(prev, polls[..i + 1]) == Snapshot(polls[i])
    ensures OrdersFit(prev, polls[..i + 1], removedOrders + [removedOrder], changedOrders + [changedOrder])
    ensures Rounds(prev, polls[..i + 1], removedOrders + [removedOrder], changedOrders + [changedOrder])
         == Rounds(prev, polls[..i], removedOrders, changedOrders)
            + Round(After(prev, polls[..i]), polls[i], removedOrder, changedOrder)
  {
    RoundsSnoc(prev, polls[..i], polls[i], removedOrders, changedOrders, removedOrder, changedOrder);
    PrefixSnoc(polls, i);
  }

  lemma PrefixSnoc<T>(s: seq<T>, i: nat)
    requires i < |s|
    ensures s[..i + 1] == s[..i] + [s[i]]
  {
  }

  /** A poll that returns the same listing as the poll before it issues
      nothing: the run's calls are those of the run without it. */
  lemma RepeatedPollQuiet(prev: map<Id, ContainerStatus>, polls: seq<seq<Container>>,
                          removedOrders: seq<seq<Id>>, changedOrders: seq<seq<Id>>)
    requires OrdersFit(prev, polls, removedOrders, changedOrders)
    requires |polls| >= 2 && polls[|polls| - 1] == polls[|polls| - 2]
    ensures var n := |polls| - 1;
            Rounds(prev, polls, removedOrders, changedOrders)
            == Rounds(prev, polls[..n], removedOrders[..n], changedOrders[..n])
  {
    var n := |polls| - 1;
    var list := polls[n];
    assert polls[..n][n - 1] == list;
    assert After(prev, polls[..n]) == Snapshot(list);
    SteadyState(list, removedOrders[n], changedOrders[n]);
    assert Round(Snapshot(list), list, removedOrders[n], changedOrders[n]) == [];
  }

  // ---------------------------------------------------------------------
  // The publisher

  class KantocmZeroconf {
    /** The snapshot of the previous poll. */
    var containers: map<Id, ContainerStatus>
    const zeroconf: ZeroconfClient

    constructor (hostname: string)
      ensures containers == map[]
      ensures fresh(zeroconf) && zeroconf.services == map[] && zeroconf.log == []
      ensures zeroconf.server == hostname + ".local."
    {
      containers := map[];
      zeroconf := new ZeroconfClient(hostname);
    }

    method UpdateServiceCall(data: ContainerStatus, publish: bool)
      modifies zeroconf
      ensures zeroconf.State() == UpdateService(old(zeroconf.State()), Request(data, publish), zeroconf.server)
    {
      if publish {
        if |data.ports| > 0 {
          zeroconf.PublishService(data);
        }
      } else {
        zeroconf.UnpublishService(data.cId);
      }
    }

    /** The first phase of a round: build the new snapshot, publishing each
      listed container whose id the previous snapshot lacks. */
    method PublishAdded(list: seq<Container>) returns (current: map<Id, ContainerStatus>, issued: seq<Request>)
      modifies zeroconf
      ensures current == Snapshot(list)
      ensures issued == AddedRequests(containers, list)
      ensures zeroconf.State() == ApplyAll(old(zeroconf.State()), issued, zeroconf.server)
    {
      ghost var z0 := zeroconf.State();
      current := map[];
      issued := [];
      for i := 0 to |list|
        invariant current == Snapshot(list[..i])
        invariant issued == AddedRequests(containers, list[..i])
        invariant zeroconf.State() == ApplyAll(z0, issued, zeroconf.server)
      {
        var status := StatusOf(list[i]);
        assert list[..i + 1][..i] == list[..i];
        if status.cId !in containers {
          UpdateServiceCall(status, true);
          ApplyAllAppend(z0, issued, Request(status, true), zeroconf.server);
          issued := issued + [Request(status, true)];
        }
        current := current[list[i].id := status];
      }
      assert list[..|list|] == list;
    }

    /** The second phase: unpublish, in some order, the containers of the
      previous snapshot that are gone from `current`. */
    method UnpublishRemoved(current: map<Id, ContainerStatus>) returns (issued: seq<Request>, ghost order: seq<Id>)
      modifies zeroconf
      ensures multiset(order) == multiset(containers.Keys - current.Keys)
      ensures forall j :: 0 <= j < |order| ==> order[j] in containers
      ensures issued == RemovedRequests(containers, order)
      ensures zeroconf.State() == ApplyAll(old(zeroconf.State()), issued, zeroconf.server)
    {
      ghost var z0 := zeroconf.State();
      var removed := containers.Keys - current.Keys;
      issued := [];
      order := [];
      while removed != {}
        invariant removed <= containers.Keys - current.Keys
        invariant multiset(order) + multiset(removed) == multiset(containers.Keys - current.Keys)
        invariant forall j :: 0 <= j < |order| ==> order[j] in containers
        invariant issued == RemovedRequests(containers, order)
        invariant zeroconf.State() == ApplyAll(z0, issued, zeroconf.server)
        decreases removed
      {
        var cId :| cId in removed;
        var request := Request(containers[cId], false);
        UpdateServiceCall(containers[cId], false);
        ApplyAllAppend(z0, issued, request, zeroconf.server);
        issued := issued + [request];
        order := order + [cId];
        removed := removed - {cId};
      }
    }

    /** The third phase's step for one container in both snapshots. */
    method Reconcile(before: ContainerStatus, now: ContainerStatus)
      modifies zeroconf
      ensures zeroconf.State() == ApplyAll(old(zeroconf.State()), AsSeq(DiffRequest(before, now)), zeroconf.server)
    {
      ApplyAllNone(zeroconf.State(), zeroconf.server);
      if now.running {
        if !before.running {
          ApplyAllOne(zeroconf.State(), Request(before, true), zeroconf.server);
          UpdateServiceCall(before, true);
        } else if now.ports != before.ports {
          if |now.ports| > 0 {
            ApplyAllOne(zeroconf.State(), Request(now, true), zeroconf.server);
            UpdateServiceCall(now, true);
          } else {
            ApplyAllOne(zeroconf.State(), Request(before, false), zeroconf.server);
            UpdateServiceCall(before, false);
          }
        }
      } else if before.running {
        ApplyAllOne(zeroconf.State(), Request(before, false), zeroconf.server);
        UpdateServiceCall(before, false);
      }
    }

    /** The third phase: for each container in both snapshots, in some
      order, publish it if it started, republish or unpublish it if it kept
      running with other ports, unpublish it if it stopped. */
    method ApplyChanges(current: map<Id, ContainerStatus>) returns (issued: seq<Request>, ghost order: seq<Id>)
      modifies zeroconf
      ensures multiset(order) == multiset(current.Keys * containers.Keys)
      ensures forall j :: 0 <= j < |order| ==> order[j] in containers && order[j] in current
      ensures issued == ChangedRequests(containers, current, order)
      ensures zeroconf.State() == ApplyAll(old(zeroconf.State()), issued, zeroconf.server)
    {
      ghost var z0 := zeroconf.State();
      var prev := containers;
      var common := current.Keys * prev.Keys;
      issued := [];
      order := [];
      while common != {}
        invariant common <= current.Keys * prev.Keys
        invariant multiset(order) + multiset(common) == multiset(current.Keys * prev.Keys)
        invariant forall j :: 0 <= j < |order| ==> order[j] in prev && order[j] in current
        invariant issued == ChangedRequests(prev, current, order)
        invariant zeroconf.State() == ApplyAll(z0, issued, zeroconf.server)
        decreases common
      {
        var cId :| cId in common;
        var request := DiffRequest(prev[cId], current[cId]);
        Reconcile(prev[cId], current[cId]);
        ApplyAllConcat(z0, issued, AsSeq(request), zeroconf.server);
        ChangedRequestsAppend(prev, current, order, cId);
        issued := issued + AsSeq(request);
        order := order + [cId];
        common := common - {cId};
      }
    }

    /** One round of `update_containers`: the three phases, after which the
      listing is the new snapshot. `issued` are the `update_service` calls
      made, in order; `removedOrder` and `changedOrder` the orders the two
      sets of ids were visited in. */
    method UpdatePass(list: seq<Container>)
        returns (issued: seq<Request>, ghost removedOrder: seq<Id>, ghost changedOrder: seq<Id>)
      modifies this, zeroconf
      ensures containers == Snapshot(list)
      ensures multiset(removedOrder) == multiset(old(containers).Keys - containers.Keys)
      ensures multiset(changedOrder) == multiset(containers.Keys * old(containers).Keys)
      ensures forall j :: 0 <= j < |removedOrder| ==> removedOrder[j] in old(containers)
      ensures forall j :: 0 <= j < |changedOrder| ==> changedOrder[j] in old(containers) && changedOrder[j] in containers
      ensures issued == AddedRequests(old(containers), list)
                        + RemovedRequests(old(containers), removedOrder)
                        + ChangedRequests(old(containers), containers, changedOrder)
      ensures zeroconf.State() == ApplyAll(old(zeroconf.State()), issued, zeroconf.server)
    {
      ghost var z0 := zeroconf.State();
      var current, added := PublishAdded(list);
      ghost var z1 := zeroconf.State();
      var removed;
      removed, removedOrder := UnpublishRemoved(current);
      ghost var z2 := zeroconf.State();
      var changed;
      changed, changedOrder := ApplyChanges(current);
      ApplyAllConcat(z0, added, removed, zeroconf.server);
      ApplyAllConcat(z0, added + removed, changed, zeroconf.server);
      issued := added + removed + changed;
      containers := current;
    }

    /** `update_containers`: one round per poll until the stop request;
      `polls` are the listings returned before it, and `removedOrders` and
      `changedOrders` the orders each round visited its id sets in. */
    method UpdateContainers(polls: seq<seq<Container>>)
        returns (issued: seq<Request>, ghost removedOrders: seq<seq<Id>>, ghost changedOrders: seq<seq<Id>>)
      modifies this, zeroconf
      ensures containers == After(old(containers), polls)
      ensures OrdersFit(old(containers), polls, removedOrders, changedOrders)
      ensures issued == Rounds(old(containers), polls, removedOrders, changedOrders)
      ensures zeroconf.State() == ApplyAll(old(zeroconf.State()), issued, zeroconf.server)
    {
      ghost var z0 := zeroconf.State();
      ghost var c0 := containers;
      issued := [];
      removedOrders := [];
      changedOrders := [];
      assert polls[..0] == [];
      for i := 0 to |polls|
        invariant containers == After(c0, polls[..i])
        invariant OrdersFit(c0, polls[..i], removedOrders, changedOrders)
        invariant issued == Rounds(c0, polls[..i], removedOrders, changedOrders)
        invariant zeroconf.State() == ApplyAll(z0, issued, zeroconf.server)
      {
        ghost var prev := containers;
        var round, removedOrder, changedOrder := UpdatePass(polls[i]);
        assert RoundOrders(prev, polls[i], removedOrder, changedOrder);
        RoundsStep(c0, polls, i, removedOrders, changedOrders, removedOrder, changedOrder);
        ApplyAllConcat(z0, issued, round, zeroconf.server);
        issued := issued + round;
        removedOrders := removedOrders + [removedOrder];
        changedOrders := changedOrders + [changedOrder];
      }
      assert polls[..|polls|] == polls;
    }

    /** `unpublish_all_containers`: unpublish every container of the
      snapshot, in some order. */
    method UnpublishAllContainers() returns (ghost order: seq<Id>)
      modifies zeroconf
      ensures multiset(order) == multiset(containers.Keys)
      ensures zeroconf.State() == ApplyAll(old(zeroconf.State()), UnpublishRequests(order), zeroconf.server)
    {
      ghost var z0 := zeroconf.State();
      var pending := containers.Keys;
      order := [];
      while pending != {}
        invariant pending <= containers.Keys
        invariant multiset(order) + multiset(pending) == multiset(containers.Keys)
        invariant zeroconf.State() == ApplyAll(z0, UnpublishRequests(order), zeroconf.server)
        decreases pending
      {
        var cId :| cId in pending;
        zeroconf.UnpublishService(cId);
        assert UnpublishRequests(order + [cId]) == UnpublishRequests(order) + [UnpublishRequest(cId)];
        ApplyAllAppend(z0, UnpublishRequests(order), UnpublishRequest(cId), zeroconf.server);
        order := order + [cId];
        pending := pending - {cId};
      }
    }
  }

  /** The unregistrations that unpublishing the ids in `order` asks for:
      one per id with a cached info, in that order. */
  function Unregistrations(services: map<Id, ServiceInfo>, order: seq<Id>): seq<ZcAction>
  {
    if order == [] then []
    else
      var id := order[|order| - 1];
      Unregistrations(services, order[..|order| - 1]) + (if id in services then [Unregister(services[id])] else [])
  }

  /** Unpublishing every container leaves the cache as it is and only
      appends the unregistration of each container that has a cached
      info. */
  lemma {:induction false} UnpublishAllEffect(z: Zc, order: seq<Id>, server: string)
    ensures ApplyAll(z, UnpublishRequests(order), server) == Zc(z.services, z.log + Unregistrations(z.services, order))
  {
    if order == [] {
      assert z.log + [] == z.log;
    } else {
      var init := order[..|order| - 1];
      UnpublishAllEffect(z, init, server);
      assert UnpublishRequests(order) == UnpublishRequests(init) + [UnpublishRequest(order[|order| - 1])];
      ApplyAllAppend(z, UnpublishRequests(init), UnpublishRequest(order[|order| - 1]), server);
    }
  }

  /** `run`: keep the services in step with the container listings until
      stopped, then unpublish every container of the last snapshot. */
  method Run(app: KantocmZeroconf, polls: seq<seq<Container>>)
      returns (issued: seq<Request>, ghost removedOrders: seq<seq<Id>>, ghost changedOrders: seq<seq<Id>>,
               ghost order: seq<Id>)
    modifies app, app.zeroconf
    ensures OrdersFit(old(app.containers), polls, removedOrders, changedOrders)
    ensures issued == Rounds(old(app.containers), polls, removedOrders, changedOrders)
    ensures multiset(order) == multiset(After(old(app.containers), polls).Keys)
    ensures app.zeroconf.State() == ApplyAll(old(app.zeroconf.State()), issued + UnpublishRequests(order), app.zeroconf.server)
  {
    ghost var z0 := app.zeroconf.State();
    issued, removedOrders, changedOrders := app.UpdateContainers(polls);
    order := app.UnpublishAllContainers();
    ApplyAllConcat(z0, issued, UnpublishRequests(order), app.zeroconf.server);
  }

  /** An unpublish by id, as `unpublish_all_containers` issues it (only the
      id is looked at). */
  function UnpublishRequest(id: Id): Request
  {
    Request(ContainerStatus(id, "", [], false), false)
  }

  function UnpublishRequests(order: seq<Id>): seq<Request>
  {
    seq(|order|, j requires 0 <= j < |order| => UnpublishRequest(order[j]))
  }
}
