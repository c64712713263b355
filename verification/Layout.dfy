/**
 The listener array of a PA status is port-major, the endpoints of its spec are lane-major.  The loops that build,
 transpose and search them, proved against what each position means.
 */
module Layout {
  import opened Options
  import opened PortPlan

  datatype PortSpec = PortSpec(name: string, protocol: string, containerPort: nat)

  /** status.listeners[i]; a listener without an ID is None. */
  datatype ListenerStatus = ListenerStatus(portName: string, laneName: string, port: nat, id: Option<nat>)

  datatype EndpointPort = EndpointPort(name: string, port: nat, containerPort: nat, protocol: string, id: Option<nat>)

  datatype Endpoint = Endpoint(lane: string, address: string, ports: seq<EndpointPort>)

  datatype AddressPort = AddressPort(name: string, port: nat, protocol: string)

  datatype Address = Address(lane: string, ip: string, ports: seq<AddressPort>)

  // ---------------------------------------------------------------------------
  // The port-major array
  // ---------------------------------------------------------------------------

  /** The array position of port p on lane l. */
  function Index(p: nat, l: nat, lanes: nat): nat {
    p * lanes + l
  }

  /** i / laneCount and i % laneCount undo Index. */
  lemma IndexDecodes(p: nat, l: nat, lanes: nat)
    requires l < lanes
    ensures Index(p, l, lanes) / lanes == p && Index(p, l, lanes) % lanes == l
  {
    var i := Index(p, l, lanes);
    assert i == i / lanes * lanes + i % lanes;
    DigitsUnique(p, l, i / lanes, i % lanes, lanes);
  }

  lemma DecodeIndexes(i: nat, lanes: nat, ports: nat)
    requires lanes > 0 && i < ports * lanes
    ensures i / lanes < ports && i % lanes < lanes && Index(i / lanes, i % lanes, lanes) == i
  {
    Apart(ports, i / lanes, lanes);
  }

  /** Position (p, l) of a listener array is port p on lane l at the planned listener port. */
  ghost predicate PortMajor(arr: seq<ListenerStatus>, ports: seq<PortSpec>, lanes: seq<string>, base: nat) {
    && |arr| == |ports| * |lanes|
    && forall i :: 0 <= i < |arr| ==> Planned(arr[i], i, ports, lanes, base)
  }

  ghost predicate Planned(x: ListenerStatus, i: nat, ports: seq<PortSpec>, lanes: seq<string>, base: nat)
    requires i < |ports| * |lanes|
  {
    DecodeIndexes(i, |lanes|, |ports|);
    var p, l := i / |lanes|, i % |lanes|;
    x.portName == ports[p].name && x.laneName == lanes[l] && x.port == base + p
  }

  /** The nested loops of both initialisers; base is the first listener port of the slot. */
  method InitListeners(ports: seq<PortSpec>, lanes: seq<string>, base: nat) returns (arr: seq<ListenerStatus>)
    ensures PortMajor(arr, ports, lanes, base)
    ensures forall i :: 0 <= i < |arr| ==> arr[i].id.None?
  {
    arr := [];
    for p := 0 to |ports|
      invariant |arr| == Index(p, 0, |lanes|) <= |ports| * |lanes|
      invariant forall i :: 0 <= i < |arr| ==> Planned(arr[i], i, ports, lanes, base) && arr[i].id.None?
    {
      Apart(p, |ports|, |lanes|);
      for l := 0 to |lanes|
        invariant |arr| == Index(p, l, |lanes|) <= |ports| * |lanes|
        invariant forall i :: 0 <= i < |arr| ==> Planned(arr[i], i, ports, lanes, base) && arr[i].id.None?
      {
        IndexDecodes(p, l, |lanes|);
        arr := arr + [ListenerStatus(ports[p].name, lanes[l], base + p, None)];
      }
    }
  }

  /** Whatever later fills in the IDs, the entry for port p on lane l is where Index says. */
  lemma CellAt(arr: seq<ListenerStatus>, ports: seq<PortSpec>, lanes: seq<string>, base: nat, p: nat, l: nat)
    requires PortMajor(arr, ports, lanes, base) && p < |ports| && l < |lanes|
    ensures Index(p, l, |lanes|) < |arr|
    ensures var x := arr[Index(p, l, |lanes|)];
      x.portName == ports[p].name && x.laneName == lanes[l] && x.port == base + p
  {
    Apart(p, |ports|, |lanes|);
    IndexDecodes(p, l, |lanes|);
    assert Planned(arr[Index(p, l, |lanes|)], Index(p, l, |lanes|), ports, lanes, base);
  }

  // ---------------------------------------------------------------------------
  // The lane-major endpoints
  // ---------------------------------------------------------------------------

  /** What the endpoint of lane l shows for port p. */
  function Shown(arr: seq<ListenerStatus>, ports: seq<PortSpec>, lanes: nat, base: nat, p: nat, l: nat): EndpointPort
    requires p < |ports| && Index(p, l, lanes) < |arr|
  {
    EndpointPort(ports[p].name, base + p, ports[p].containerPort, ports[p].protocol, arr[Index(p, l, lanes)].id)
  }

  ghost predicate LaneOk(ep: Endpoint, arr: seq<ListenerStatus>, ports: seq<PortSpec>, lanes: nat, base: nat, l: nat)
    requires |arr| == |ports| * lanes && l < lanes
  {
    && |ep.ports| == |ports|
    && forall p :: 0 <= p < |ports| ==>
         (Apart(p, |ports|, lanes); ep.ports[p] == Shown(arr, ports, lanes, base, p, l))
  }

  /** The endpoints are the transpose of the listener array, with the address of each lane's NLB. */
  ghost predicate Transposed(eps: seq<Endpoint>, arr: seq<ListenerStatus>, ports: seq<PortSpec>, lanes: seq<string>,
                             addresses: seq<string>, base: nat)
    requires |arr| == |ports| * |lanes| && |addresses| == |lanes|
  {
    && |eps| == |lanes|
    && forall l :: 0 <= l < |lanes| ==>
         eps[l].lane == lanes[l] && eps[l].address == addresses[l] && LaneOk(eps[l], arr, ports, |lanes|, base, l)
  }

  /** The assembly loops of handleProvisioning; without an address for some lane there is no result yet. */
  method AssembleEndpoints(arr: seq<ListenerStatus>, ports: seq<PortSpec>, lanes: seq<string>,
                           addresses: seq<string>, base: nat) returns (r: Option<seq<Endpoint>>)
    requires |arr| == |ports| * |lanes| && |addresses| == |lanes|
    ensures r.None? <==> "" in addresses
    ensures r.Some? ==> Transposed(r.value, arr, ports, lanes, addresses, base)
  {
    var eps: seq<Endpoint> := [];
    for l := 0 to |lanes|
      invariant "" !in addresses[..l] && |eps| == l
      invariant forall j :: 0 <= j < l ==>
        eps[j].lane == lanes[j] && eps[j].address == addresses[j] && LaneOk(eps[j], arr, ports, |lanes|, base, j)
    {
      if addresses[l] == "" {
        return None;
      }
      var shown: seq<EndpointPort> := [];
      for p := 0 to |ports|
        invariant |shown| == p
        invariant forall q :: 0 <= q < p ==>
          (Apart(q, |ports|, |lanes|); shown[q] == Shown(arr, ports, |lanes|, base, q, l))
      {
        Apart(p, |ports|, |lanes|);
        shown := shown + [EndpointPort(ports[p].name, base + p, ports[p].containerPort, ports[p].protocol,
                                       arr[Index(p, l, |lanes|)].id)];
      }
      eps := eps + [Endpoint(lanes[l], addresses[l], shown)];
    }
    return Some(eps);
  }

  predicate DistinctLanes(lanes: seq<string>) {
    forall i, j :: 0 <= i < j < |lanes| ==> lanes[i] != lanes[j]
  }

  /**
   Whatever the order of the two arrays: an endpoint entry shows the ID and the port of the one listener that has its
   port name and its endpoint's lane.
   */
  lemma EndpointsShowTheirListeners(eps: seq<Endpoint>, arr: seq<ListenerStatus>, ports: seq<PortSpec>,
                                    lanes: seq<string>, addresses: seq<string>, base: nat, l: nat, k: nat, i: nat)
    requires PortMajor(arr, ports, lanes, base) && |addresses| == |lanes|
    requires Transposed(eps, arr, ports, lanes, addresses, base)
    requires DistinctNames(ports) && DistinctLanes(lanes)
    requires l < |eps| && k < |eps[l].ports| && i < |arr|
    requires arr[i].laneName == eps[l].lane && arr[i].portName == eps[l].ports[k].name
    ensures eps[l].ports[k].id == arr[i].id && eps[l].ports[k].port == arr[i].port
    ensures eps[l].address == addresses[l]
  {
    assert LaneOk(eps[l], arr, ports, |lanes|, base, l);
    Apart(k, |ports|, |lanes|);
    assert eps[l].ports[k] == Shown(arr, ports, |lanes|, base, k, l);
    var p, q := CellOf(arr, ports, lanes, base, i);
    assert p == k && q == l;
  }

  /** Which port and lane listener i belongs to. */
  lemma CellOf(arr: seq<ListenerStatus>, ports: seq<PortSpec>, lanes: seq<string>, base: nat, i: nat)
    returns (p: nat, l: nat)
    requires PortMajor(arr, ports, lanes, base) && i < |arr|
    ensures p < |ports| && l < |lanes| && i == Index(p, l, |lanes|)
    ensures arr[i].portName == ports[p].name && arr[i].laneName == lanes[l] && arr[i].port == base + p
  {
    assert Planned(arr[i], i, ports, lanes, base);
    DecodeIndexes(i, |lanes|, |ports|);
    p, l := i / |lanes|, i % |lanes|;
  }

  /** Every listener is shown by the entry of its port in the endpoint of its lane. */
  lemma EveryListenerIsShown(eps: seq<Endpoint>, arr: seq<ListenerStatus>, ports: seq<PortSpec>,
                             lanes: seq<string>, addresses: seq<string>, base: nat, i: nat)
    requires PortMajor(arr, ports, lanes, base) && |addresses| == |lanes| && i < |arr|
    requires Transposed(eps, arr, ports, lanes, addresses, base)
    ensures exists l: nat, k: nat ::
      && l < |eps| && k < |eps[l].ports| && eps[l].lane == arr[i].laneName && eps[l].ports[k].name == arr[i].portName
      && eps[l].ports[k].id == arr[i].id && eps[l].ports[k].port == arr[i].port
      && eps[l].ports[k].protocol == ports[k].protocol && eps[l].ports[k].containerPort == ports[k].containerPort
  {
    var k, l := CellOf(arr, ports, lanes, base, i);
    Apart(k, |ports|, |lanes|);
    assert LaneOk(eps[l], arr, ports, |lanes|, base, l);
    assert eps[l].ports[k] == Shown(arr, ports, |lanes|, base, k, l);
  }

  // ---------------------------------------------------------------------------
  // Backend ports and external addresses
  // ---------------------------------------------------------------------------

  /** The backend port an endpoint entry stands for: the container port, or the listener port of older objects. */
  function Backing(x: EndpointPort): nat {
    if x.containerPort != 0 then x.containerPort else x.port
  }

  /** k is the first entry of name in xs with a usable backend port. */
  predicate FirstAt(xs: seq<EndpointPort>, name: string, k: nat) {
    && k < |xs| && xs[k].name == name && Backing(xs[k]) != 0
    && forall j :: 0 <= j < k ==> xs[j].name != name || Backing(xs[j]) == 0
  }

  predicate NoneIn(xs: seq<EndpointPort>, name: string) {
    forall j :: 0 <= j < |xs| ==> xs[j].name != name || Backing(xs[j]) == 0
  }

  /** lookupContainerPortForSG: the first usable entry of the first lane that has one, 0 when there is none. */
  method LookupContainerPort(eps: seq<Endpoint>, name: string) returns (port: nat)
    ensures port == 0 <==> forall l :: 0 <= l < |eps| ==> NoneIn(eps[l].ports, name)
    ensures port != 0 ==> exists l: nat, k: nat ::
      && l < |eps| && FirstAt(eps[l].ports, name, k) && port == Backing(eps[l].ports[k])
      && forall j :: 0 <= j < l ==> NoneIn(eps[j].ports, name)
  {
    for l := 0 to |eps|
      invariant forall j :: 0 <= j < l ==> NoneIn(eps[j].ports, name)
    {
      var xs := eps[l].ports;
      for k := 0 to |xs|
        invariant forall j :: 0 <= j < k ==> xs[j].name != name || Backing(xs[j]) == 0
      {
        if xs[k].name == name {
          if xs[k].containerPort != 0 {
            assert FirstAt(eps[l].ports, name, k);
            return xs[k].containerPort;
          }
          if xs[k].port != 0 {
            assert FirstAt(eps[l].ports, name, k);
            return xs[k].port;
          }
        }
      }
      assert NoneIn(eps[l].ports, name);
    }
    return 0;
  }

  predicate DistinctNames(ports: seq<PortSpec>) {
    forall i, j :: 0 <= i < j < |ports| ==> ports[i].name != ports[j].name
  }

  /** The backend port of a pool port. */
  function PoolBacking(port: PortSpec, listenerPort: nat): nat {
    if port.containerPort != 0 then port.containerPort else listenerPort
  }

  /**
   Round trip: whatever IDs the listener array holds, assemble the endpoints and look a port up.  For each port of the
   pool, whichever lane is met first, the result is the pool's container port, or the listener port when none is set.
   */
  method ContainerPortRoundTrip(arr: seq<ListenerStatus>, ports: seq<PortSpec>, lanes: seq<string>,
                                addresses: seq<string>, base: nat, p: nat) returns (port: nat)
    requires |arr| == |ports| * |lanes| && |addresses| == |lanes| > 0 && "" !in addresses
    requires DistinctNames(ports) && p < |ports| && base > 0
    ensures port == PoolBacking(ports[p], base + p)
  {
    var eps := AssembleEndpoints(arr, ports, lanes, addresses, base);
    port := LookupContainerPort(eps.value, ports[p].name);
    LookupFinds(eps.value, arr, ports, lanes, addresses, base, p);
    var l: nat, k: nat :| l < |eps.value| && FirstAt(eps.value[l].ports, ports[p].name, k)
                          && port == Backing(eps.value[l].ports[k]);
    FirstIsPool(eps.value[l], arr, ports, |lanes|, base, l, p, k);
  }

  lemma LookupFinds(eps: seq<Endpoint>, arr: seq<ListenerStatus>, ports: seq<PortSpec>, lanes: seq<string>,
                    addresses: seq<string>, base: nat, p: nat)
    requires |arr| == |ports| * |lanes| && |addresses| == |lanes| > 0 && base > 0
    requires Transposed(eps, arr, ports, lanes, addresses, base) && p < |ports|
    ensures !NoneIn(eps[0].ports, ports[p].name)
  {
    assert LaneOk(eps[0], arr, ports, |lanes|, base, 0);
    Apart(p, |ports|, |lanes|);
    assert eps[0].ports[p] == Shown(arr, ports, |lanes|, base, p, 0);
  }

  lemma FirstIsPool(ep: Endpoint, arr: seq<ListenerStatus>, ports: seq<PortSpec>, lanes: nat, base: nat,
                    l: nat, p: nat, k: nat)
    requires |arr| == |ports| * lanes && l < lanes && LaneOk(ep, arr, ports, lanes, base, l)
    requires DistinctNames(ports) && p < |ports| && FirstAt(ep.ports, ports[p].name, k)
    ensures Backing(ep.ports[k]) == PoolBacking(ports[p], base + p)
  {
    Apart(k, |ports|, lanes);
    assert ep.ports[k] == Shown(arr, ports, lanes, base, k, l);
    assert k == p;
  }

  /** The published address of an endpoint. */
  ghost predicate Publishes(ep: Endpoint, a: Address) {
    && a.lane == ep.lane && a.ip == ep.address && |a.ports| == |ep.ports|
    && forall k :: 0 <= k < |ep.ports| ==>
         a.ports[k] == AddressPort(ep.ports[k].name, ep.ports[k].port, ep.ports[k].protocol)
  }

  /** buildExternalAddresses: lane by lane and port by port what the endpoints hold. */
  method BuildExternalAddresses(eps: seq<Endpoint>) returns (out: seq<Address>)
    ensures |out| == |eps| && forall l :: 0 <= l < |eps| ==> Publishes(eps[l], out[l])
    ensures forall l :: 0 <= l < |eps| ==> out[l].lane == eps[l].lane && out[l].ip == eps[l].address
    ensures forall l, k :: 0 <= l < |eps| && 0 <= k < |eps[l].ports| ==>
      && k < |out[l].ports| == |eps[l].ports| && out[l].ports[k].name == eps[l].ports[k].name
      && out[l].ports[k].port == eps[l].ports[k].port && out[l].ports[k].protocol == eps[l].ports[k].protocol
  {
    out := [];
    for l := 0 to |eps|
      invariant |out| == l && forall j :: 0 <= j < l ==> Publishes(eps[j], out[j])
    {
      var xs := eps[l].ports;
      var ports: seq<AddressPort> := [];
      for k := 0 to |xs|
        invariant |ports| == k
        invariant forall j :: 0 <= j < k ==> ports[j] == AddressPort(xs[j].name, xs[j].port, xs[j].protocol)
      {
        ports := ports + [AddressPort(xs[k].name, xs[k].port, xs[k].protocol)];
      }
      out := out + [Address(eps[l].lane, eps[l].address, ports)];
    }
  }
}
