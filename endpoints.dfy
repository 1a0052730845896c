/** The Endpoints attribute of the service detail screen: three short cuts
    (a headless external-name service shows nothing, a loading store shows a
    spinner, an empty subset list shows a dash) and otherwise the flat list
    of `ip:port` strings built from every endpoint subset. */
module Endpoints {
  import opened Text
  import opened ServiceTypes

  /** The `type` of a service that aliases an external name and has no
      virtual IP. */
  const HeadlessExternalName := "Headless(ExternalName)"

  /** What the Endpoints attribute renders: nothing, the small spinner, a
      dash, or one line per endpoint. */
  datatype View = Null | Spinner | Dash | Lines(lines: seq<string>)

  /** JavaScript truthiness of `addr.ip`. */
  predicate IpPresent(a: Address)
  {
    a.ip != ""
  }

  /** JavaScript truthiness of `port.port`. */
  predicate PortPresent(p: EndpointPort)
  {
    p.port != 0
  }

  /** The template literal `${addr.ip}:${port.port}`. */
  function EndpointText(a: Address, p: EndpointPort): string
  {
    a.ip + ":" + IntToString(p.port)
  }

  /** Reads an endpoint line back: the ip is everything before the last
      colon (so IPv6 addresses survive), the port is the number after it. */
  function SplitEndpoint(e: string): Option<(string, int)>
  {
    match LastIndexOf(e, ':')
    case None => None
    case Some(i) =>
      match ParseInt(e[i + 1..])
      case None => None
      case Some(n) => Some((e[..i], n))
  }

  /** An endpoint line determines the address and the port it came from. */
  lemma EndpointTextSplits(a: Address, p: EndpointPort)
    ensures SplitEndpoint(EndpointText(a, p)) == Some((a.ip, p.port))
  {
    var e := EndpointText(a, p);
    var d := IntToString(p.port);
    var n := |a.ip|;
    IntToStringHasNoColon(p.port);
    IntToStringRoundTrip(p.port);
    assert e[n] == ':';
    forall j | n < j < |e| ensures e[j] != ':' {
      assert e[j] == d[j - n - 1];
    }
    assert LastIndexOf(e, ':') == Some(n);
    assert e[n + 1..] == d;
    assert e[..n] == a.ip;
  }

  // The innermost loop: one address against the ports of its subset.
  function PortsEndpoints(a: Address, ports: seq<EndpointPort>): seq<string>
  {
    if |ports| == 0 then []
    else
      var p := ports[|ports| - 1];
      PortsEndpoints(a, ports[..|ports| - 1])
        + (if IpPresent(a) && PortPresent(p) then [EndpointText(a, p)] else [])
  }

  // The middle loop: every address of a subset against its ports.
  function AddressesEndpoints(addrs: seq<Address>, ports: seq<EndpointPort>): seq<string>
  {
    if |addrs| == 0 then []
    else AddressesEndpoints(addrs[..|addrs| - 1], ports) + PortsEndpoints(addrs[|addrs| - 1], ports)
  }

  /** The endpoint lines of a list of subsets, subset by subset, each subset
      address by address, each address port by port. */
  function Flatten(data: seq<Subset>): seq<string>
  {
    if |data| == 0 then []
    else
      var s := data[|data| - 1];
      Flatten(data[..|data| - 1]) + AddressesEndpoints(s.addresses, s.ports)
  }

  /** What the Endpoints attribute shows, short cuts first. */
  predicate ShowsEndpoints(kind: string, endpoints: EndpointsState, view: View)
  {
    if kind == HeadlessExternalName then view == Null
    else if endpoints.isLoading then view == Spinner
    else if |endpoints.data| == 0 then view == Dash
    else view == Lines(Flatten(endpoints.data))
  }

  /** The callback run for one address: pushes the line of the address
      with each of the subset's ports, skipping a missing ip or port. */
  method PushAddress(lines: seq<string>, addr: Address, ports: seq<EndpointPort>) returns (out: seq<string>)
    ensures out == lines + PortsEndpoints(addr, ports)
  {
    out := lines;
    var k := 0;
    while k < |ports|
      invariant 0 <= k <= |ports|
      invariant out == lines + PortsEndpoints(addr, ports[..k])
    {
      var port := ports[k];
      if addr.ip != "" && port.port != 0 {
        out := out + [EndpointText(addr, port)];
      }
      assert ports[..k + 1][..k] == ports[..k];
      k := k + 1;
    }
    assert ports[..k] == ports;
  }

  /** The callback run for one subset: runs the address callback for each
      of its addresses in turn. */
  method PushSubset(lines: seq<string>, subset: Subset) returns (out: seq<string>)
    ensures out == lines + AddressesEndpoints(subset.addresses, subset.ports)
  {
    out := lines;
    var j := 0;
    while j < |subset.addresses|
      invariant 0 <= j <= |subset.addresses|
      invariant out == lines + AddressesEndpoints(subset.addresses[..j], subset.ports)
    {
      out := PushAddress(out, subset.addresses[j], subset.ports);
      assert subset.addresses[..j + 1][..j] == subset.addresses[..j];
      j := j + 1;
    }
    assert subset.addresses[..j] == subset.addresses;
  }

  /** The Endpoints attribute, computed as the screen does it: the short cuts,
      then a loop over the subsets that pushes every present ip paired with
      every present port of the same subset. */
  method RenderEndpoints(kind: string, endpoints: EndpointsState) returns (view: View)
    ensures ShowsEndpoints(kind, endpoints, view)
  {
    if kind == HeadlessExternalName {
      return Null;
    }
    if endpoints.isLoading {
      return Spinner;
    }
    var data := endpoints.data;
    if |data| == 0 {
      return Dash;
    }
    var lines: seq<string> := [];
    var i := 0;
    while i < |data|
      invariant 0 <= i <= |data|
      invariant lines == Flatten(data[..i])
    {
      lines := PushSubset(lines, data[i]);
      assert data[..i + 1][..i] == data[..i];
      i := i + 1;
    }
    assert data[..i] == data;
    view := Lines(lines);
  }

  /** Subsets are emitted in their own order: the lines of a concatenation
      are the lines of the first part followed by those of the second. */
  lemma {:induction false} FlattenAppend(a: seq<Subset>, b: seq<Subset>)
    ensures Flatten(a + b) == Flatten(a) + Flatten(b)
  {
    if |b| == 0 {
      assert a + b == a;
    } else {
      var init := b[..|b| - 1];
      FlattenAppend(a, init);
      assert (a + b)[..|a + b| - 1] == a + init;
      assert (a + b)[|a + b| - 1] == b[|b| - 1];
    }
  }

  /** `e` is the line of a present ip and a present port of the given
      addresses and ports. */
  ghost predicate PairedIn(addrs: seq<Address>, ports: seq<EndpointPort>, e: string)
  {
    exists j, k :: 0 <= j < |addrs| && 0 <= k < |ports|
      && IpPresent(addrs[j]) && PortPresent(ports[k]) && e == EndpointText(addrs[j], ports[k])
  }

  /** `e` is the line of a present ip and a present port of one subset. */
  ghost predicate Emitted(data: seq<Subset>, e: string)
  {
    exists i :: 0 <= i < |data| && PairedIn(data[i].addresses, data[i].ports, e)
  }

  lemma {:induction false} PortsMember(a: Address, ports: seq<EndpointPort>, e: string)
    ensures e in PortsEndpoints(a, ports) <==>
      IpPresent(a) && exists k :: 0 <= k < |ports| && PortPresent(ports[k]) && e == EndpointText(a, ports[k])
  {
    if |ports| > 0 {
      var n := |ports|;
      var init := ports[..n - 1];
      PortsMember(a, init, e);
      if e in PortsEndpoints(a, init) {
        var k :| 0 <= k < n - 1 && PortPresent(init[k]) && e == EndpointText(a, init[k]);
        assert ports[k] == init[k];
      }
      if IpPresent(a) && exists k :: 0 <= k < n && PortPresent(ports[k]) && e == EndpointText(a, ports[k]) {
        var k :| 0 <= k < n && PortPresent(ports[k]) && e == EndpointText(a, ports[k]);
        if k < n - 1 {
          assert init[k] == ports[k];
        }
      }
    }
  }

  lemma {:induction false} AddressesMember(addrs: seq<Address>, ports: seq<EndpointPort>, e: string)
    ensures e in AddressesEndpoints(addrs, ports) <==> PairedIn(addrs, ports, e)
  {
    if |addrs| > 0 {
      var n := |addrs|;
      var init := addrs[..n - 1];
      var last := addrs[n - 1];
      AddressesMember(init, ports, e);
      PortsMember(last, ports, e);
      if e in AddressesEndpoints(init, ports) {
        var j, k :| 0 <= j < n - 1 && 0 <= k < |ports|
          && IpPresent(init[j]) && PortPresent(ports[k]) && e == EndpointText(init[j], ports[k]);
        assert addrs[j] == init[j];
      }
      if e in PortsEndpoints(last, ports) {
        var k :| 0 <= k < |ports| && PortPresent(ports[k]) && e == EndpointText(last, ports[k]);
        assert addrs[n - 1] == last;
      }
      if PairedIn(addrs, ports, e) {
        var j, k :| 0 <= j < n && 0 <= k < |ports|
          && IpPresent(addrs[j]) && PortPresent(ports[k]) && e == EndpointText(addrs[j], ports[k]);
        if j < n - 1 {
          assert init[j] == addrs[j];
        }
      }
    }
  }

  /** A line is emitted exactly when it is the line of a present ip and a
      present port of the same subset: every emitted line comes from such a
      pair, and every such pair is emitted. */
  lemma {:induction false} FlattenMember(data: seq<Subset>, e: string)
    ensures e in Flatten(data) <==> Emitted(data, e)
  {
    if |data| > 0 {
      var n := |data|;
      var init := data[..n - 1];
      var last := data[n - 1];
      FlattenMember(init, e);
      AddressesMember(last.addresses, last.ports, e);
      if e in Flatten(init) {
        var i :| 0 <= i < n - 1 && PairedIn(init[i].addresses, init[i].ports, e);
        assert data[i] == init[i];
      }
      if Emitted(data, e) {
        var i :| 0 <= i < n && PairedIn(data[i].addresses, data[i].ports, e);
        if i < n - 1 {
          assert init[i] == data[i];
        }
      }
    }
  }

  /** The present ips of some addresses, in address order. */
  function PresentIps(addrs: seq<Address>): (ips: seq<string>)
    ensures |ips| <= |addrs|
    ensures forall x :: 0 <= x < |ips| ==> ips[x] != ""
  {
    if |addrs| == 0 then []
    else
      var a := addrs[|addrs| - 1];
      PresentIps(addrs[..|addrs| - 1]) + (if IpPresent(a) then [a.ip] else [])
  }

  /** The present port numbers of some ports, in port order. */
  function PresentPorts(ports: seq<EndpointPort>): (ps: seq<int>)
    ensures |ps| <= |ports|
    ensures forall x :: 0 <= x < |ps| ==> ps[x] != 0
  {
    if |ports| == 0 then []
    else
      var p := ports[|ports| - 1];
      PresentPorts(ports[..|ports| - 1]) + (if PortPresent(p) then [p.port] else [])
  }

  function WithPorts(ip: string, ps: seq<int>): seq<string>
  {
    seq(|ps|, k requires 0 <= k < |ps| => ip + ":" + IntToString(ps[k]))
  }

  /** Every ip with every port, ip-major. */
  function Cross(ips: seq<string>, ps: seq<int>): seq<string>
  {
    if |ips| == 0 then []
    else Cross(ips[..|ips| - 1], ps) + WithPorts(ips[|ips| - 1], ps)
  }

  lemma {:induction false} PortsEndpointsShape(a: Address, ports: seq<EndpointPort>)
    ensures PortsEndpoints(a, ports) == if IpPresent(a) then WithPorts(a.ip, PresentPorts(ports)) else []
  {
    if |ports| > 0 {
      var init := ports[..|ports| - 1];
      var p := ports[|ports| - 1];
      PortsEndpointsShape(a, init);
      if IpPresent(a) && PortPresent(p) {
        var before := PresentPorts(init);
        assert PresentPorts(ports) == before + [p.port];
        assert WithPorts(a.ip, before + [p.port]) == WithPorts(a.ip, before) + [EndpointText(a, p)];
      }
    }
  }

  lemma {:induction false} AddressesEndpointsShape(addrs: seq<Address>, ports: seq<EndpointPort>)
    ensures AddressesEndpoints(addrs, ports) == Cross(PresentIps(addrs), PresentPorts(ports))
  {
    if |addrs| > 0 {
      var init := addrs[..|addrs| - 1];
      var a := addrs[|addrs| - 1];
      AddressesEndpointsShape(init, ports);
      PortsEndpointsShape(a, ports);
      if IpPresent(a) {
        var ips := PresentIps(addrs);
        assert ips == PresentIps(init) + [a.ip];
        assert ips[..|ips| - 1] == PresentIps(init);
        assert ips[|ips| - 1] == a.ip;
        assert AddressesEndpoints(addrs, ports) == AddressesEndpoints(init, ports) + PortsEndpoints(a, ports);
        assert Cross(ips, PresentPorts(ports)) == Cross(PresentIps(init), PresentPorts(ports)) + WithPorts(a.ip, PresentPorts(ports));
      } else {
        assert PresentIps(addrs) == PresentIps(init);
      }
    }
  }

  lemma MulMono(a: nat, b: nat, c: nat, d: nat)
    requires a <= c && b <= d
    ensures a * b <= c * d
  {
  }

  lemma {:induction false} CrossLength(ips: seq<string>, ps: seq<int>)
    ensures |Cross(ips, ps)| == |ips| * |ps|
  {
    if |ips| > 0 {
      CrossLength(ips[..|ips| - 1], ps);
      assert (|ips| - 1) * |ps| + |ps| == |ips| * |ps|;
    }
  }

  lemma {:induction false} CrossAt(ips: seq<string>, ps: seq<int>, j: nat, k: nat)
    requires j < |ips| && k < |ps|
    ensures j * |ps| + k < |Cross(ips, ps)|
    ensures Cross(ips, ps)[j * |ps| + k] == ips[j] + ":" + IntToString(ps[k])
  {
    var m := |ips|;
    var init := ips[..m - 1];
    CrossLength(ips, ps);
    CrossLength(init, ps);
    assert (j + 1) * |ps| == j * |ps| + |ps|;
    if j < m - 1 {
      CrossAt(init, ps, j, k);
      MulMono(j + 1, |ps|, m - 1, |ps|);
      assert init[j] == ips[j];
    } else {
      assert j * |ps| == |Cross(init, ps)|;
    }
  }

  /** Inside one subset the order is address-major: with `ips` its present
      ips and `ps` its present ports, in their own order, line
      n = j * |ps| + k of the subset joins ips[j] and ps[k]. */
  lemma SubsetOrder(s: Subset, j: nat, k: nat, n: nat)
    requires j < |PresentIps(s.addresses)| && k < |PresentPorts(s.ports)|
    requires n == j * |PresentPorts(s.ports)| + k
    ensures n < |AddressesEndpoints(s.addresses, s.ports)|
    ensures AddressesEndpoints(s.addresses, s.ports)[n]
      == PresentIps(s.addresses)[j] + ":" + IntToString(PresentPorts(s.ports)[k])
  {
    AddressesEndpointsShape(s.addresses, s.ports);
    CrossAt(PresentIps(s.addresses), PresentPorts(s.ports), j, k);
  }

  /** Sum over subsets of (present ips) * (present ports). */
  function ValidPairCount(data: seq<Subset>): nat
  {
    if |data| == 0 then 0
    else
      var s := data[|data| - 1];
      ValidPairCount(data[..|data| - 1]) + |PresentIps(s.addresses)| * |PresentPorts(s.ports)|
  }

  /** Sum over subsets of |addresses| * |ports|. */
  function PairCount(data: seq<Subset>): nat
  {
    if |data| == 0 then 0
    else
      var s := data[|data| - 1];
      PairCount(data[..|data| - 1]) + |s.addresses| * |s.ports|
  }

  /** Nothing is de-duplicated: there is one line per pair of a present ip
      and a present port of the same subset, and so at most the sum over
      subsets of |addresses| * |ports|. */
  lemma {:induction false} FlattenCount(data: seq<Subset>)
    ensures |Flatten(data)| == ValidPairCount(data) <= PairCount(data)
  {
    if |data| > 0 {
      var s := data[|data| - 1];
      FlattenCount(data[..|data| - 1]);
      AddressesEndpointsShape(s.addresses, s.ports);
      CrossLength(PresentIps(s.addresses), PresentPorts(s.ports));
      MulMono(|PresentIps(s.addresses)|, |PresentPorts(s.ports)|, |s.addresses|, |s.ports|);
    }
  }

  /** A zero port is skipped while the other port of the address is kept. */
  lemma ZeroPortSkipped()
    ensures Flatten([Subset([Address("10.0.0.1")], [EndpointPort(80), EndpointPort(0)])]) == ["10.0.0.1:80"]
  {
    var a := Address("10.0.0.1");
    var ports := [EndpointPort(80), EndpointPort(0)];
    assert IntToString(80) == "80";
    assert EndpointText(a, EndpointPort(80)) == "10.0.0.1:80";
    assert ports[..1] == [EndpointPort(80)] && [EndpointPort(80)][..0] == [];
    assert PortsEndpoints(a, [EndpointPort(80)]) == ["10.0.0.1:80"];
    assert PortsEndpoints(a, ports) == ["10.0.0.1:80"];
    assert [a][..0] == [];
    assert AddressesEndpoints([a], ports) == ["10.0.0.1:80"];
    assert [Subset([a], ports)][..0] == [];
  }

  /** A repeated address yields its lines twice. */
  lemma RepeatedAddressKept()
    ensures Flatten([Subset([Address("a"), Address("a")], [EndpointPort(1)])]) == ["a:1", "a:1"]
  {
    var a := Address("a");
    var ports := [EndpointPort(1)];
    assert IntToString(1) == "1";
    assert EndpointText(a, EndpointPort(1)) == "a:1";
    assert ports[..0] == [];
    assert PortsEndpoints(a, ports) == ["a:1"];
    assert [a, a][..1] == [a] && [a][..0] == [];
    assert AddressesEndpoints([a], ports) == ["a:1"];
    assert AddressesEndpoints([a, a], ports) == ["a:1", "a:1"];
    assert [Subset([a, a], ports)][..0] == [];
  }
}
